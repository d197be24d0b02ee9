# TCP chat server: connection registry

The server accepts TCP clients, takes each client's first line as its
username, and relays every later line to all other clients as
`[HH:MM:SS] name: message`. It announces joins and departures. A client
that sends only the heartbeat token `__ping__` stays alive but is never
echoed, and a background reaper drops every client that has been silent for
more than 30 seconds.

Everything the server remembers lives in three module-level containers:
- `clients`, the set of live writers;
- `last_active`, the time each writer was last heard from;
- `usernames`, the name each writer gave.

This project models those containers and the code that changes them:
- `broadcast`;
- the steps of `handle_client`;
- one sweep of `heartbeat_monitor`.

It is split into four modules:
- `Text` (text.dfy) models Python's `str.strip()` with Python's whitespace
  set. It also holds the heartbeat token and the four texts the server writes.
- `Registry` (registry.dfy) holds the three containers as a value, `State`.
  It also holds the transitions applied to them, and the lemmas about
  broadcasts and sweeps.
- `Server` (server.dfy) holds the class `ChatServer`. The class keeps the
  three containers as fields: `clients: set<Conn>`,
  `lastActive: map<Conn, int>` and `usernames: map<Conn, string>`. Its
  methods are the code of `broadcast`, `handle_client` and
  `heartbeat_monitor`, with their loops. Each method states its new state:
  most as a move of `View()` (the fields as a `State`) along the matching
  `Registry` transition; `ReadTurn` and `ReadLoop` field by field, giving
  the writer's new `last_active` entry.
- `Scenario` (scenario.dfy) is a two-client run. It is derived only from the
  methods' contracts.

Two things in the server are inputs to the model:
- Socket writes are an oracle. `broken` is the set of connections whose
  `write`/`drain` raises.
- Each `readline` is a `Read`. A `Read` is either a decoded line (empty at
  end of stream), with the clock reading and the `%H:%M:%S` stamp taken
  after it, or an exception.

Each method runs its code as one atomic step. The coroutines suspend
inside several of them: at every `drain` and `wait_closed` of a broadcast,
at the welcome's `drain`, and between the reaper's evictions. What other
tasks could do at those points is not modelled. `Session` is a whole
handler run with no other task in between.

## Model

| member | source | states |
|---|---|---|
| Text.IsSpace | server.py:199 | the whitespace `str.strip()` removes, here and in the loop at server.py:219: the characters for which `str.isspace()` holds |
| Text.TrimStart | server.py:199 | `lstrip()` is no longer than its input and does not start with whitespace |
| Text.TrimStartShape | server.py:199 | `lstrip()` keeps a suffix of its input, and everything it drops is whitespace |
| Text.TrimEnd | server.py:199 | `rstrip()` is no longer than its input and does not end with whitespace |
| Text.TrimEndShape | server.py:199 | `rstrip()` keeps a prefix of its input, and everything it drops is whitespace |
| Text.Strip | server.py:199 | `strip()` is no longer than its input and has no whitespace at either end |
| Text.StripKeepsTrimmed | server.py:219 | a string without surrounding whitespace is its own `strip()` |
| Text.StripIsMiddle | server.py:199 | the input is `p + strip(s) + q` with `p` and `q` all whitespace: `strip()` returns the middle of its input, cut after the leading whitespace |
| Text.StripIdempotent | server.py:219 | `strip()` applied twice is `strip()` applied once |
| Text.TrimStartSkipsPadding | server.py:199 | leading whitespace does not change `lstrip()` |
| Text.TrimEndSkipsPadding | server.py:199 | trailing whitespace does not change `rstrip()` |
| Text.TrimStartKeepsTail | server.py:199 | `lstrip()` keeps trailing text unchanged when something other than whitespace precedes it |
| Text.StripIgnoresPadding | server.py:219 | `strip()` of a string padded with whitespace on both sides equals `strip()` of the string |
| Text.StripLine | server.py:195-199 | a word read with its trailing newline strips back to the word |
| Text.HeartbeatLineIsPing | client.py:69 | the client's heartbeat line `__ping__\n` strips to the token the server checks for |
| Text.ChatLine | server.py:229 | the chat line `[<time>] <name>: <message>` with a newline |
| Text.WelcomeLine | server.py:204 | the welcome text written to a new user |
| Text.JoinNotice | server.py:208 | the join announcement |
| Text.LeaveNotice | server.py:240 | the departure announcement |
| Registry.Register | server.py:189-190 | accepting adds the writer to `clients` with `last_active` set to now; usernames untouched; every other writer's record unchanged |
| Registry.Touch | server.py:220 | a line sets the writer's `last_active` to now and changes nothing else |
| Registry.SetName | server.py:200 | the handshake records the username and changes nothing else |
| Registry.Remove | server.py:242-246 | afterwards the writer is in none of the three containers; other writers untouched; removing an absent writer changes nothing |
| Registry.RemoveAll | server.py:170-176 | every member of the set is gone from all three containers and every other writer's record is unchanged |
| Registry.RemoveEach | server.py:170-176 | the removal loops of `broadcast` and of the reaper (server.py:265-273): each listed writer is in no container afterwards, and every other writer's record is unchanged |
| Registry.RemoveEachIsRemoveAll | server.py:170-176 | removing the dead clients one at a time in list order equals removing the whole set at once |
| Registry.Targets | server.py:159-161 | a broadcast's targets are exactly the clients other than the sender, compared by identity |
| Registry.AfterBroadcast | server.py:155-176 | afterwards a client remains iff it was a client and was the sender or reachable; failed targets are in no container; the sender and reachable clients keep their records |
| Registry.QuietBroadcast | server.py:159-176 | a broadcast whose targets are all reachable leaves the registry unchanged |
| Registry.BroadcastSettles | server.py:155-176 | repeating a broadcast with the same failing set removes nobody else |
| Registry.Stale | server.py:261-263 | the reaper collects exactly the clients with `now - last_active.get(c, 0) > 30` |
| Registry.AfterSweep | server.py:261-273 | a client survives the sweep iff it is not stale; stale clients are in no container; all others keep their records; no client is added |
| Registry.LastSeen | server.py:262 | `last_active.get(c, 0)`: 0 for a writer with no recorded time; for a live client of a consistent registry, its recorded time, so the default is never used |
| Registry.IsStale | server.py:262 | the reaper's test: silent for strictly more than 30 seconds |
| Registry.SweepIdempotent | server.py:257-273 | a second sweep at the same time removes nothing more |
| Registry.HeardFromSurvivesSweep | server.py:220 | a client heard from at time t survives every sweep up to t + 30 and keeps its time t |
| Registry.PingingClientSurvives | server.py:219-224 | over any run of lines from a client and reaper sweeps, if no sweep comes more than 30 seconds after the client's latest line, the client stays in `clients` and its recorded time is that of its latest line |
| Registry.UnrecordedClientIsReaped | server.py:262 | a client with no `last_active` entry counts as time 0 and is removed by every sweep after time 30 |
| Registry.TeardownAfterSweep | server.py:242-246 | a handler whose writer the reaper already dropped finds nothing to remove in its teardown |
| Server.IsLine | server.py:196 | a read the handler goes on after, here and in the loop at server.py:216: not an exception and not the empty read of end of stream |
| Server.Username | server.py:195-200 | a username exists iff the first read is a non-empty line; it is that line stripped |
| Server.IsPing | server.py:223 | a line that strips to the heartbeat token |
| Server.Chat | server.py:216-231 | one read says at most one chat line; end of stream or an exception says nothing; a line says nothing iff it is a ping |
| Server.ChatLines | server.py:213-231 | what the read loop broadcasts for a sequence of reads, up to the read that ends it |
| Server.LoopEnd | server.py:215-217 | the read loop stops at the first end of stream or exception: every read before it is a line |
| Server.LoopEndAt | server.py:215-217 | a read the loop reaches is a line iff it comes before the loop's end |
| Server.Stamped | server.py:220 | lines stamp only the writer's `last_active`; every other entry is that of the start |
| Server.StampedLast | server.py:220 | after the loop the writer's `last_active` is the time of its last line, or unchanged if it sent none |
| Server.SaidByLoopEnd | server.py:213-231 | what the reads say one by one, up to the loop's end, is exactly what the loop broadcasts |
| Server.ChatLinesFilter | server.py:213-231 | for a stream mixing pings and chat lines, the loop broadcasts exactly what each read says, concatenated in read order, up to the read that ends the loop |
| Server.PingsAreSilent | server.py:222-224 | a client that sends only pings has nothing broadcast on its behalf, whatever read (end of stream, an exception or none) ends its loop |
| Server.ChatsAreRelayedInOrder | server.py:228-231 | when no read before the loop's end is a ping, the loop broadcasts one line per read it handles, and the i-th broadcast line is the i-th read, formatted |
| Server.Fanout | server.py:159-167 | what one delivery pass writes: one attempt per target, each with the message, failing exactly at the broken connections |
| Server.DistinctCard | server.py:159-167 | helper: a list without repeats has as many elements as its set |
| Server.FanoutDelivers | server.py:159-167 | the sender is never written to; there is one attempt per target; delivered = targets minus failed |
| Server.SingleTarget | server.py:159-167 | with no target nothing is written; with one target exactly one attempt carries the message to it and succeeds iff it is reachable |
| Server.SessionNetEffect | server.py:184-246 | after join, relay and teardown, the net effect is that the writer and the clients that could not be reached are gone |
| Server.ChatServer.constructor | server.py:150-152 | the three containers start empty |
| Server.ChatServer.DeliveryPass | server.py:159-167 | one attempt per client other than the sender, each with the message and failing iff the peer is broken; the dead list is the broken targets without repeats |
| Server.ChatServer.Evict | server.py:174-176 | removes one live client from all three containers |
| Server.ChatServer.Broadcast | server.py:155-181 | the attempts are a fan-out over the entry registry; the new registry is AfterBroadcast of the old |
| Server.ChatServer.Accept | server.py:189-190 | the new registry is Register of the old at time now, before any username |
| Server.ChatServer.ReadUsername | server.py:195-200 | with a non-empty first line the username is recorded; otherwise the handler ends (returns at end of stream, raises on an exception) and the writer stays registered without a username |
| Server.ChatServer.Join | server.py:203-208 | the welcome goes to the writer; if it fails nothing else happens; otherwise the join notice is a fan-out excluding the writer |
| Server.ChatServer.HandleRead | server.py:215-231 | end of stream or an exception ends the loop with no change; a ping only touches `last_active`; any other line touches it and broadcasts the formatted line excluding the writer |
| Server.ChatServer.Deregister | server.py:242-246 | the guarded removal: the registry becomes Remove of the old, a no-op for an absent writer |
| Server.ChatServer.Teardown | server.py:236-246 | the departure notice is a fan-out excluding the writer, after which the writer is removed |
| Server.ChatServer.CollectStale | server.py:261-263 | the dead list holds exactly the stale clients, each once |
| Server.ChatServer.Sweep | server.py:261-273 | the new registry is AfterSweep of the old; the removed set is the stale set |
| Server.ChatServer.QuietRead | server.py:215-231 | with every peer reachable, one turn goes on iff the read is a line; a line sets the writer's `last_active` to its time (a Touch of the registry) and yields its chat line, if any; any other read changes nothing |
| Server.ChatServer.ReadTurn | server.py:215-231 | with every peer reachable, one turn of the loop at read i: a line stamps the writer with its time and adds what it says to the chats so far; any other read changes nothing |
| Server.ChatServer.ReadLoop | server.py:213-231 | with every peer reachable, the loop changes only the writer's `last_active`, which ends as the time of its last line (unchanged if none), and relays exactly ChatLines of its reads |
| Server.ChatServer.Session | server.py:184-252 | no username (leaves the writer registered), a failed welcome (no teardown) or departure; a departure removes the writer and the unreachable clients, and announces join, chats and leave in order |
| Scenario.TwoUsers | server.py:189-208 | when a second user joins, the join notice goes to the first user only |
| Scenario.OneChat | server.py:219-231 | with two clients, a chat line from one is written to the other only |
| Scenario.OneLeaves | server.py:236-246 | with two clients, when one leaves only the other hears of it and remains |
| Scenario.Alone | server.py:159-167 | the last remaining client's chat line is written to nobody |
| Scenario.AliceAndBob | server.py:184-246 | the join, chat, leave and chat of a two-user run write exactly the listed attempts |

## Left out

- Socket I/O is not modelled: `write`, `drain`, `close`, `wait_closed`,
  `readline` and `get_extra_info`. Writes are the `broken` oracle and reads
  are `Read` values. A `broken` set is fixed for the duration of each call.
  Closing a dead connection, and the `except: pass` around closing, have no
  effect on the registry, so they are not modelled.
- Task interleaving inside one call is not modelled. `broadcast` iterates
  the live set `clients` across `await`s, and the reaper awaits between
  evictions. The model takes the set as it was on entry and assumes no other
  task runs during a call. It therefore does not model the following:
  - a `RuntimeError` from a set that changes size during iteration;
  - the `KeyError` path of `broadcast`'s removal loop, whose `except` would
    skip the two `pop`s;
  - the reaper's unguarded `clients.remove(dc)` failing for a client that
    another task already removed. That `KeyError` is outside any `try`, so
    in the server it ends `heartbeat_monitor` for good. `Evict` requires
    `c in clients` instead.
- Time is not modelled as floats. `time.time()` is an integer tick carried
  in each `Read` or passed as `now`. `datetime.now().strftime` is an opaque
  string carried in each `Read`.
- The reaper's `while True` loop and its 10-second `asyncio.sleep` are not
  modelled as a loop. `Sweep` is one pass, and `Registry.Replay` strings
  sweeps together with one client's lines at chosen times.
- `print` logging is not modelled, including the `usernames.get(dc,
  "Unknown")` lookup that exists only for the log line.
- UTF-8 decoding is not modelled. Reads are already text, and a decoding
  error is the `Raised` read.
- `Text.IsSpace` is the fixed list of code points for which Python's
  `str.isspace()` holds. Unicode database lookups are not modelled.
- `main`, the server startup, `KeyboardInterrupt` handling, the commented-out
  earlier versions of both files, and `client.py` are not part of this
  model. The exception is `client.py`'s heartbeat line, which the model
  cites for the ping token.
- Server.ChatServer.ReadLoop: proved only while every peer is reachable.
  With unreachable peers each chat broadcast drops them, as `HandleRead`
  states. Its `Session` caller meets the requirement because the join
  broadcast has already dropped every unreachable client.
- Server.ChatServer.ReadTurn: proved only while every peer is reachable,
  for the same reason as `ReadLoop`, whose loop body it is. With unreachable
  peers a chat broadcast drops them, as `HandleRead` states; `Session` meets
  the requirement because the join broadcast has already dropped them.
- Server.ChatServer.Session: models a handler that runs with no other task
  in between. Interleavings are sequences of the step methods instead.
- Registry.PingingClientSurvives: the run holds only the client's own lines
  and the reaper's sweeps. A broadcast whose write to the client fails drops
  it whatever its pings, as `AfterBroadcast` states.
