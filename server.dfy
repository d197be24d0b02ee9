/**
  The chat server's shared state and the code that changes it: `broadcast`,
  the steps of `handle_client` and one sweep of `heartbeat_monitor`.

  Socket writes become an oracle: `broken` is the set of connections whose
  `write`/`drain` raises. Each method runs its code as one atomic step: the
  coroutines it models suspend inside it (at every `drain` and `wait_closed`
  of a broadcast, at the welcome and between the reaper's evictions), and
  what other tasks could do at those points is not modelled.
 */
module Server {
  import opened Registry
  import opened Text

  /**
    One `reader.readline()`: the decoded line (empty at end of stream) with
    the `time.time()` and the `%H:%M:%S` stamp taken after it, or an
    exception (connection reset, undecodable bytes).
   */
  datatype Read = Chunk(data: string, at: int, clock: string) | Raised

  /** One write of `text` to `to`; `ok` is false when the write raised. */
  datatype Attempt = Attempt(to: Conn, text: string, ok: bool)

  /** How a handler ended. */
  datatype Outcome =
    | NoUsername     // no username: the handler ends (returns at end of stream, raises on an exception) and the writer stays registered
    | WelcomeFailed  // the welcome write raised outside the try: no teardown
    | Departed       // the read loop ended and the finally block ran

  /** A read that the handler keeps going after: neither an exception nor end of stream. */
  predicate IsLine(read: Read)
  {
    read.Chunk? && read.data != []
  }

  predicate IsPing(read: Read)
  {
    IsLine(read) && Strip(read.data) == Ping
  }

  /** The username the first read establishes: the line without surrounding whitespace. */
  function Username(read: Read): (name: Option<string>)
    ensures name.Some? <==> IsLine(read)
    ensures name.Some? ==> name.value == Strip(read.data)
  {
    if IsLine(read) then Some(Strip(read.data)) else None
  }

  /**
    What a read by `name`'s handler broadcasts: the chat line for a line
    that is not a ping, nothing for a ping or a read that ends the loop.
   */
  function Chat(name: string, read: Read): (said: seq<string>)
    ensures |said| <= 1
    ensures !IsLine(read) ==> said == []
    ensures IsLine(read) ==> (said == [] <==> IsPing(read))
  {
    if IsLine(read) && !IsPing(read) then [ChatLine(read.clock, name, Strip(read.data))] else []
  }

  /** The chat lines a handler broadcasts for `input`, up to the read that ends its loop. */
  function ChatLines(name: string, input: seq<Read>): seq<string>
  {
    if input == [] || !IsLine(input[0]) then [] else Chat(name, input[0]) + ChatLines(name, input[1..])
  }

  /**
    A client that sends only pings never has anything broadcast on its behalf,
    whatever read ends its loop.
   */
  lemma {:induction false} PingsAreSilent(name: string, input: seq<Read>)
    requires forall i :: 0 <= i < LoopEnd(input) ==> IsPing(input[i])
    ensures ChatLines(name, input) == []
  {
    if input != [] && IsLine(input[0]) {
      var rest := input[1..];
      assert forall i :: 0 <= i < LoopEnd(rest) ==> rest[i] == input[i + 1];
      PingsAreSilent(name, rest);
    }
  }

  /** Every chat line the loop reads is broadcast exactly once, in the order it was read. */
  lemma {:induction false} ChatsAreRelayedInOrder(name: string, input: seq<Read>)
    requires forall i :: 0 <= i < LoopEnd(input) ==> !IsPing(input[i])
    ensures |ChatLines(name, input)| == LoopEnd(input)
    ensures forall i :: 0 <= i < LoopEnd(input) ==>
      IsLine(input[i]) && ChatLines(name, input)[i] == ChatLine(input[i].clock, name, Strip(input[i].data))
  {
    if input != [] && IsLine(input[0]) {
      var rest := input[1..];
      assert forall i :: 0 <= i < LoopEnd(rest) ==> rest[i] == input[i + 1];
      ChatsAreRelayedInOrder(name, rest);
    }
  }

  /** The concatenation of `parts`, in order. */
  function Flatten(parts: seq<seq<string>>): seq<string>
  {
    if parts == [] then [] else parts[0] + Flatten(parts[1..])
  }

  /** What each read of `input` says, position by position. */
  function Contributions(name: string, input: seq<Read>): (parts: seq<seq<string>>)
    ensures |parts| == |input|
    ensures forall i :: 0 <= i < |input| ==> parts[i] == Chat(name, input[i])
  {
    seq(|input|, i requires 0 <= i < |input| => Chat(name, input[i]))
  }

  lemma {:induction false} FlattenSnoc(parts: seq<seq<string>>, last: seq<string>)
    ensures Flatten(parts + [last]) == Flatten(parts) + last
  {
    if parts != [] {
      assert (parts + [last])[1..] == parts[1..] + [last];
      FlattenSnoc(parts[1..], last);
    }
  }

  /** What the first `n` reads of `input` say, in order. */
  function SaidBy(name: string, input: seq<Read>, n: nat): seq<string>
    requires n <= |input|
  {
    if n == 0 then [] else SaidBy(name, input, n - 1) + Chat(name, input[n - 1])
  }

  /** Reading one more line adds exactly what that line says. */
  lemma SaidSoFar(name: string, input: seq<Read>, i: nat)
    requires i < |input|
    ensures Flatten(Contributions(name, input[..i + 1])) == Flatten(Contributions(name, input[..i])) + Chat(name, input[i])
  {
    assert Contributions(name, input[..i + 1]) == Contributions(name, input[..i]) + [Chat(name, input[i])];
    FlattenSnoc(Contributions(name, input[..i]), Chat(name, input[i]));
  }

  lemma {:induction false} SaidByIsFlatten(name: string, input: seq<Read>, n: nat)
    requires n <= |input|
    ensures SaidBy(name, input, n) == Flatten(Contributions(name, input[..n]))
  {
    if n == 0 {
      assert Contributions(name, input[..0]) == [];
    } else {
      SaidByIsFlatten(name, input, n - 1);
      SaidByStep(name, input, n);
    }
  }

  lemma SaidByStep(name: string, input: seq<Read>, n: nat)
    requires 0 < n <= |input|
    requires SaidBy(name, input, n - 1) == Flatten(Contributions(name, input[..n - 1]))
    ensures SaidBy(name, input, n) == Flatten(Contributions(name, input[..n]))
  {
    SaidSoFar(name, input, n - 1);
  }

  /** Where the read loop stops: the first read that is end of stream or an exception, or the end of `input`. */
  function LoopEnd(input: seq<Read>): (n: nat)
    ensures n <= |input|
    ensures forall i :: 0 <= i < n ==> IsLine(input[i])
    ensures n < |input| ==> !IsLine(input[n])
  {
    if input == [] || !IsLine(input[0]) then 0
    else
      var n := 1 + LoopEnd(input[1..]);
      assert forall i :: 1 <= i < n ==> input[i] == input[1..][i - 1];
      n
  }

  /** The read at position `i` is a line exactly when the loop has not stopped before reaching it. */
  lemma LoopEndAt(input: seq<Read>, i: nat)
    requires i < |input|
    requires i <= LoopEnd(input)
    ensures IsLine(input[i]) <==> i < LoopEnd(input)
  {
  }

  /** `start` with `w`'s activity time set to that of the last of the first `n` reads, when that read is a line. */
  function Stamped(start: map<Conn, int>, w: Conn, input: seq<Read>, n: nat): (m: map<Conn, int>)
    requires n <= |input|
    ensures m - {w} == start - {w}
  {
    if n == 0 || !IsLine(input[n - 1]) then start else start[w := input[n - 1].at]
  }

  /** After the loop, `w` carries the time of the last line read, or nothing changed. */
  lemma StampedLast(start: map<Conn, int>, w: Conn, input: seq<Read>, n: nat)
    requires n == LoopEnd(input)
    ensures n == 0 ==> Stamped(start, w, input, n) == start
    ensures n > 0 ==> w in Stamped(start, w, input, n) && Stamped(start, w, input, n)[w] == input[n - 1].at
  {
  }

  /** What the reads up to the end of the loop say, one by one, is what the handler broadcasts. */
  lemma SaidByLoopEnd(name: string, input: seq<Read>)
    ensures SaidBy(name, input, LoopEnd(input)) == ChatLines(name, input)
  {
    SaidByIsFlatten(name, input, LoopEnd(input));
    ChatLinesFilter(name, input);
  }

  /**
    What a handler broadcasts for a mixed stream: every read that is not a
    ping, formatted, in order, up to the read that ends its loop.
   */
  lemma {:induction false} ChatLinesFilter(name: string, input: seq<Read>)
    ensures ChatLines(name, input) == Flatten(Contributions(name, input[..LoopEnd(input)]))
    decreases |input|
  {
    if input == [] || !IsLine(input[0]) {
      assert input[..0] == [];
    } else {
      var rest, n := input[1..], LoopEnd(input);
      ChatLinesFilter(name, rest);
      var parts := Contributions(name, input[..n]);
      assert parts[1..] == Contributions(name, rest[..n - 1]);
    }
  }

  predicate Distinct(cs: seq<Conn>)
  {
    forall i, j :: 0 <= i < j < |cs| ==> cs[i] != cs[j]
  }

  function Recipients(attempts: seq<Attempt>): (cs: seq<Conn>)
    ensures |cs| == |attempts|
  {
    seq(|attempts|, i requires 0 <= i < |attempts| => attempts[i].to)
  }

  /** The connections that received the text. */
  function Delivered(attempts: seq<Attempt>): set<Conn>
  {
    set a | a in attempts && a.ok :: a.to
  }

  /**
    What one broadcast of `message` from `sender` over registry `s` writes:
    one attempt per target, each carrying the message, failing exactly at the
    broken connections.
   */
  ghost predicate Fanout(attempts: seq<Attempt>, s: State, sender: Option<Conn>, message: string, broken: set<Conn>)
  {
    && Distinct(Recipients(attempts))
    && Elements(Recipients(attempts)) == Targets(s, sender)
    && forall a :: a in attempts ==> a.text == message && (a.ok <==> a.to !in broken)
  }

  lemma DistinctSnoc(cs: seq<Conn>, c: Conn)
    requires Distinct(cs) && c !in cs
    ensures Distinct(cs + [c])
  {
  }

  lemma {:induction false} DistinctCard(cs: seq<Conn>)
    requires Distinct(cs)
    ensures |Elements(cs)| == |cs|
  {
    if cs != [] {
      var init := cs[..|cs| - 1];
      DistinctCard(init);
      assert Elements(cs) == Elements(init) + {cs[|cs| - 1]};
      assert cs[|cs| - 1] !in Elements(init);
    }
  }

  /**
    Fan-out isolation: the sender gets nothing, every other client gets
    exactly one attempt, and the text reaches all of them but the broken ones.
   */
  lemma FanoutDelivers(attempts: seq<Attempt>, s: State, sender: Option<Conn>, message: string, broken: set<Conn>)
    requires Fanout(attempts, s, sender, message, broken)
    ensures sender.Some? ==> sender.value !in Recipients(attempts)
    ensures |attempts| == |Targets(s, sender)|
    ensures Delivered(attempts) == Targets(s, sender) - broken
  {
    DistinctCard(Recipients(attempts));
    forall c | c in Targets(s, sender) - broken ensures c in Delivered(attempts) {
      assert c in Recipients(attempts);
      var i :| 0 <= i < |attempts| && Recipients(attempts)[i] == c;
      assert attempts[i] in attempts;
    }
    forall c | c in Delivered(attempts) ensures c in Targets(s, sender) - broken {
      var a :| a in attempts && a.ok && a.to == c;
      var i :| 0 <= i < |attempts| && attempts[i] == a;
      assert Recipients(attempts)[i] == c;
    }
  }

  /** A broadcast with no target writes nothing; one with a single target writes to it once. */
  lemma SingleTarget(attempts: seq<Attempt>, s: State, sender: Option<Conn>, message: string, broken: set<Conn>)
    requires Fanout(attempts, s, sender, message, broken)
    requires |Targets(s, sender)| <= 1
    ensures Targets(s, sender) == {} ==> attempts == []
    ensures forall c :: c in Targets(s, sender) ==>
      |attempts| == 1 && attempts[0].to == c && attempts[0].text == message && (attempts[0].ok <==> c !in broken)
  {
    FanoutDelivers(attempts, s, sender, message, broken);
    if |attempts| == 1 {
      assert Recipients(attempts) == [attempts[0].to];
      assert Elements(Recipients(attempts)) == {attempts[0].to};
    }
  }

  /** The registry right after `w` was accepted at `at`, named `name`, and announced. */
  function Joined(s: State, w: Conn, at: int, name: string, broken: set<Conn>): State
  {
    AfterBroadcast(SetName(Register(s, w, at), w, name), Some(w), broken)
  }

  /**
    However often the read loop refreshes `w`'s activity time, tearing `w`
    down afterwards leaves exactly the registry `s` without `w` and without
    the clients whose write failed during the join notice.
   */
  lemma SessionNetEffect(s: State, w: Conn, at: int, name: string, broken: set<Conn>, v: State)
    requires w !in broken
    requires v.clients == Joined(s, w, at, name, broken).clients
    requires v.usernames == Joined(s, w, at, name, broken).usernames
    requires v.lastActive - {w} == Joined(s, w, at, name, broken).lastActive - {w}
    ensures Remove(v, w) == RemoveAll(s, s.clients * broken + {w})
  {
    var j, r, t := Joined(s, w, at, name, broken), Remove(v, w), RemoveAll(s, s.clients * broken + {w});
    assert r.clients == t.clients;
    forall d ensures SameEntry(r.lastActive, t.lastActive, d) && SameEntry(r.usernames, t.usernames, d) {
      if d != w {
        assert d in v.lastActive - {w} <==> d in j.lastActive - {w};
      }
    }
    assert r.lastActive == t.lastActive;
    assert r.usernames == t.usernames;
  }

  class ChatServer {
    var clients: set<Conn>
    var lastActive: map<Conn, int>
    var usernames: map<Conn, string>

    /** The three containers as one registry value. */
    function View(): State
      reads this
    {
      State(clients, lastActive, usernames)
    }

    constructor ()
      ensures View() == Empty
    {
      clients, lastActive, usernames := {}, map[], map[];
    }

    /**
      The delivery pass of `broadcast`: walks the clients as they are on
      entry, skips the sender by identity, writes to every other one and
      lists those whose write failed. It changes no container.
     */
    method DeliveryPass(message: string, sender: Option<Conn>, broken: set<Conn>)
      returns (attempts: seq<Attempt>, dead: seq<Conn>)
      ensures Fanout(attempts, View(), sender, message, broken)
      ensures Distinct(dead)
      ensures Elements(dead) == Targets(View(), sender) * broken
    {
      attempts, dead := [], [];
      var pending := clients;
      while pending != {}
        invariant pending <= clients
        invariant Distinct(Recipients(attempts)) && Distinct(dead)
        invariant forall c :: c in Recipients(attempts) <==> c in clients - pending && sender != Some(c)
        invariant forall a :: a in attempts ==> a.text == message && (a.ok <==> a.to !in broken)
        invariant forall c :: c in dead <==> c in Recipients(attempts) && c in broken
        decreases pending
      {
        var client :| client in pending;
        pending := pending - {client};
        if sender == Some(client) {
          continue;
        }
        var ok := client !in broken;
        var attempt := Attempt(client, message, ok);
        assert Recipients(attempts + [attempt]) == Recipients(attempts) + [client];
        DistinctSnoc(Recipients(attempts), client);
        attempts := attempts + [attempt];
        if !ok {
          DistinctSnoc(dead, client);
          dead := dead + [client];
        }
      }
      assert Elements(Recipients(attempts)) == Targets(View(), sender);
    }

    /** `clients.remove(c)` followed by both `pop(c, None)`; the removal raises unless `c` is live. */
    method Evict(c: Conn)
      requires c in clients
      modifies this
      ensures View() == Remove(old(View()), c)
    {
      clients := clients - {c};
      lastActive := lastActive - {c};
      usernames := usernames - {c};
    }

    /** `broadcast(message, sender)`: the delivery pass, then every failed target evicted. */
    method Broadcast(message: string, sender: Option<Conn>, broken: set<Conn>) returns (attempts: seq<Attempt>)
      modifies this
      ensures View() == AfterBroadcast(old(View()), sender, broken)
      ensures Fanout(attempts, old(View()), sender, message, broken)
    {
      var dead;
      attempts, dead := DeliveryPass(message, sender, broken);
      ghost var before := View();
      assert forall j :: 0 <= j < |dead| ==> dead[j] in Elements(dead);
      for i := 0 to |dead|
        invariant View() == RemoveEach(before, dead[..i])
        invariant forall j :: i <= j < |dead| ==> dead[j] in clients
      {
        assert dead[..i + 1] == dead[..i] + [dead[i]];
        Evict(dead[i]);
      }
      assert dead[..|dead|] == dead;
      RemoveEachIsRemoveAll(before, dead);
    }

    /** Accepting a connection: it is live, with `last_active` set, before it has a name. */
    method Accept(w: Conn, now: int)
      modifies this
      ensures View() == Register(old(View()), w, now)
    {
      clients := clients + {w};
      lastActive := lastActive[w := now];
    }

    /**
      The handshake read. On end of stream or an exception the handler stops
      here and `w` stays registered without a name.
     */
    method ReadUsername(w: Conn, read: Read) returns (name: Option<string>)
      modifies this
      ensures name == Username(read)
      ensures View() == if name.Some? then SetName(old(View()), w, name.value) else old(View())
    {
      if read.Raised? || read.data == [] {
        return None;
      }
      var username := Strip(read.data);
      usernames := usernames[w := username];
      name := Some(username);
    }

    /**
      The welcome write to `w` and the join notice to everyone else. A failed
      welcome write ends the handler before the notice.
     */
    method Join(w: Conn, name: string, broken: set<Conn>) returns (welcome: Attempt, attempts: seq<Attempt>)
      modifies this
      ensures welcome == Attempt(w, WelcomeLine(name), w !in broken)
      ensures !welcome.ok ==> View() == old(View()) && attempts == []
      ensures welcome.ok ==> View() == AfterBroadcast(old(View()), Some(w), broken)
      ensures welcome.ok ==> Fanout(attempts, old(View()), Some(w), JoinNotice(name), broken)
    {
      welcome := Attempt(w, WelcomeLine(name), w !in broken);
      if !welcome.ok {
        return welcome, [];
      }
      attempts := Broadcast(JoinNotice(name), Some(w), broken);
    }

    /**
      One turn of the read loop of `w`'s handler, whose user is `name`.
      `more` is false when the loop ends. A line refreshes `last_active[w]`;
      a ping stops there, any other line is broadcast to everyone but `w`.
     */
    method HandleRead(w: Conn, name: string, read: Read, broken: set<Conn>)
      returns (more: bool, said: seq<string>, attempts: seq<Attempt>)
      modifies this
      ensures more == IsLine(read)
      ensures !more ==> View() == old(View()) && attempts == []
      ensures said == Chat(name, read)
      ensures more && IsPing(read) ==> View() == Touch(old(View()), w, read.at) && attempts == []
      ensures more && !IsPing(read) ==>
        && View() == AfterBroadcast(Touch(old(View()), w, read.at), Some(w), broken)
        && Fanout(attempts, old(View()), Some(w), ChatLine(read.clock, name, Strip(read.data)), broken)
    {
      if read.Raised? || read.data == [] {
        return false, [], [];
      }
      var message := Strip(read.data);
      lastActive := lastActive[w := read.at];
      more := true;
      if message == Ping {
        return more, [], [];
      }
      var formatted := ChatLine(read.clock, name, message);
      said := [formatted];
      attempts := Broadcast(formatted, Some(w), broken);
    }

    /** The guarded removal of the `finally` block: nothing happens to an absent `w`. */
    method Deregister(w: Conn)
      modifies this
      ensures View() == Remove(old(View()), w)
    {
      if w in clients {
        clients := clients - {w};
      }
      lastActive := lastActive - {w};
      usernames := usernames - {w};
    }

    /** The `finally` block: the departure notice, then `w` leaves all three containers. */
    method Teardown(w: Conn, name: string, broken: set<Conn>) returns (attempts: seq<Attempt>)
      modifies this
      ensures View() == Remove(AfterBroadcast(old(View()), Some(w), broken), w)
      ensures Fanout(attempts, old(View()), Some(w), LeaveNotice(name), broken)
    {
      attempts := Broadcast(LeaveNotice(name), Some(w), broken);
      Deregister(w);
    }

    /**
      The collection pass of the reaper at time `now`: walks a copy of the
      clients and lists those silent for more than StaleAfter seconds.
     */
    method CollectStale(now: int) returns (dead: seq<Conn>)
      ensures Distinct(dead)
      ensures Elements(dead) == Stale(View(), now)
    {
      dead := [];
      var pending := clients;
      while pending != {}
        invariant pending <= clients
        invariant Distinct(dead)
        invariant forall c :: c in dead <==> c in clients - pending && IsStale(View(), c, now)
        decreases pending
      {
        var client :| client in pending;
        pending := pending - {client};
        var seen := if client in lastActive then lastActive[client] else 0;
        if now - seen > StaleAfter {
          DistinctSnoc(dead, client);
          dead := dead + [client];
        }
      }
    }

    /** One sweep of `heartbeat_monitor` at time `now`. */
    method Sweep(now: int) returns (dead: seq<Conn>)
      modifies this
      ensures View() == AfterSweep(old(View()), now)
      ensures Elements(dead) == Stale(old(View()), now)
    {
      dead := CollectStale(now);
      ghost var before := View();
      assert forall j :: 0 <= j < |dead| ==> dead[j] in Elements(dead);
      for i := 0 to |dead|
        invariant View() == RemoveEach(before, dead[..i])
        invariant forall j :: i <= j < |dead| ==> dead[j] in clients
      {
        assert dead[..i + 1] == dead[..i] + [dead[i]];
        Evict(dead[i]);
      }
      assert dead[..|dead|] == dead;
      RemoveEachIsRemoveAll(before, dead);
    }

    /**
      One turn of the read loop while every client but `w` can be written to:
      only `w`'s activity time can change.
     */
    method QuietRead(w: Conn, name: string, read: Read, broken: set<Conn>) returns (more: bool, said: seq<string>)
      requires Targets(View(), Some(w)) !! broken
      modifies this
      ensures clients == old(clients) && usernames == old(usernames)
      ensures lastActive - {w} == old(lastActive) - {w}
      ensures more == IsLine(read)
      ensures more ==> w in lastActive && lastActive[w] == read.at
      ensures !more ==> lastActive == old(lastActive)
      ensures more ==> lastActive == old(lastActive)[w := read.at]
      ensures more ==> View() == Touch(old(View()), w, read.at)
      ensures !more ==> View() == old(View())
      ensures said == Chat(name, read)
    {
      ghost var before := View();
      if IsLine(read) {
        QuietBroadcast(Touch(before, w, read.at), Some(w), broken);
      }
      var attempts;
      more, said, attempts := HandleRead(w, name, read, broken);
      if more {
        assert lastActive - {w} == before.lastActive - {w};
      }
    }

    /** One turn of the read loop: read `input[i]`; a line stamps `w` and adds what it says to the chats said so far. */
    method ReadTurn(w: Conn, name: string, input: seq<Read>, i: nat, chats: seq<string>, broken: set<Conn>, ghost start: map<Conn, int>)
      returns (more: bool, chats': seq<string>)
      requires i < |input|
      requires clients - {w} !! broken
      requires lastActive == Stamped(start, w, input, i)
      requires chats == SaidBy(name, input, i)
      modifies this
      ensures clients == old(clients) && usernames == old(usernames)
      ensures more == IsLine(input[i])
      ensures more ==> lastActive == Stamped(start, w, input, i + 1) && chats' == SaidBy(name, input, i + 1)
      ensures !more ==> lastActive == old(lastActive) && chats' == chats
    {
      assert Targets(View(), Some(w)) == clients - {w};
      var said;
      more, said := QuietRead(w, name, input[i], broken);
      chats' := chats + said;
      assert !more ==> chats' == chats;
      if more {
        assert old(lastActive)[w := input[i].at] == start[w := input[i].at];
      }
    }

    /**
      The read loop of `handle_client` while every client but `w` can be
      written to: it stamps `w` with the time of its last line and broadcasts
      what the lines say, up to the first end of stream or exception.
     */
    method ReadLoop(w: Conn, name: string, input: seq<Read>, broken: set<Conn>) returns (chats: seq<string>)
      requires Targets(View(), Some(w)) !! broken
      modifies this
      ensures clients == old(clients) && usernames == old(usernames)
      ensures lastActive == Stamped(old(lastActive), w, input, LoopEnd(input))
      ensures lastActive - {w} == old(lastActive) - {w}
      ensures LoopEnd(input) == 0 ==> lastActive == old(lastActive)
      ensures LoopEnd(input) > 0 ==> w in lastActive && lastActive[w] == input[LoopEnd(input) - 1].at
      ensures chats == ChatLines(name, input)
    {
      chats := [];
      var n := 0;
      while n < |input|
        invariant n <= LoopEnd(input)
        invariant clients == old(clients) && usernames == old(usernames)
        invariant clients - {w} !! broken
        invariant lastActive == Stamped(old(lastActive), w, input, n)
        invariant chats == SaidBy(name, input, n)
      {
        LoopEndAt(input, n);
        var more;
        more, chats := ReadTurn(w, name, input, n, chats, broken, old(lastActive));
        if !more {
          break;
        }
        n := n + 1;
      }
      SaidByLoopEnd(name, input);
      StampedLast(old(lastActive), w, input, n);
    }

    /**
      A whole `handle_client` run for connection `w`, accepted at time `at`,
      with no other task running in between. `input` are the results of its
      `readline` calls; past the last one the stream is at its end. `sent`
      lists the texts broadcast on `w`'s behalf.
     */
    method Session(w: Conn, at: int, input: seq<Read>, broken: set<Conn>)
      returns (outcome: Outcome, sent: seq<string>)
      modifies this
      ensures outcome.NoUsername? <==> input == [] || !IsLine(input[0])
      ensures outcome.NoUsername? ==> View() == Register(old(View()), w, at) && sent == []
      ensures outcome.WelcomeFailed? ==>
        && w in broken && sent == []
        && View() == SetName(Register(old(View()), w, at), w, Strip(input[0].data))
      ensures outcome.Departed? ==>
        && w !in broken
        && View() == RemoveAll(old(View()), old(clients) * broken + {w})
        && sent == [JoinNotice(Strip(input[0].data))]
                   + ChatLines(Strip(input[0].data), input[1..])
                   + [LeaveNotice(Strip(input[0].data))]
    {
      ghost var s0 := View();
      Accept(w, at);
      var first := if input == [] then Chunk([], at, "") else input[0];
      var username := ReadUsername(w, first);
      if username.None? {
        return NoUsername, [];
      }
      var name := username.value;
      var welcome, joined := Join(w, name, broken);
      if !welcome.ok {
        return WelcomeFailed, [];
      }
      var chats := ReadLoop(w, name, input[1..], broken);
      ghost var v := View();
      QuietBroadcast(v, Some(w), broken);
      var left := Teardown(w, name, broken);
      SessionNetEffect(s0, w, at, name, broken, v);
      sent := [JoinNotice(name)] + chats + [LeaveNotice(name)];
      outcome := Departed;
    }
  }
}
