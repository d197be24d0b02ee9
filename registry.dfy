/**
  The server's connection registry as a value: the three module-level
  containers `clients`, `last_active` and `usernames`, and the transitions the
  server applies to them. The class in module Server keeps the same three
  containers as fields and is proved to follow these transitions.
 */
module Registry {

  /** A connection's writer; the server only ever compares writers by identity. */
  type Conn(==, !new)

  datatype Option<T> = None | Some(value: T)

  /** Seconds of silence after which the reaper drops a client. */
  const StaleAfter: int := 30

  datatype State = State(clients: set<Conn>, lastActive: map<Conn, int>, usernames: map<Conn, string>)

  /** The registry the server starts with. */
  const Empty: State := State({}, map[], map[])

  /** `c` appears in at least one of the three containers. */
  predicate Tracked(s: State, c: Conn)
  {
    c in s.clients || c in s.lastActive || c in s.usernames
  }

  /**
    Every live client has an activity time. The converse does not hold: a
    handler can refresh the time of a writer that was already evicted.
   */
  predicate Consistent(s: State)
  {
    s.clients <= s.lastActive.Keys
  }

  predicate SameEntry<V(==)>(m: map<Conn, V>, m': map<Conn, V>, c: Conn)
  {
    (c in m <==> c in m') && (c in m ==> m[c] == m'[c])
  }

  /** `s` and `t` agree on everything they record about `c`. */
  predicate SameRecord(s: State, t: State, c: Conn)
  {
    && (c in s.clients <==> c in t.clients)
    && SameEntry(s.lastActive, t.lastActive, c)
    && SameEntry(s.usernames, t.usernames, c)
  }

  /** Accepting `c` at time `now`: `clients.add(c)` and `last_active[c] = now`. */
  function Register(s: State, c: Conn, now: int): (r: State)
    ensures c in r.clients && c in r.lastActive && r.lastActive[c] == now
    ensures r.usernames == s.usernames
    ensures forall d :: d != c ==> SameRecord(s, r, d)
    ensures Consistent(s) ==> Consistent(r)
  {
    State(s.clients + {c}, s.lastActive[c := now], s.usernames)
  }

  /** A line read from `c` at time `now`: `last_active[c] = now`, whether or not `c` is still live. */
  function Touch(s: State, c: Conn, now: int): (r: State)
    ensures c in r.lastActive && r.lastActive[c] == now
    ensures r.clients == s.clients && r.usernames == s.usernames
    ensures forall d :: d != c ==> SameRecord(s, r, d)
    ensures Consistent(s) ==> Consistent(r)
  {
    s.(lastActive := s.lastActive[c := now])
  }

  /** The handshake: `usernames[c] = name`. */
  function SetName(s: State, c: Conn, name: string): (r: State)
    ensures c in r.usernames && r.usernames[c] == name
    ensures r.clients == s.clients && r.lastActive == s.lastActive
    ensures forall d :: d != c ==> SameRecord(s, r, d)
    ensures Consistent(s) ==> Consistent(r)
  {
    s.(usernames := s.usernames[c := name])
  }

  /** Dropping `c` from all three containers; nothing happens to a `c` that is absent. */
  function Remove(s: State, c: Conn): (r: State)
    ensures !Tracked(r, c)
    ensures forall d :: d != c ==> SameRecord(s, r, d)
    ensures !Tracked(s, c) ==> r == s
    ensures Consistent(s) ==> Consistent(r)
  {
    State(s.clients - {c}, s.lastActive - {c}, s.usernames - {c})
  }

  /** Dropping every member of `cs` from all three containers. */
  function RemoveAll(s: State, cs: set<Conn>): (r: State)
    ensures forall d :: d in cs ==> !Tracked(r, d)
    ensures forall d :: d !in cs ==> SameRecord(s, r, d)
    ensures Consistent(s) ==> Consistent(r)
  {
    State(s.clients - cs, s.lastActive - cs, s.usernames - cs)
  }

  function Elements(cs: seq<Conn>): set<Conn>
  {
    set c | c in cs
  }

  /** Dropping the members of `cs` one after another, in order, as the server's removal loops do. */
  function RemoveEach(s: State, cs: seq<Conn>): (r: State)
    ensures forall d :: d in cs ==> !Tracked(r, d)
    ensures forall d :: d !in cs ==> SameRecord(s, r, d)
  {
    if cs == [] then s
    else
      var init, last := cs[..|cs| - 1], cs[|cs| - 1];
      assert forall d :: d in cs <==> d in init || d == last by { assert cs == init + [last]; }
      Remove(RemoveEach(s, init), last)
  }

  /** Removing one at a time, in any order, is removing the whole set at once. */
  lemma {:induction false} RemoveEachIsRemoveAll(s: State, cs: seq<Conn>)
    ensures RemoveEach(s, cs) == RemoveAll(s, Elements(cs))
  {
    if cs == [] {
      assert s.clients - {} == s.clients;
      assert s.lastActive - {} == s.lastActive;
      assert s.usernames - {} == s.usernames;
    } else {
      var init, last := cs[..|cs| - 1], cs[|cs| - 1];
      RemoveEachIsRemoveAll(s, init);
      assert cs == init + [last];
      assert Elements(cs) == Elements(init) + {last};
      var t := RemoveAll(s, Elements(init));
      assert t.lastActive - {last} == s.lastActive - Elements(cs);
      assert t.usernames - {last} == s.usernames - Elements(cs);
    }
  }

  /** The connections a broadcast writes to: every client except the sender, compared by identity. */
  function Targets(s: State, sender: Option<Conn>): (t: set<Conn>)
    ensures forall c :: c in t <==> c in s.clients && sender != Some(c)
  {
    if sender.Some? then s.clients - {sender.value} else s.clients
  }

  /**
    The registry after a broadcast from `sender` when the writes to the
    connections in `broken` fail: the targets whose write failed are gone.
   */
  function AfterBroadcast(s: State, sender: Option<Conn>, broken: set<Conn>): (r: State)
    ensures forall c :: c in r.clients <==> c in s.clients && (sender == Some(c) || c !in broken)
    ensures forall c :: c in Targets(s, sender) && c in broken ==> !Tracked(r, c)
    ensures forall c :: c !in Targets(s, sender) || c !in broken ==> SameRecord(s, r, c)
    ensures Consistent(s) ==> Consistent(r)
  {
    RemoveAll(s, Targets(s, sender) * broken)
  }

  /** A broadcast whose targets are all reachable changes nothing. */
  lemma QuietBroadcast(s: State, sender: Option<Conn>, broken: set<Conn>)
    requires Targets(s, sender) !! broken
    ensures AfterBroadcast(s, sender, broken) == s
  {
    assert Targets(s, sender) * broken == {};
    assert s.clients - {} == s.clients;
    assert s.lastActive - {} == s.lastActive;
    assert s.usernames - {} == s.usernames;
  }

  /** Once a broadcast has dropped the failing targets, repeating it drops nobody else. */
  lemma BroadcastSettles(s: State, sender: Option<Conn>, broken: set<Conn>)
    ensures AfterBroadcast(AfterBroadcast(s, sender, broken), sender, broken)
         == AfterBroadcast(s, sender, broken)
  {
    QuietBroadcast(AfterBroadcast(s, sender, broken), sender, broken);
  }

  /** `last_active.get(c, 0)`: a writer without a recorded time counts as silent since time 0. */
  function LastSeen(s: State, c: Conn): (t: int)
    ensures c !in s.lastActive ==> t == 0
    ensures Consistent(s) && c in s.clients ==> t == s.lastActive[c]
  {
    if c in s.lastActive then s.lastActive[c] else 0
  }

  predicate IsStale(s: State, c: Conn, now: int)
  {
    now - LastSeen(s, c) > StaleAfter
  }

  /** The clients the reaper collects at time `now`. */
  function Stale(s: State, now: int): (d: set<Conn>)
    ensures forall c :: c in d <==> c in s.clients && IsStale(s, c, now)
  {
    set c | c in s.clients && IsStale(s, c, now)
  }

  /** One sweep of the reaper at time `now`. */
  function AfterSweep(s: State, now: int): (r: State)
    ensures forall c :: c in s.clients ==> (c in r.clients <==> !IsStale(s, c, now))
    ensures forall c :: c in s.clients && IsStale(s, c, now) ==> !Tracked(r, c)
    ensures forall c :: c !in s.clients || !IsStale(s, c, now) ==> SameRecord(s, r, c)
    ensures r.clients <= s.clients
    ensures Consistent(s) ==> Consistent(r)
  {
    RemoveAll(s, Stale(s, now))
  }

  /** A second sweep at the same time finds nobody left to drop. */
  lemma SweepIdempotent(s: State, now: int)
    ensures AfterSweep(AfterSweep(s, now), now) == AfterSweep(s, now)
  {
    var r := AfterSweep(s, now);
    forall c | c in r.clients ensures !IsStale(r, c, now) {
      assert SameRecord(s, r, c);
    }
    assert Stale(r, now) == {};
    assert r.clients - {} == r.clients;
    assert r.lastActive - {} == r.lastActive;
    assert r.usernames - {} == r.usernames;
  }

  /** A client that was heard from at time `t` survives every sweep up to `t + StaleAfter`. */
  lemma HeardFromSurvivesSweep(s: State, c: Conn, t: int, now: int)
    requires c in s.clients && now <= t + StaleAfter
    ensures c in AfterSweep(Touch(s, c, t), now).clients
    ensures AfterSweep(Touch(s, c, t), now).lastActive[c] == t
  {
    assert !IsStale(Touch(s, c, t), c, now);
  }

  /** What happens to the registry between two sweeps, as far as client `c` is concerned. */
  datatype Event = Heard(at: int) | Swept(at: int)

  /** The registry after `events`: a line from `c` touches it, a sweep runs the reaper. */
  function Replay(s: State, c: Conn, events: seq<Event>): State
    decreases |events|
  {
    if events == [] then s
    else
      var next := match events[0]
        case Heard(t) => Touch(s, c, t)
        case Swept(t) => AfterSweep(s, t);
      Replay(next, c, events[1..])
  }

  /** Every sweep in `events` comes at most StaleAfter after the latest line from `c`, starting from `last`. */
  predicate KeptAlive(last: int, events: seq<Event>)
    decreases |events|
  {
    events == [] ||
    match events[0]
      case Heard(t) => KeptAlive(t, events[1..])
      case Swept(t) => t <= last + StaleAfter && KeptAlive(last, events[1..])
  }

  /** The time of the latest line in `events`, or `last` when there is none. */
  function LatestHeard(last: int, events: seq<Event>): int
    decreases |events|
  {
    if events == [] then last
    else match events[0]
      case Heard(t) => LatestHeard(t, events[1..])
      case Swept(_) => LatestHeard(last, events[1..])
  }

  /**
    A client that keeps sending lines, so that no sweep comes more than
    StaleAfter seconds after its latest one, stays connected through any
    number of sweeps, with its latest line's time recorded.
   */
  lemma {:induction false} PingingClientSurvives(s: State, c: Conn, events: seq<Event>)
    requires c in s.clients && c in s.lastActive
    requires KeptAlive(s.lastActive[c], events)
    ensures c in Replay(s, c, events).clients
    ensures c in Replay(s, c, events).lastActive
    ensures Replay(s, c, events).lastActive[c] == LatestHeard(s.lastActive[c], events)
    decreases |events|
  {
    if events != [] {
      match events[0]
      case Heard(t) =>
        PingingClientSurvives(Touch(s, c, t), c, events[1..]);
      case Swept(t) =>
        assert !IsStale(s, c, t);
        PingingClientSurvives(AfterSweep(s, t), c, events[1..]);
    }
  }

  /**
    A client with no recorded time is dropped by every sweep after time
    StaleAfter. The server never builds such a registry: accepting sets both
    entries with no suspension point in between, and every transition keeps
    Consistent. The lemma says what the reaper's default of 0 would do.
   */
  lemma UnrecordedClientIsReaped(s: State, c: Conn, now: int)
    requires c in s.clients && c !in s.lastActive && now > StaleAfter
    ensures !Tracked(AfterSweep(s, now), c)
  {
  }

  /**
    A handler that tears down after the reaper already dropped its writer
    finds nothing left to remove.
   */
  lemma TeardownAfterSweep(s: State, c: Conn, now: int)
    requires c in Stale(s, now)
    ensures Remove(AfterSweep(s, now), c) == AfterSweep(s, now)
  {
  }
}
