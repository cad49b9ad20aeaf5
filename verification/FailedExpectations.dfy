// Two runs in which a natural expectation fails, each from the very start: an authenticated flow that is
// expired all the same, and a packet accepted from its caller that never goes out.
module FailedExpectations {
  import opened Bytes
  import opened Lists
  import opened Conntrack
  import opened ConntrackInvariant
  import opened Delivery

  ghost predicate Reaches<R(!new)>(from: Manager<R>, to: Manager<R>) {
    exists states: seq<Manager<R>>, ops ::
      IsRun(states, ops) && states[0] == from && states[|states| - 1] == to
  }

  lemma ReachesItself<R(!new)>(m: Manager<R>)
    ensures Reaches(m, m)
  {
    var states, ops: seq<Op<R>> := [m], [];
    assert IsRun(states, ops);
  }

  lemma ReachesNext<R(!new)>(from: Manager<R>, m: Manager<R>, op: Op<R>)
    requires Reaches(from, m) && NoDangling(m) && OpOk(m, op)
    ensures Reaches(from, Step(m, op))
  {
    var next := Step(m, op);
    assert Follows(m, op, next);
    hide Follows;
    var states: seq<Manager<R>>, ops :| IsRun(states, ops) && states[0] == from && states[|states| - 1] == m;
    var states', ops' := states + [next], ops + [op];
    forall i {:trigger ops'[i]} | 0 <= i < |ops'| ensures Follows(states'[i], ops'[i], states'[i + 1]) {
      if i < |ops| { assert ops'[i] == ops[i]; }
    }
    assert IsRun(states', ops');
  }

  // A manager for one flow at most, with the flow `f`.
  function One(f: Flow): Manager<nat> {
    Manager(1, map[f.key := 0], map[1 := 0], [0], map[0 := f], 0, 1, false)
  }

  lemma OneHolds(f: Flow)
    ensures NoDangling(One(f))
  {}

  function First(): Flow { NewFlow("key", 1, "app", "group", 0) }

  lemma Created()
    ensures GetOrCreate(NewManager<nat>(0, 1), 0, "key", "app", "group", 0) == (One(First()), 0)
  {
    var m := NewManager<nat>(0, 1);
    assert m.lru + [0] == [0];
    assert AddFlow(m, 0, First()) == One(First());
  }

  lemma Seen(f: Flow, what: Sighting, now: int)
    ensures ObservePacket(One(f), f.key, what, now) == One(f.See(what, now))
  {
    hide Flow.See;
    assert MoveToBack([0], 0) == [0];
    assert f.See(what, now).key == f.key by { SeenKeepsKey(f, what, now); }
  }

  lemma SeenKeepsKey(f: Flow, what: Sighting, now: int)
    ensures f.See(what, now).key == f.key
  {}

  lemma Batched(f: Flow, now: int)
    requires f.Eligible(now)
    ensures TakeBatch(One(f), One(f).lru, 1, now).0 == One(f.(started := true))
  {
    hide Flow.Eligible;
    BatchGrows(One(f), One(f).lru, 1, now);
    BatchEnds(One(f.(started := true)), 0, now);
    assert One(f).lru[1..] == [];
  }

  lemma Expired(f: Flow, now: int, err: AuthError)
    requires f.Overdue(now) && f.authID == 1
    ensures var f', m := f.SpendTimeout(now), ExpireAuth(One(f), One(f).lru, now, err).0;
      if f'.timeouts < MAX_AUTH_ATTEMPTS then m == One(f') else m.lru == [] && m.flows == map[0 := f'.Kill(err)]
  {
    hide Flow.Overdue, Flow.SpendTimeout, Flow.Kill;
    ExpireAuthUnfolds(One(f), One(f).lru, now, err);
    assert One(f).lru[1..] == [];
    ExpireAuthUnfolds(Charge(One(f), 0, now, err).0, [], now, err);
    assert f.SpendTimeout(now).key == f.key && f.SpendTimeout(now).authID == 1 by { SpendingKeepsNames(f, now); }
  }

  lemma SpendingKeepsNames(f: Flow, now: int)
    ensures f.SpendTimeout(now).key == f.key && f.SpendTimeout(now).authID == f.authID
  {}

  // One attempt at authenticating: a request is sent and its deadline set.
  function Asked(f: Flow, deadline: int): Flow {
    f.(started := true, deadline := Some(deadline))
  }

  lemma Asks(from: Manager<nat>, f: Flow, now: int, deadline: int)
    requires Reaches(from, One(f)) && f.Eligible(now) && f.authID == 1 && !f.Signalled()
    ensures Reaches(from, One(Asked(f, deadline)))
  {
    hide Reaches, Flow.Eligible;
    Batched(f, now);
    ReachesNext(from, One(f), DoBatch(1, now));
    ReachesNext(from, One(f.(started := true)), DoMarkSent(1, deadline));
    assert MarkAuthSent(One(f.(started := true)), 1, deadline) == One(Asked(f, deadline));
  }

  // An attempt that nobody answers, short of the last one.
  lemma TimesOut(from: Manager<nat>, f: Flow, now: int)
    requires Reaches(from, One(f)) && f.Eligible(now) && f.authID == 1 && !f.Signalled() && f.timeouts < 2
    ensures Reaches(from, One(Asked(f, now).SpendTimeout(now)))
  {
    hide Reaches;
    Asks(from, f, now, now);
    Expired(Asked(f, now), now, TimedOut);
    ReachesNext(from, One(Asked(f, now)), DoExpireAuth(now, TimedOut));
  }

  const PACKET: Packet := [1]
  const TOKEN: Token := [2]

  function Cached(f: Flow): Flow { f.(meta := Meta(0, ""), pending := f.pending + [PACKET]) }

  lemma Caches(f: Flow)
    requires !f.Signalled() && |f.pending| < PENDING_LIMIT
    ensures CachePacket(One(f), 0, Meta(0, ""), PACKET) == (One(Cached(f)), CacheResult.Cached)
  {
    assert map[0 := f][0 := Cached(f)] == map[0 := Cached(f)];
  }

  function Answered(f: Flow): Flow { f.(pending := [], token := TOKEN).Signal(None) }

  lemma Answers(f: Flow)
    requires f.authID == 1 && !f.Signalled()
    ensures CompleteAuth(One(f), 1, TOKEN, None) == (One(Answered(f)), Completed(0, f.pending))
  {
    assert map[0 := f][0 := Answered(f)] == map[0 := Answered(f)];
  }

  // Two requests time out, the third is answered in time, and the answer does not stop its deadline: the
  // flow leaves the index authenticated and without an error.
  lemma AuthenticatedFlowExpires() returns (end: Manager<nat>)
    ensures Reaches(NewManager<nat>(0, 1), end) && 0 in end.flows
    ensures var f := end.flows[0]; f.Signalled() && f.authErr == None && f.token == TOKEN && end.lru == []
  {
    hide Reaches, GetOrCreate, CachePacket, CompleteAuth, ExpireAuth;
    var start := NewManager<nat>(0, 1);
    ReachesItself(start);
    Created();
    ReachesNext(start, start, DoGetOrCreate(0, "key", "app", "group", 0));
    Caches(First());
    ReachesNext(start, One(First()), DoCache(0, Meta(0, ""), PACKET));
    var f0 := Cached(First());
    TimesOut(start, f0, 0);
    var f1 := Asked(f0, 0).SpendTimeout(0);
    TimesOut(start, f1, 0);
    var f2 := Asked(f1, 0).SpendTimeout(0);
    Asks(start, f2, 0, 5);
    end := AnsweredTooLate(start, Asked(f2, 5));
  }

  lemma AnsweredTooLate(start: Manager<nat>, f: Flow) returns (end: Manager<nat>)
    requires Reaches(start, One(f)) && f.authID == 1 && !f.Signalled() && f.timeouts == 2 && f.deadline.Some?
    ensures Reaches(start, end) && 0 in end.flows
    ensures var f' := end.flows[0]; f'.Signalled() && f'.authErr == None && f'.token == TOKEN && end.lru == []
  {
    hide Reaches, CompleteAuth, ExpireAuth;
    Answers(f);
    ReachesNext(start, One(f), DoComplete(1, TOKEN, None));
    Expired(Answered(f), f.deadline.value, TimedOut);
    ReachesNext(start, One(Answered(f)), DoExpireAuth(f.deadline.value, TimedOut));
    end := ExpireAuth(One(Answered(f)), [0], f.deadline.value, TimedOut).0;
  }

  // ---- A packet that was accepted and is lost.

  ghost predicate SysReaches<R(!new)>(from: Sys<R>, to: Sys<R>) {
    exists states: seq<Sys<R>>, actions ::
      IsSysRun(states, actions) && states[0] == from && states[|states| - 1] == to
  }

  lemma SysReachesItself<R(!new)>(s: Sys<R>)
    ensures SysReaches(s, s)
  {
    var states, actions: seq<Action<R>> := [s], [];
    assert IsSysRun(states, actions);
  }

  lemma SysReachesNext<R(!new)>(from: Sys<R>, s: Sys<R>, a: Action<R>)
    requires SysReaches(from, s) && Enabled(s, a)
    ensures SysReaches(from, Next(s, a))
  {
    hide Enabled, Next;
    var states: seq<Sys<R>>, actions :| IsSysRun(states, actions) && states[0] == from && states[|states| - 1] == s;
    var states', actions' := states + [Next(s, a)], actions + [a];
    forall i {:trigger actions'[i]} | 0 <= i < |actions'|
      ensures Enabled(states'[i], actions'[i]) && states'[i + 1] == Next(states'[i], actions'[i])
    {
      if i < |actions| {
        assert states'[i] == states[i] && actions'[i] == actions[i] && states'[i + 1] == states[i + 1];
      }
    }
    assert IsSysRun(states', actions');
  }

  // The writing thread is number 0, the one that handles the answer number 1.
  function Writing(f: Flow, sendMu: map<nat, nat>, pc: Pc<nat>): Sys<nat> {
    Sys(One(f), sendMu, map[0 := pc], map[])
  }

  function Accepted(f: Flow, sendMu: map<nat, nat>, threads: map<nat, Pc<nat>>, w: Wire): Sys<nat> {
    Sys(One(f), sendMu, threads, map[0 := w])
  }

  lemma PacketIsKept() returns (s: Sys<nat>)
    ensures SysReaches(Start<nat>(0, 1), s)
    ensures var f := Cached(First().See(Udp, 0));
      s == Accepted(f, map[], map[0 := Returned(0, PACKET, Kept)], NoWire.(cached := [PACKET], log := [Entry(0, PACKET)]))
  {
    hide SysReaches, GetOrCreate, ObservePacket, CachePacket, NewFlow;
    var start, meta := Start<nat>(0, 1), Meta(0, "");
    SysReachesItself(start);
    Created();
    assert map[0 := Observing(0, meta, PACKET)][0 := Queueing(0, meta, PACKET)] == map[0 := Queueing(0, meta, PACKET)];
    SysReachesNext(start, start, Action.Write(0, 0, "key", "app", "group", 0, meta, PACKET));
    var f := First();
    assert f.key == "key" && !f.Signalled() && f.pending == [] by { FirstIs(); }
    assert Writing(f, map[], Observing(0, meta, PACKET)) == WriteStep(start, Action.Write(0, 0, "key", "app", "group", 0, meta, PACKET));
    Seen(f, Udp, 0);
    SysReachesNext(start, Writing(f, map[], Observing(0, meta, PACKET)), Observe(0, Udp, 0));
    assert !f.See(Udp, 0).Signalled() && f.See(Udp, 0).pending == [];
    s := KeepsPacket(start, f.See(Udp, 0));
  }

  lemma FirstIs()
    ensures var f := First(); f.key == "key" && f.authID == 1 && !f.Signalled() && f.pending == []
  {}

  lemma KeepsPacket(start: Sys<nat>, f: Flow) returns (s: Sys<nat>)
    requires SysReaches(start, Writing(f, map[], Queueing(0, Meta(0, ""), PACKET))) && !f.Signalled() && f.pending == []
    ensures SysReaches(start, s)
    ensures s == Accepted(Cached(f), map[], map[0 := Returned(0, PACKET, Kept)], NoWire.(cached := [PACKET], log := [Entry(0, PACKET)]))
  {
    hide SysReaches, CachePacket;
    var meta := Meta(0, "");
    var queueing, checking, caching := Queueing(0, meta, PACKET), Checking(0, meta, PACKET), Caching(0, meta, PACKET);
    SysReachesNext(start, Writing(f, map[], queueing), Lock(0));
    assert map[0 := queueing][0 := checking] == map[0 := checking];
    SysReachesNext(start, Writing(f, map[0 := 0], checking), Check(0));
    assert map[0 := checking][0 := caching] == map[0 := caching];
    Caches(f);
    SysReachesNext(start, Writing(f, map[0 := 0], caching), Cache(0));
    s := CacheStep(Writing(f, map[0 := 0], caching), 0);
    assert map[0 := 0] - {0} == map[] && map[0 := caching][0 := Returned(0, PACKET, Kept)] == map[0 := Returned(0, PACKET, Kept)];
    assert [] + [PACKET] == [PACKET] && [] + [Entry(0, PACKET)] == [Entry(0, PACKET)];
  }

  // The caller was told that its packet is taken; the authentication succeeds; the connection fails under
  // the first frame. The packet is in no frame, and never will be.
  lemma BrokenFlushLosesPacket() returns (end: Sys<nat>)
    ensures SysReaches(Start<nat>(0, 1), end)
    ensures 0 in end.threads && end.threads[0] == Returned(0, PACKET, Kept)
    ensures 0 in end.mgr.flows && end.mgr.flows[0].Signalled() && end.mgr.flows[0].authErr == None
    ensures var w := end.WireOf(0); w.log == [Entry(0, PACKET)] && w.out == [] && w.aborted
  {
    hide SysReaches, CompleteAuth, NewFlow, Flow.See;
    var start, done := Start<nat>(0, 1), Returned(0, PACKET, Kept);
    var s := PacketIsKept();
    var f, w := Cached(First().See(Udp, 0)), NoWire.(cached := [PACKET], log := [Entry(0, PACKET)]);
    assert f.authID == 1 && !f.Signalled() && f.pending == [PACKET] by { KeptIs(); }
    SysReachesNext(start, s, Answer(1, 1, TOKEN, None));
    var answering, completing := Answering(0, 1, TOKEN, None), Completing(0, 1, TOKEN, None);
    SysReachesNext(start, Accepted(f, map[], map[0 := done, 1 := answering], w), Lock(1));
    assert map[0 := done, 1 := answering][1 := completing] == map[0 := done, 1 := completing];
    CompletionFlushes(start, f, w, done);
    end := FlushBreaks(start, Answered(f), w, done);
  }

  lemma CompletionFlushes(start: Sys<nat>, f: Flow, w: Wire, done: Pc<nat>)
    requires SysReaches(start, Accepted(f, map[0 := 1], map[0 := done, 1 := Completing(0, 1, TOKEN, None)], w))
    requires f.authID == 1 && !f.Signalled() && f.pending == [PACKET]
    ensures SysReaches(start,
              Accepted(Answered(f), map[0 := 1], map[0 := done, 1 := Flushing(0, TOKEN, [PACKET])], w.(todo := [PACKET])))
  {
    hide SysReaches, CompleteAuth, NoDangling, Members;
    OneHolds(f);
    var completing, flushing := Completing(0, 1, TOKEN, None), Flushing(0, TOKEN, [PACKET]);
    Answers(f);
    SysReachesNext(start, Accepted(f, map[0 := 1], map[0 := done, 1 := completing], w), Complete(1));
    assert map[0 := done, 1 := completing][1 := flushing] == map[0 := done, 1 := flushing];
    assert map[0 := w][0 := w.(todo := [PACKET])] == map[0 := w.(todo := [PACKET])];
  }

  lemma FlushBreaks(start: Sys<nat>, f: Flow, w: Wire, done: Pc<nat>) returns (end: Sys<nat>)
    requires SysReaches(start,
               Accepted(f, map[0 := 1], map[0 := done, 1 := Flushing(0, TOKEN, [PACKET])], w.(todo := [PACKET])))
    requires w.todo == []
    ensures SysReaches(start, end)
    ensures end == Accepted(f, map[], map[0 := done, 1 := Pc.Answered], w.(aborted := true))
  {
    hide SysReaches, NoDangling, One;
    OneHolds(f);
    var flushing := Flushing(0, TOKEN, [PACKET]);
    var s := Accepted(f, map[0 := 1], map[0 := done, 1 := flushing], w.(todo := [PACKET]));
    SysReachesNext(start, s, Flush(1, false));
    end := FlushStep(s, 1, false);
    assert map[0 := 1] - {0} == map[] && map[0 := done, 1 := flushing][1 := Pc.Answered] == map[0 := done, 1 := Pc.Answered];
    assert s.wires[0 := w.(aborted := true)] == map[0 := w.(aborted := true)];
  }

  lemma KeptIs()
    ensures var f := Cached(First().See(Udp, 0)); f.authID == 1 && !f.Signalled() && f.pending == [PACKET]
  {}
}
