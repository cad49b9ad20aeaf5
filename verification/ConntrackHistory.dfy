// What a flow remembers of its past, over whole runs: how many timeouts it was charged with, why it may be
// asked for again, and which packets decided the state of its connection.
module ConntrackHistory {
  import opened Bytes
  import opened Lists
  import TcpTrack
  import opened Conntrack
  import opened ConntrackInvariant
  import opened ConntrackDispatch
  import opened ConntrackLifetime

  // ---- What operations do to one flow.

  // expireAuth finds the flow overdue.
  ghost predicate Charges<R>(m: Manager<R>, op: Op<R>, r: R) {
    op.DoExpireAuth? && r in m.Tracked() && r in m.flows && m.flows[r].Overdue(op.now)
  }

  // The server asks for a retry of the flow's request.
  ghost predicate Retries<R>(m: Manager<R>, op: Op<R>, r: R) {
    op.DoRetry? && op.authID in m.byID && m.byID[op.authID] == r && r in m.flows && !m.flows[r].Signalled()
  }

  // A request is taken into a batch.
  ghost predicate Asks<R>(m: Manager<R>, op: Op<R>, r: R)
    requires NoDangling(m)
  {
    op.DoBatch? && r in Members(FlowsOf(TakeBatch(m, m.lru, op.limit, op.now).1))
  }

  // A TCP packet of the flow is observed.
  ghost predicate Sees<R>(m: Manager<R>, op: Op<R>, r: R) {
    op.DoObserve? && op.key in m.byKey && m.byKey[op.key] == r && op.what.Tcp?
  }

  // What all operations but these leave alone.
  ghost predicate Undisturbed<R>(flows: map<R, Flow>, flows': map<R, Flow>) {
    forall r :: r in flows ==> r in flows' && Alike(flows[r], flows'[r])
  }

  ghost predicate Alike(f: Flow, f': Flow) {
    f'.timeouts == f.timeouts && f'.track == f.track && (f.started ==> f'.started)
  }

  lemma UndisturbedTransitive<R>(a: map<R, Flow>, b: map<R, Flow>, c: map<R, Flow>)
    requires Undisturbed(a, b) && Undisturbed(b, c)
    ensures Undisturbed(a, c)
  {}

  lemma UndisturbedReflexive<R>(flows: map<R, Flow>)
    ensures Undisturbed(flows, flows)
  {}

  // Any flow may be replaced by one that is alike, and new flows added.
  lemma OneUndisturbed<R>(flows: map<R, Flow>, r: R, f: Flow)
    ensures (r in flows ==> Alike(flows[r], f)) ==> Undisturbed(flows, flows[r := f])
  {}

  lemma {:induction false} RemoveExpiredLeaves<R>(m: Manager<R>, rs: seq<R>, now: int)
    requires NoDangling(m) && Members(rs) <= m.flows.Keys
    ensures Undisturbed(m.flows, RemoveExpired(m, rs, now).flows)
    decreases rs
  {
    hide Undisturbed, Flow.Expired;
    UndisturbedReflexive(m.flows);
    if rs != [] {
      var f := m.flows[rs[0]];
      var m1 := if f.Expired(m.ttl, now) then Remove(m, rs[0], Evicted) else m;
      OneUndisturbed(m.flows, rs[0], f.Kill(Evicted));
      RemoveExpiredLeaves(m1, rs[1..], now);
      UndisturbedTransitive(m.flows, m1.flows, RemoveExpired(m1, rs[1..], now).flows);
    }
  }

  lemma AddFlowLeaves<R>(m: Manager<R>, spare: R, f: Flow)
    requires NoDangling(m) && spare !in m.flows
    ensures Undisturbed(m.flows, AddFlow(m, spare, f).flows)
  {
    hide Undisturbed;
    UndisturbedReflexive(m.flows);
    if m.closed {
      OneUndisturbed(m.flows, spare, f.Signal(Some(ManagerClosed)));
    } else {
      var m1 := MakeRoom(m);
      var victim := if m.lru == [] then spare else m.lru[0];
      OneUndisturbed(m.flows, victim, if victim in m.flows then m.flows[victim].Kill(Evicted) else f);
      OneUndisturbed(m1.flows, spare, f);
      UndisturbedTransitive(m.flows, m1.flows, m1.flows[spare := f]);
    }
  }

  lemma GetOrCreateLeaves<R>(m: Manager<R>, spare: R, key: Key, appID: string, nodeGroupID: string, now: int)
    requires NoDangling(m) && spare !in m.flows
    ensures Undisturbed(m.flows, GetOrCreate(m, spare, key, appID, nodeGroupID, now).0.flows)
  {
    hide Undisturbed, RemoveExpired, AddFlow;
    var m1 := RemoveExpired(m, m.lru, now);
    RemoveExpiredLeaves(m, m.lru, now);
    if key in m1.byKey {
      var r := m1.byKey[key];
      OneUndisturbed(m1.flows, r, m1.flows[r].(lastSeen := now));
    } else {
      AddFlowLeaves(m1, spare, NewFlow(key, m1.nextAuthID + 1, appID, nodeGroupID, now));
    }
    UndisturbedTransitive(m.flows, m1.flows, GetOrCreate(m, spare, key, appID, nodeGroupID, now).0.flows);
  }

  lemma BatchLeaves<R>(m: Manager<R>, limit: nat, now: int)
    requires Distinct(m.lru) && NoDangling(m)
    ensures Undisturbed(m.flows, TakeBatch(m, m.lru, limit, now).0.flows)
  {
    hide TakeBatch, Waiting, Distinct;
    BatchStarts(m, m.lru, limit, now);
    var taken := Take(Waiting(m.flows, m.lru, now), limit);
    forall r | r in m.flows ensures Alike(m.flows[r], Started(m.flows, taken)[r]) { StartedAt(m.flows, taken, r); }
  }

  lemma ByIdLeaves<R>(m: Manager<R>, id: nat, token: Token, err: Option<AuthError>, deadline: int)
    requires NoDangling(m)
    ensures Undisturbed(m.flows, CompleteAuth(m, id, token, err).0.flows)
    ensures Undisturbed(m.flows, MarkAuthSent(m, id, deadline).flows)
  {
    hide Undisturbed;
    UndisturbedReflexive(m.flows);
    if id in m.byID {
      var f := m.flows[m.byID[id]];
      OneUndisturbed(m.flows, m.byID[id], f.(pending := [], token := if token != [] then token else f.token).Signal(err));
      OneUndisturbed(m.flows, m.byID[id], f.(deadline := Some(deadline)));
    }
  }

  lemma RestLeaves<R>(m: Manager<R>, op: Op<R>)
    requires NoDangling(m) && OpOk(m, op) && (op.DoCache? || op.DoRemove? || op.DoClose?)
    ensures Undisturbed(m.flows, Step(m, op).flows)
  {}

  // Everything that is neither a sighting nor a charge nor a retry.
  lemma OthersLeave<R>(m: Manager<R>, op: Op<R>)
    requires NoDangling(m) && Distinct(m.lru) && OpOk(m, op)
    requires !op.DoObserve? && !op.DoExpireAuth? && !op.DoRetry?
    ensures Undisturbed(m.flows, Step(m, op).flows)
  {
    hide NoDangling, Undisturbed, GetOrCreate, RemoveExpired, CompleteAuth, MarkAuthSent, TakeBatch, Close, CachePacket, RemoveKey;
    match op
    case DoGetOrCreate(spare, key, appID, group, now) => GetOrCreateLeaves(m, spare, key, appID, group, now);
    case DoComplete(id, token, err) => ByIdLeaves(m, id, token, err, 0);
    case DoBatch(limit, now) => BatchLeaves(m, limit, now);
    case DoMarkSent(id, deadline) => ByIdLeaves(m, id, [], None, deadline);
    case DoRemoveExpired(now) => assert Members(m.lru) <= m.flows.Keys by { NoneDangles(m); } RemoveExpiredLeaves(m, m.lru, now);
    case _ => RestLeaves(m, op);
  }

  lemma NoneDangles<R>(m: Manager<R>)
    requires NoDangling(m)
    ensures Members(m.lru) <= m.flows.Keys
  {}

  // What one operation makes of a flow's memory: a charge is counted, a TCP packet moves the connection's
  // state, and a request under way stays under way unless a charge or a retry takes it back.
  ghost predicate Remembers<R>(m: Manager<R>, op: Op<R>, r: R, f': Flow)
    requires r in m.flows
  {
    var f := m.flows[r];
    && f'.timeouts == f.timeouts + (if Charges(m, op, r) then 1 else 0)
    && f'.track == (if Sees(m, op, r) then TcpTrack.Observe(f.track, op.what.segment) else f.track)
    && (f.started && !Charges(m, op, r) && !Retries(m, op, r) ==> f'.started)
  }

  lemma StepRemembers<R>(m: Manager<R>, op: Op<R>, r: R)
    requires NoDangling(m) && Distinct(m.lru) && OpOk(m, op) && r in m.flows
    ensures r in Step(m, op).flows && Remembers(m, op, r, Step(m, op).flows[r])
  {
    hide NoDangling, Distinct, Remembers, Step;
    match op
    case DoObserve(key, what, now) => SightingRemembers(m, op, r);
    case DoExpireAuth(now, err) => ExpiryRemembers(m, op, r);
    case DoRetry(id, delay, now) => RetryRemembers(m, op, r);
    case _ =>
      OthersLeave(m, op);
      AlikeRemembers(m, op, r, Step(m, op).flows[r]);
  }

  // Nothing but expireAuth charges a flow: not the server's retry requests, nor any other operation.
  lemma BudgetOnlySpentByExpiry<R>(m: Manager<R>, op: Op<R>, r: R)
    requires NoDangling(m) && Distinct(m.lru) && OpOk(m, op) && r in m.flows && !op.DoExpireAuth?
    ensures r in Step(m, op).flows && Step(m, op).flows[r].timeouts == m.flows[r].timeouts
  {
    hide NoDangling, Distinct, Step;
    StepRemembers(m, op, r);
  }

  lemma SightingRemembers<R>(m: Manager<R>, op: Op<R>, r: R)
    requires NoDangling(m) && OpOk(m, op) && op.DoObserve? && r in m.flows
    ensures r in Step(m, op).flows && Remembers(m, op, r, Step(m, op).flows[r])
  {
    hide TcpTrack.Observe;
  }

  lemma ExpiryRemembers<R>(m: Manager<R>, op: Op<R>, r: R)
    requires NoDangling(m) && Distinct(m.lru) && op.DoExpireAuth? && r in m.flows
    ensures r in Step(m, op).flows && Remembers(m, op, r, Step(m, op).flows[r])
  {
    hide Distinct, ExpireAuth, Flow.Overdue;
    ExpiryCharges(m, m.lru, op.now, op.err, r);
    ExpiryKeepsTrack(m, m.lru, op.now, op.err, r);
  }

  lemma RetryRemembers<R>(m: Manager<R>, op: Op<R>, r: R)
    requires NoDangling(m) && OpOk(m, op) && op.DoRetry? && r in m.flows
    ensures r in Step(m, op).flows && Remembers(m, op, r, Step(m, op).flows[r])
  {}

  lemma AlikeRemembers<R>(m: Manager<R>, op: Op<R>, r: R, f': Flow)
    requires r in m.flows && Alike(m.flows[r], f') && !op.DoObserve? && !op.DoExpireAuth?
    ensures Remembers(m, op, r, f')
  {}

  lemma {:induction false} ExpiryKeepsTrack<R>(m: Manager<R>, rs: seq<R>, now: int, err: AuthError, r: R)
    requires Members(rs) <= m.flows.Keys && r in m.flows
    ensures ExpireAuth(m, rs, now, err).0.flows[r].track == m.flows[r].track
    decreases rs
  {
    if rs != [] {
      assert Charge(m, rs[0], now, err).0.flows[r].track == m.flows[r].track;
      hide Charge;
      ExpiryKeepsTrack(Charge(m, rs[0], now, err).0, rs[1..], now, err, r);
    }
  }

  // A flow that was not there before has nothing to remember.
  lemma NewFlowsAreBlank<R>(m: Manager<R>, op: Op<R>, r: R)
    requires NoDangling(m) && Distinct(m.lru) && OpOk(m, op) && r !in m.flows && r in Step(m, op).flows
    ensures var f := Step(m, op).flows[r]; f.timeouts == 0 && f.track == TcpTrack.Initial
  {
    hide NoDangling, Distinct, Step;
    if op.DoGetOrCreate? { OneCreated(m, op); } else { NoneCreated(m, op); }
  }

  lemma OneCreated<R>(m: Manager<R>, op: Op<R>)
    requires NoDangling(m) && op.DoGetOrCreate? && op.spare !in m.flows
    ensures var flows := Step(m, op).flows;
      && m.flows.Keys <= flows.Keys <= m.flows.Keys + {op.spare}
      && (op.spare in flows ==> flows[op.spare].timeouts == 0 && flows[op.spare].track == TcpTrack.Initial)
  {
    hide RemoveExpired, AddFlow;
    var m1 := RemoveExpired(m, m.lru, op.now);
    if op.key !in m1.byKey {
      AddedFlow(m1, op.spare, NewFlow(op.key, m1.nextAuthID + 1, op.appID, op.nodeGroupID, op.now));
    }
  }

  lemma NoneCreated<R>(m: Manager<R>, op: Op<R>)
    requires NoDangling(m) && Distinct(m.lru) && OpOk(m, op) && !op.DoGetOrCreate?
    ensures Step(m, op).flows.Keys == m.flows.Keys
  {
    hide TakeBatch, Distinct, Members, Waiting;
    if op.DoBatch? { BatchStarts(m, m.lru, op.limit, op.now); }
  }

  lemma AddedFlow<R>(m: Manager<R>, spare: R, f: Flow)
    requires NoDangling(m)
    ensures var flows := AddFlow(m, spare, f).flows;
      flows.Keys == m.flows.Keys + {spare} && flows[spare].timeouts == f.timeouts && flows[spare].track == f.track
  {}

  // ---- Over whole runs.

  ghost predicate RunShape<R>(states: seq<Manager<R>>, ops: seq<Op<R>>, j: nat) {
    |states| == |ops| + 1 && j <= |ops|
  }

  // How often expireAuth charged the flow in the first `j` operations.
  ghost function ChargeCount<R>(states: seq<Manager<R>>, ops: seq<Op<R>>, j: nat, r: R): nat
    requires RunShape(states, ops, j)
  {
    if j == 0 then 0
    else ChargeCount(states, ops, j - 1, r) + if Charges(states[j - 1], ops[j - 1], r) then 1 else 0
  }

  // The TCP packets of the flow that were observed in the first `j` operations.
  ghost function Segments<R>(states: seq<Manager<R>>, ops: seq<Op<R>>, j: nat, r: R): seq<TcpTrack.Segment>
    requires RunShape(states, ops, j)
  {
    if j == 0 then []
    else Segments(states, ops, j - 1, r) + if Sees(states[j - 1], ops[j - 1], r) then [ops[j - 1].what.segment] else []
  }

  // In every run a flow's timeout count is the number of times it was found overdue, and the state of its
  // connection is what the tracker makes of exactly the packets observed for it, in their order.
  lemma {:induction false} MemoryIsHistory<R>(states: seq<Manager<R>>, ops: seq<Op<R>>, ttl: int, maxEntries: nat,
          j: nat, r: R)
    requires IsRun(states, ops) && maxEntries >= 1 && states[0] == NewManager(ttl, maxEntries) && j <= |ops|
    ensures r in states[j].flows ==>
              && states[j].flows[r].timeouts == ChargeCount(states, ops, j, r)
              && states[j].flows[r].track == TcpTrack.Run(Segments(states, ops, j, r))
    ensures r !in states[j].flows ==> ChargeCount(states, ops, j, r) == 0 && Segments(states, ops, j, r) == []
    decreases j
  {
    hide Inv, Distinct, Step, Evolves, TcpTrack.Run, TcpTrack.Observe, Charges;
    NewManagerOk<R>(ttl, maxEntries);
    RunNothing();
    if j > 0 {
      MemoryIsHistory(states, ops, ttl, maxEntries, j - 1, r);
      RunKeeps(states, ops, 0, j - 1);
      KeysKnown(states[j - 1]);
      OneMoreOp(states, ops, j, r);
    }
  }

  lemma RunNothing()
    ensures TcpTrack.Run([]) == TcpTrack.Initial
  {}

  lemma OneMoreOp<R>(states: seq<Manager<R>>, ops: seq<Op<R>>, j: nat, r: R)
    requires IsRun(states, ops) && 0 < j <= |ops| && Distinct(states[j - 1].lru)
    ensures var m, m', op := states[j - 1], states[j], ops[j - 1];
      if r in m.flows then r in m'.flows && Remembers(m, op, r, m'.flows[r])
      else !Charges(m, op, r) && !Sees(m, op, r)
           && (r in m'.flows ==> m'.flows[r].timeouts == 0 && m'.flows[r].track == TcpTrack.Initial)
    ensures var was := Segments(states, ops, j - 1, r);
      TcpTrack.Run(Segments(states, ops, j, r)) ==
        if Sees(states[j - 1], ops[j - 1], r) then TcpTrack.Observe(TcpTrack.Run(was), ops[j - 1].what.segment)
        else TcpTrack.Run(was)
  {
    hide Distinct, Step, Remembers, TcpTrack.Observe, TcpTrack.Run;
    var m, op := states[j - 1], ops[j - 1];
    assert states[j] == Step(m, op) && NoDangling(m) && OpOk(m, op);
    var was := Segments(states, ops, j - 1, r);
    assert was + [] == was;
    if Sees(m, op, r) { TcpTrack.RunAppend(was, op.what.segment); }
    if r in m.flows {
      StepRemembers(m, op, r);
    } else if r in states[j].flows {
      NewFlowsAreBlank(m, op, r);
    }
  }

  // In every run a flow has the key, the application and the node group that it was made for, by the one
  // call of getOrCreate that made it.
  lemma {:induction false} FlowsKeepTheirMaker<R>(states: seq<Manager<R>>, ops: seq<Op<R>>, ttl: int, maxEntries: nat,
          j: nat, r: R)
    requires IsRun(states, ops) && maxEntries >= 1 && states[0] == NewManager(ttl, maxEntries) && j <= |ops|
    requires r in states[j].flows
    ensures exists k :: 0 <= k < j && MadeBy(ops[k], r, states[j].flows[r]) && r !in states[k].flows
    decreases j
  {
    hide Inv, Step, Evolves, MadeBy;
    NewManagerOk<R>(ttl, maxEntries);
    if j > 0 {
      RunKeeps(states, ops, 0, j - 1);
      assert Follows(states[j - 1], ops[j - 1], states[j]);
      StepKeeps(states[j - 1], ops[j - 1]);
      if r in states[j - 1].flows {
        FlowsKeepTheirMaker(states, ops, ttl, maxEntries, j - 1, r);
        var k :| 0 <= k < j - 1 && MadeBy(ops[k], r, states[j - 1].flows[r]) && r !in states[k].flows;
        MakerStays(states[j - 1], states[j], ops[k], r);
      } else {
        MakerIs(states[j - 1], ops[j - 1], r);
      }
    }
  }

  ghost predicate MadeBy<R>(op: Op<R>, r: R, f: Flow) {
    op.DoGetOrCreate? && op.spare == r && f.key == op.key && f.appID == op.appID && f.nodeGroupID == op.nodeGroupID
  }

  lemma MakerStays<R>(m: Manager<R>, m': Manager<R>, op: Op<R>, r: R)
    requires Evolves(m, m') && r in m.flows && MadeBy(op, r, m.flows[r])
    ensures r in m'.flows && MadeBy(op, r, m'.flows[r])
  {}

  lemma MakerIs<R>(m: Manager<R>, op: Op<R>, r: R)
    requires Inv(m) && OpOk(m, op) && r !in m.flows && r in Step(m, op).flows
    ensures MadeBy(op, r, Step(m, op).flows[r])
  {
    hide Inv, GetOrCreate;
    KeysKnown(m);
    if op.DoGetOrCreate? {
      HandedOut(m, op.spare, op.key, op.appID, op.nodeGroupID, op.now);
      GetOrCreateAdds(m, op.spare, op.key, op.appID, op.nodeGroupID, op.now, r);
    } else {
      hide Step;
      NoneCreated(m, op);
    }
  }

  lemma GetOrCreateAdds<R>(m: Manager<R>, spare: R, key: Key, appID: string, nodeGroupID: string, now: int, r: R)
    requires NoDangling(m) && r !in m.flows && r in GetOrCreate(m, spare, key, appID, nodeGroupID, now).0.flows
    ensures r == spare && GetOrCreate(m, spare, key, appID, nodeGroupID, now).1 == r
  {
    hide RemoveExpired, AddFlow;
    var m1 := RemoveExpired(m, m.lru, now);
    if key !in m1.byKey { AddedFlow(m1, spare, NewFlow(key, m1.nextAuthID + 1, appID, nodeGroupID, now)); }
  }

  // Whatever is asked for was waiting, and has a request under way from then on.
  lemma AskedWaited<R>(m: Manager<R>, op: Op<R>, r: R)
    requires NoDangling(m) && Distinct(m.lru) && Asks(m, op, r)
    ensures r in m.flows && m.flows[r].Eligible(op.now) && r in Step(m, op).flows && Step(m, op).flows[r].started
  {
    hide Distinct, TakeBatch, Waiting;
    BatchTakes(m, m.lru, op.limit, op.now);
    BatchStarts(m, m.lru, op.limit, op.now);
    var w := Waiting(m.flows, m.lru, op.now);
    TakeMembers(w, op.limit);
    WaitingIsEligible(m.flows, m.lru, op.now, r);
    StartedAt(m.flows, Take(w, op.limit), r);
  }

  lemma {:induction false} WaitingIsEligible<R>(flows: map<R, Flow>, rs: seq<R>, now: int, r: R)
    requires Members(rs) <= flows.Keys && r in Members(Waiting(flows, rs, now))
    ensures r in flows && flows[r].Eligible(now)
  {
    if r != rs[0] || !flows[rs[0]].Eligible(now) { WaitingIsEligible(flows, rs[1..], now, r); }
  }

  // In every run, between two requests for the same flow it was charged with a timeout, or the server asked
  // for a retry.
  lemma AskedAgainForAReason<R>(states: seq<Manager<R>>, ops: seq<Op<R>>, ttl: int, maxEntries: nat, i: nat,
          j: nat, r: R)
    requires IsRun(states, ops) && maxEntries >= 1 && states[0] == NewManager(ttl, maxEntries) && i < j < |ops|
    requires NoDangling(states[i]) && Asks(states[i], ops[i], r) && NoDangling(states[j]) && Asks(states[j], ops[j], r)
    ensures exists k :: i < k < j && (Charges(states[k], ops[k], r) || Retries(states[k], ops[k], r))
  {
    hide Inv, NoDangling, Distinct, Step, Evolves, Asks, Charges, Retries;
    NewManagerOk<R>(ttl, maxEntries);
    RunKeeps(states, ops, 0, i);
    RunKeeps(states, ops, 0, j);
    KeysKnown(states[i]);
    KeysKnown(states[j]);
    AskedWaited(states[i], ops[i], r);
    AskedWaited(states[j], ops[j], r);
    if forall k :: i < k < j ==> !Charges(states[k], ops[k], r) && !Retries(states[k], ops[k], r) {
      StaysUnderWay(states, ops, i + 1, j, r);
      assert false;
    }
  }

  lemma {:induction false} StaysUnderWay<R>(states: seq<Manager<R>>, ops: seq<Op<R>>, i: nat, j: nat, r: R)
    requires IsRun(states, ops) && Inv(states[0]) && i <= j < |states|
    requires r in states[i].flows && states[i].flows[r].started
    requires forall k :: i <= k < j ==> !Charges(states[k], ops[k], r) && !Retries(states[k], ops[k], r)
    ensures r in states[j].flows && states[j].flows[r].started
    decreases j
  {
    hide Inv, Distinct, Step, Evolves, Charges, Retries;
    if i < j {
      StaysUnderWay(states, ops, i, j - 1, r);
      RunKeeps(states, ops, 0, j - 1);
      KeysKnown(states[j - 1]);
      assert states[j] == Step(states[j - 1], ops[j - 1]) && NoDangling(states[j - 1]) && OpOk(states[j - 1], ops[j - 1]);
      StepRemembers(states[j - 1], ops[j - 1], r);
    }
  }
}
