// While the clock does not run backwards the recency list is sorted by last use, so making room
// always costs a flow that nobody used more recently than any other.
module ConntrackRecency {
  import opened Bytes
  import opened Lists
  import opened Conntrack
  import opened ConntrackInvariant

  ghost function LastSeen<R>(flows: map<R, Flow>): map<R, int> {
    map r | r in flows :: flows[r].lastSeen
  }

  ghost predicate Sorted<R>(s: seq<R>, flows: map<R, Flow>)
    requires Members(s) <= flows.Keys
  {
    SortedBy(s, LastSeen(flows))
  }

  ghost predicate NotAfter<R>(tracked: set<R>, flows: map<R, Flow>, clock: int)
    requires tracked <= flows.Keys
  {
    forall r :: r in tracked ==> flows[r].lastSeen <= clock
  }

  ghost predicate Recency<R>(m: Manager<R>, clock: int) {
    m.Tracked() <= m.flows.Keys && Sorted(m.lru, m.flows) && NotAfter(m.Tracked(), m.flows, clock)
  }

  lemma SortedFrame<R>(s: seq<R>, flows: map<R, Flow>, flows': map<R, Flow>)
    requires Members(s) <= flows.Keys && Members(s) <= flows'.Keys && Sorted(s, flows)
    requires forall r :: r in Members(s) ==> flows'[r].lastSeen == flows[r].lastSeen
    ensures Sorted(s, flows')
  {
    SortedByFrame(s, LastSeen(flows), LastSeen(flows'));
  }

  lemma SortedWithout<R>(s: seq<R>, r: R, flows: map<R, Flow>)
    requires Members(s) <= flows.Keys && Sorted(s, flows)
    ensures Members(Without(s, r)) <= flows.Keys && Sorted(Without(s, r), flows)
  {
    SortedByWithout(s, r, LastSeen(flows));
  }

  lemma SortedAppend<R>(s: seq<R>, r: R, flows: map<R, Flow>)
    requires Members(s) <= flows.Keys && r in flows && Sorted(s, flows)
    requires NotAfter(Members(s), flows, flows[r].lastSeen)
    ensures Members(s + [r]) <= flows.Keys && Sorted(s + [r], flows)
  {
    SortedByAppend(s, r, LastSeen(flows));
  }

  // Changing a flow but not when it was last seen, or dropping flows from the list.
  lemma RequestRecency<R>(m: Manager<R>, r: R, f: Flow, clock: int)
    requires Recency(m, clock) && r in m.flows && f.lastSeen == m.flows[r].lastSeen
    ensures Recency(m.(flows := m.flows[r := f]), clock)
  {
    SortedFrame(m.lru, m.flows, m.flows[r := f]);
  }

  lemma RemoveRecency<R>(m: Manager<R>, r: R, err: AuthError, clock: int)
    requires Recency(m, clock) && r in m.flows
    ensures Recency(Remove(m, r, err), clock)
  {
    var m' := Remove(m, r, err);
    SortedWithout(m.lru, r, m.flows);
    SortedFrame(m'.lru, m.flows, m'.flows);
  }

  lemma {:induction false} RemoveExpiredRecency<R>(m: Manager<R>, rs: seq<R>, now: int, clock: int)
    requires NoDangling(m) && Recency(m, clock) && Members(rs) <= m.flows.Keys
    ensures Recency(RemoveExpired(m, rs, now), clock)
    decreases rs
  {
    hide Recency, Flow.Expired, Flow.Kill;
    if rs != [] {
      if m.flows[rs[0]].Expired(m.ttl, now) {
        RemoveRecency(m, rs[0], Evicted, clock);
        RemoveExpiredRecency(Remove(m, rs[0], Evicted), rs[1..], now, clock);
      } else {
        RemoveExpiredRecency(m, rs[1..], now, clock);
      }
    }
  }

  // Seeing a flow at a time no earlier than the clock puts it last, where it belongs.
  lemma TouchRecency<R>(m: Manager<R>, r: R, f: Flow, clock: int)
    requires Recency(m, clock) && Distinct(m.lru) && r in m.Tracked() && clock <= f.lastSeen
    ensures var m' := m.(flows := m.flows[r := f], lru := MoveToBack(m.lru, r));
      Recency(m', f.lastSeen)
  {
    var flows := m.flows[r := f];
    MoveToBackMembers(m.lru, r);
    WithoutMembers(m.lru, r);
    SortedWithout(m.lru, r, m.flows);
    SortedFrame(Without(m.lru, r), m.flows, flows);
    SortedAppend(Without(m.lru, r), r, flows);
  }

  lemma AddFlowRecency<R>(m: Manager<R>, spare: R, f: Flow, clock: int)
    requires NoDangling(m) && Recency(m, clock) && spare !in m.flows && clock <= f.lastSeen
    ensures var m' := AddFlow(m, spare, f); Recency(m', f.lastSeen)
  {
    assert spare !in MakeRoom(m).flows;
    hide MakeRoom, Sorted;
    if m.closed {
      SortedFrame(m.lru, m.flows, AddFlow(m, spare, f).flows);
    } else {
      MakeRoomRecency(m, clock);
      AppendRecency(MakeRoom(m), AddFlow(m, spare, f), spare, f, clock);
    }
  }

  // A flow seen no earlier than the clock goes to the end of the list.
  lemma AppendRecency<R>(m: Manager<R>, m': Manager<R>, spare: R, f: Flow, clock: int)
    requires Recency(m, clock) && spare !in m.flows && clock <= f.lastSeen
    requires m'.lru == m.lru + [spare] && m'.flows == m.flows[spare := f]
    ensures Recency(m', f.lastSeen)
  {
    hide Sorted;
    AppendMembers(m.lru, spare);
    SortedFrame(m.lru, m.flows, m'.flows);
    SortedAppend(m.lru, spare, m'.flows);
  }

  lemma MakeRoomRecency<R>(m: Manager<R>, clock: int)
    requires NoDangling(m) && Recency(m, clock)
    ensures Recency(MakeRoom(m), clock)
  {
    hide Recency, Remove;
    if |m.byKey| >= m.maxEntries && m.lru != [] { RemoveRecency(m, m.lru[0], Evicted, clock); }
  }

  lemma {:induction false} BatchRecency<R>(m: Manager<R>, rs: seq<R>, room: nat, now: int, clock: int)
    requires Recency(m, clock) && Members(rs) <= m.flows.Keys
    ensures var m' := TakeBatch(m, rs, room, now).0; Recency(m', clock)
    decreases rs
  {
    hide Recency, Flow.Eligible;
    if rs != [] {
      var r := rs[0];
      if !m.flows[r].Eligible(now) {
        BatchRecency(m, rs[1..], room, now, clock);
      } else if room > 0 {
        var f := m.flows[r].(started := true);
        RequestRecency(m, r, f, clock);
        BatchRecency(m.(flows := m.flows[r := f]), rs[1..], room - 1, now, clock);
      }
    }
  }

  lemma ChargeRecency<R>(m: Manager<R>, r: R, now: int, err: AuthError, clock: int)
    requires Recency(m, clock) && r in m.flows
    ensures Recency(Charge(m, r, now, err).0, clock)
  {
    hide Recency, Remove, Flow.Overdue;
    if m.flows[r].Overdue(now) {
      var f := m.flows[r].SpendTimeout(now);
      RequestRecency(m, r, f, clock);
      RemoveRecency(m.(flows := m.flows[r := f]), r, err, clock);
    }
  }

  lemma {:induction false} ExpireAuthRecency<R>(m: Manager<R>, rs: seq<R>, now: int, err: AuthError, clock: int)
    requires Recency(m, clock) && Members(rs) <= m.flows.Keys
    ensures Recency(ExpireAuth(m, rs, now, err).0, clock)
    decreases rs
  {
    hide Recency, Charge;
    if rs != [] {
      ChargeRecency(m, rs[0], now, err, clock);
      ExpireAuthRecency(Charge(m, rs[0], now, err).0, rs[1..], now, err, clock);
    }
  }

  // The time at which an operation looks at packets, if it does.
  function SeesAt<R>(op: Op<R>): Option<int> {
    match op
    case DoGetOrCreate(_, _, _, _, now) => Some(now)
    case DoObserve(_, _, now) => Some(now)
    case _ => None
  }

  function ClockAfter<R>(clock: int, op: Op<R>): int {
    if SeesAt(op).Some? then SeesAt(op).value else clock
  }

  lemma RecencyLater<R>(m: Manager<R>, clock: int, later: int)
    requires Recency(m, clock) && clock <= later
    ensures Recency(m, later)
  {
    hide Sorted;
  }

  lemma GetOrCreateRecency<R>(m: Manager<R>, spare: R, key: Key, appID: string, nodeGroupID: string, now: int,
          clock: int)
    requires Inv(m) && spare !in m.flows && Recency(m, clock) && clock <= now
    ensures NoDangling(m) && Recency(GetOrCreate(m, spare, key, appID, nodeGroupID, now).0, now)
  {
    hide Inv, Recency, AddFlow, RemoveExpired, Distinct;
    KeysKnown(m);
    var m1 := RemoveExpired(m, m.lru, now);
    RemoveExpiredKeeps(m, m.lru, now);
    RemoveExpiredRecency(m, m.lru, now, clock);
    KeysKnown(m1);
    if key in m1.byKey {
      KeyLeadsToTracked(m1, key);
      TouchRecency(m1, m1.byKey[key], m1.flows[m1.byKey[key]].(lastSeen := now), clock);
    } else {
      AddFlowRecency(m1, spare, NewFlow(key, m1.nextAuthID + 1, appID, nodeGroupID, now), clock);
    }
  }

  lemma ObserveRecency<R>(m: Manager<R>, key: Key, what: Sighting, now: int, clock: int)
    requires Inv(m) && Recency(m, clock) && clock <= now
    ensures NoDangling(m) && Recency(ObservePacket(m, key, what, now), now)
  {
    hide Inv, Recency, Distinct;
    KeysKnown(m);
    if key in m.byKey {
      KeyLeadsToTracked(m, key);
      TouchRecency(m, m.byKey[key], m.flows[m.byKey[key]].See(what, now), clock);
    } else {
      RecencyLater(m, clock, now);
    }
  }

  // The operations that leave alone when a flow was last seen.
  lemma QuietRecency<R>(m: Manager<R>, op: Op<R>, clock: int)
    requires NoDangling(m) && OpOk(m, op) && Recency(m, clock)
    requires op.DoCache? || op.DoMarkSent? || op.DoRetry? || op.DoRemove?
    ensures Recency(Step(m, op), clock)
  {
    hide Recency, Remove;
    match op
    case DoCache(r, meta, packet) =>
      RequestRecency(m, r, m.flows[r].(meta := meta, pending := m.flows[r].pending + [packet]), clock);
    case DoMarkSent(id, deadline) =>
      if id in m.byID { RequestRecency(m, m.byID[id], m.flows[m.byID[id]].(deadline := Some(deadline)), clock); }
    case DoRetry(id, delay, now) =>
      if id in m.byID {
        RequestRecency(m, m.byID[id],
          m.flows[m.byID[id]].(started := false, deadline := None, retryAt := Some(now + delay)), clock);
      }
    case DoRemove(key) =>
      if key in m.byKey { RemoveRecency(m, m.byKey[key], Evicted, clock); }
  }

  lemma StepRecency<R>(m: Manager<R>, op: Op<R>, clock: int)
    requires Inv(m) && OpOk(m, op) && Recency(m, clock) && clock <= ClockAfter(clock, op)
    ensures Recency(Step(m, op), ClockAfter(clock, op))
  {
    hide Inv, Recency, Distinct, Close, GetOrCreate, ObservePacket, CompleteAuth, RemoveExpired, TakeBatch, ExpireAuth;
    KeysKnown(m);
    match op
    case DoGetOrCreate(spare, key, appID, group, now) => GetOrCreateRecency(m, spare, key, appID, group, now, clock);
    case DoObserve(key, what, now) => ObserveRecency(m, key, what, now, clock);
    case DoComplete(authID, token, err) => CompleteRecency(m, authID, token, err, clock);
    case DoBatch(limit, now) => BatchRecency(m, m.lru, limit, now, clock);
    case DoExpireAuth(now, err) => ExpireAuthRecency(m, m.lru, now, err, clock);
    case DoRemoveExpired(now) => RemoveExpiredRecency(m, m.lru, now, clock);
    case DoClose => CloseRecency(m, clock);
    case _ =>
      hide Step;
      QuietRecency(m, op, clock);
  }

  lemma CloseRecency<R>(m: Manager<R>, clock: int)
    ensures Recency(Close(m), clock)
  {}

  lemma CompleteRecency<R>(m: Manager<R>, authID: nat, token: Token, err: Option<AuthError>, clock: int)
    requires NoDangling(m) && Recency(m, clock)
    ensures var m' := CompleteAuth(m, authID, token, err).0; Recency(m', clock)
  {
    if authID in m.byID && !m.flows[m.byID[authID]].Signalled() {
      var r := m.byID[authID];
      var f := m.flows[r];
      var f' := f.(pending := [], token := if token != [] then token else f.token).Signal(err);
      RequestRecency(m, r, f', clock);
      SortedWithout(m.lru, r, m.flows[r := f']);
    }
  }

  // The clock readings of a run never go backwards.
  ghost predicate ClockMonotone<R>(ops: seq<Op<R>>, clocks: seq<int>) {
    && |clocks| == |ops| + 1
    && forall i {:trigger ops[i]} :: 0 <= i < |ops| ==>
         clocks[i] <= clocks[i + 1] && clocks[i + 1] == ClockAfter(clocks[i], ops[i])
  }

  lemma {:induction false} RunRecency<R>(states: seq<Manager<R>>, ops: seq<Op<R>>, clocks: seq<int>, i: nat)
    requires IsRun(states, ops) && ClockMonotone(ops, clocks) && Inv(states[0]) && Recency(states[0], clocks[0])
    requires i < |states|
    ensures Inv(states[i]) && Recency(states[i], clocks[i])
  {
    hide Inv, Recency, Step;
    if i > 0 {
      RunRecency(states, ops, clocks, i - 1);
      StepKeeps(states[i - 1], ops[i - 1]);
      StepRecency(states[i - 1], ops[i - 1], clocks[i - 1]);
    }
  }

  // Adding a flow costs at most the head of the list, and only when the table is full.
  lemma AddFlowVictim<R>(m: Manager<R>, spare: R, f: Flow, clock: int, victim: R)
    requires Inv(m) && Recency(m, clock) && spare !in m.flows
    requires victim in m.Tracked() && victim !in AddFlow(m, spare, f).Tracked()
    ensures var m' := AddFlow(m, spare, f);
      && |m.lru| == m.maxEntries && m'.Tracked() == m.Tracked() - {victim} + {spare}
      && (forall r :: r in m.Tracked() ==> m.flows[victim].lastSeen <= m.flows[r].lastSeen)
      && victim in m'.flows && (!m.flows[victim].Signalled() ==> m'.flows[victim].authErr == Some(Evicted))
  {
    hide KeysAgree, IdsAgree, IdsUnique, FlowsOk;
    KeysKnown(m);
    if m.closed {
      assert false;
    } else {
      AppendMembers(MakeRoom(m).lru, spare);
      if |m.byKey| >= m.maxEntries { WithoutMembers(m.lru, m.lru[0]); }
    }
  }

  // When getOrCreate evicts for capacity, the table was full, one flow goes, and it is a least recently seen one.
  lemma CapacityEvictsLeastRecent<R>(m: Manager<R>, spare: R, key: Key, appID: string, nodeGroupID: string, now: int,
                                     clock: int, victim: R)
    requires Inv(m) && Recency(m, clock) && spare !in m.flows
    requires victim in RemoveExpired(m, m.lru, now).Tracked()
    requires victim !in GetOrCreate(m, spare, key, appID, nodeGroupID, now).0.Tracked()
    ensures var m1 := RemoveExpired(m, m.lru, now);
      var m' := GetOrCreate(m, spare, key, appID, nodeGroupID, now).0;
      && m1.Tracked() <= m1.flows.Keys && victim in m'.flows
      && |m1.lru| == m1.maxEntries && key !in m1.byKey
      && m'.Tracked() == m1.Tracked() - {victim} + {spare}
      && (forall r :: r in m1.Tracked() ==> m1.flows[victim].lastSeen <= m1.flows[r].lastSeen)
      && (!m1.flows[victim].Signalled() ==> m'.flows[victim].authErr == Some(Evicted))
  {
    hide KeysAgree, IdsAgree, IdsUnique, FlowsOk, RemoveExpired, AddFlow;
    var m1 := RemoveExpired(m, m.lru, now);
    RemoveExpiredKeeps(m, m.lru, now);
    RemoveExpiredRecency(m, m.lru, now, clock);
    KeysKnown(m1);
    if key in m1.byKey {
      KeyLeadsToTracked(m1, key);
      MoveToBackMembers(m1.lru, m1.byKey[key]);
      assert false;
    } else {
      AddFlowVictim(m1, spare, NewFlow(key, m1.nextAuthID + 1, appID, nodeGroupID, now), clock, victim);
    }
  }
}
