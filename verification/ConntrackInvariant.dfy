// Every operation of the flow tracker keeps the invariant and only moves flows forward; so does every run.
module ConntrackInvariant {
  import opened Bytes
  import opened Lists
  import opened Conntrack

  lemma KeysAgreeUpdate<R>(byKey: map<Key, R>, tracked: set<R>, flows: map<R, Flow>, r: R, f: Flow)
    requires r in flows && KeysAgree(byKey, tracked, flows) && f.key == flows[r].key
    ensures KeysAgree(byKey, tracked, flows[r := f])
  {}

  lemma IdsAgreeUpdate<R>(byID: map<nat, R>, tracked: set<R>, flows: map<R, Flow>, r: R, f: Flow)
    requires r in flows && IdsAgree(byID, tracked, flows) && f.authID == flows[r].authID
    ensures IdsAgree(byID, tracked, flows[r := f])
  {}

  lemma IdsUniqueUpdate<R>(flows: map<R, Flow>, n: nat, r: R, f: Flow)
    requires r in flows && IdsUnique(flows, n) && f.authID == flows[r].authID
    ensures IdsUnique(flows[r := f], n)
  {}

  lemma KeysAgreeWithout<R>(byKey: map<Key, R>, tracked: set<R>, flows: map<R, Flow>, r: R)
    requires r in tracked && KeysAgree(byKey, tracked, flows)
    ensures KeysAgree(byKey - {flows[r].key}, tracked - {r}, flows)
  {
    assert (byKey - {flows[r].key}).Keys == byKey.Keys - {flows[r].key};
  }

  lemma IdsAgreeWithout<R>(byID: map<nat, R>, tracked: set<R>, flows: map<R, Flow>, r: R)
    requires r in tracked && IdsAgree(byID, tracked, flows)
    ensures IdsAgree(byID - {flows[r].authID}, tracked - {r}, flows)
  {
    assert (byID - {flows[r].authID}).Keys == byID.Keys - {flows[r].authID};
  }

  lemma FlowsOkUpdate<R>(flows: map<R, Flow>, tracked: set<R>, r: R, f: Flow, tracked': set<R>)
    requires r in flows && FlowsOk(flows, tracked) && FlowOk(f, r in tracked')
    requires tracked' - {r} == tracked - {r}
    ensures FlowsOk(flows[r := f], tracked')
  {
    assert forall q :: q != r ==> (q in tracked <==> q in tracked' - {r} || (q in tracked && q in {r}));
  }

  lemma TrackedUnderOwnNames<R>(m: Manager<R>, r: R)
    requires Inv(m) && r in m.Tracked()
    ensures var f := m.flows[r];
      f.key in m.byKey && m.byKey[f.key] == r && f.authID in m.byID && m.byID[f.authID] == r && FlowOk(f, true)
  {
    hide IdsUnique, Distinct;
  }

  // Changing a flow without touching its identity.
  lemma UpdateKeeps<R>(m: Manager<R>, r: R, f: Flow)
    requires Inv(m) && r in m.flows
    requires f.key == m.flows[r].key && f.authID == m.flows[r].authID && FlowOk(f, r in m.Tracked())
    ensures Inv(m.(flows := m.flows[r := f]))
  {
    hide KeysAgree, IdsAgree, IdsUnique, FlowsOk, FlowOk;
    FlowsOkUpdate(m.flows, m.Tracked(), r, f, m.Tracked());
    KeysAgreeUpdate(m.byKey, m.Tracked(), m.flows, r, f);
    IdsAgreeUpdate(m.byID, m.Tracked(), m.flows, r, f);
    IdsUniqueUpdate(m.flows, m.nextAuthID, r, f);
  }

  // Taking a tracked flow out of the three structures while giving it the final value `f`.
  lemma UntrackKeeps<R>(m: Manager<R>, r: R, f: Flow)
    requires Inv(m) && r in m.Tracked()
    requires f.key == m.flows[r].key && f.authID == m.flows[r].authID && FlowOk(f, false)
    ensures var m' := RemoveIndexes(m, r);
      Inv(m'.(flows := m'.flows[r := f])) && |m'.lru| == |m.lru| - 1 && m'.Tracked() == m.Tracked() - {r}
  {
    hide KeysAgree, IdsAgree, IdsUnique, FlowsOk, FlowOk, Without, Members, Distinct;
    var m' := RemoveIndexes(m, r);
    TrackedUnderOwnNames(m, r);
    WithoutMembers(m.lru, r);
    KeysAgreeWithout(m.byKey, m.Tracked(), m.flows, r);
    IdsAgreeWithout(m.byID, m.Tracked(), m.flows, r);
    FlowsOkUpdate(m.flows, m.Tracked(), r, f, m'.Tracked());
    KeysAgreeUpdate(m'.byKey, m'.Tracked(), m.flows, r, f);
    IdsAgreeUpdate(m'.byID, m'.Tracked(), m.flows, r, f);
    IdsUniqueUpdate(m.flows, m.nextAuthID, r, f);
  }

  lemma RemoveKeeps<R>(m: Manager<R>, r: R, err: AuthError)
    requires Inv(m) && r in m.Tracked()
    ensures var m' := Remove(m, r, err); Inv(m') && |m'.lru| == |m.lru| - 1 && m'.Tracked() == m.Tracked() - {r}
    ensures var m' := Remove(m, r, err);
      m' == m.(byKey := m'.byKey, byID := m'.byID, lru := m'.lru, flows := m.flows[r := m.flows[r].Kill(err)])
  {
    hide KeysAgree, IdsAgree, IdsUnique, FlowsOk;
    TrackedUnderOwnNames(m, r);
    UntrackKeeps(m, r, m.flows[r].Kill(err));
  }

  // What taking a flow out does to the rest, whatever else holds.
  lemma RemoveShape<R>(m: Manager<R>, r: R, err: AuthError)
    requires NoDangling(m) && Distinct(m.lru) && r in m.Tracked()
    ensures var m' := Remove(m, r, err);
      && NoDangling(m') && Distinct(m'.lru) && |m'.lru| == |m.lru| - 1 && m'.Tracked() == m.Tracked() - {r}
      && m'.flows == m.flows[r := m.flows[r].Kill(err)] && m'.ttl == m.ttl
  {
    hide Distinct, Flow.Kill;
    WithoutMembers(m.lru, r);
    hide Members, Without;
  }

  lemma ChargeShape<R>(m: Manager<R>, r: R, now: int, err: AuthError)
    requires NoDangling(m) && Distinct(m.lru) && r in m.Tracked()
    ensures var (m', gaveUp) := Charge(m, r, now, err);
      && NoDangling(m') && Distinct(m'.lru) && m'.flows.Keys == m.flows.Keys
      && (!gaveUp ==> m'.lru == m.lru)
      && (gaveUp ==> |m'.lru| == |m.lru| - 1 && m'.Tracked() == m.Tracked() - {r})
      && forall q :: q in m.flows && q != r ==> m'.flows[q] == m.flows[q]
    ensures var (m', gaveUp) := Charge(m, r, now, err);
      var f, spent := m.flows[r], m.flows[r].SpendTimeout(now);
      && (gaveUp <==> f.Overdue(now) && spent.timeouts >= MAX_AUTH_ATTEMPTS)
      && m'.flows[r] == (if !f.Overdue(now) then f else if gaveUp then spent.Kill(err) else spent)
  {
    hide Distinct, Remove, Flow.Kill, Flow.Overdue, Flow.SpendTimeout;
    RemoveShape(m.(flows := m.flows[r := m.flows[r].SpendTimeout(now)]), r, err);
  }

  lemma OneFlowEvolves<R>(m: Manager<R>, m': Manager<R>, r: R, f: Flow)
    requires r in m.flows && m'.flows == m.flows[r := f] && FlowEvolves(m.flows[r], f)
    requires m'.nextAuthID == m.nextAuthID && m'.closed == m.closed && m'.ttl == m.ttl && m'.maxEntries == m.maxEntries
    requires m'.Tracked() <= m.Tracked()
    ensures Evolves(m, m')
  {}

  lemma RemoveEvolves<R>(m: Manager<R>, r: R, err: AuthError)
    requires Inv(m) && r in m.Tracked()
    ensures Evolves(m, Remove(m, r, err))
  {
    hide KeysAgree, IdsAgree, IdsUnique, FlowsOk;
    WithoutMembers(m.lru, r);
    OneFlowEvolves(m, Remove(m, r, err), r, m.flows[r].Kill(err));
  }

  lemma EvolvesTransitive<R>(a: Manager<R>, b: Manager<R>, c: Manager<R>)
    requires Evolves(a, b) && Evolves(b, c)
    ensures Evolves(a, c)
  {}

  lemma {:induction false} RemoveExpiredKeeps<R>(m: Manager<R>, rs: seq<R>, now: int)
    requires Inv(m) && Distinct(rs) && Members(rs) <= m.Tracked()
    ensures var m' := RemoveExpired(m, rs, now);
      Inv(m') && Evolves(m, m') && m'.nextAuthID == m.nextAuthID && m'.closed == m.closed
      && m'.Tracked() <= m.Tracked() && forall r :: r in m'.Tracked() ==> m'.flows[r] == m.flows[r]
    decreases rs
  {
    hide KeysAgree, IdsAgree, IdsUnique, FlowsOk;
    if rs != [] {
      var m1 := if m.flows[rs[0]].Expired(m.ttl, now) then Remove(m, rs[0], Evicted) else m;
      if m.flows[rs[0]].Expired(m.ttl, now) {
        RemoveKeeps(m, rs[0], Evicted);
        RemoveEvolves(m, rs[0], Evicted);
      }
      RemoveExpiredKeeps(m1, rs[1..], now);
      EvolvesTransitive(m, m1, RemoveExpired(m, rs, now));
    }
  }

  lemma UpdateEvolves<R>(m: Manager<R>, r: R, f: Flow, lru: seq<R>)
    requires r in m.flows && FlowEvolves(m.flows[r], f) && Members(lru) <= m.Tracked()
    ensures Evolves(m, m.(flows := m.flows[r := f], lru := lru))
    ensures Evolves(m, m.(flows := m.flows[r := f]))
  {
    OneFlowEvolves(m, m.(flows := m.flows[r := f], lru := lru), r, f);
  }

  // Moving a tracked flow to the recent end of the list, with its flow updated.
  lemma TouchKeeps<R>(m: Manager<R>, r: R, f: Flow)
    requires Inv(m) && r in m.Tracked()
    requires f.key == m.flows[r].key && f.authID == m.flows[r].authID && FlowOk(f, true)
    requires FlowEvolves(m.flows[r], f)
    ensures var m' := m.(flows := m.flows[r := f], lru := MoveToBack(m.lru, r));
      Inv(m') && Evolves(m, m') && m'.Tracked() == m.Tracked()
  {
    hide KeysAgree, IdsAgree, IdsUnique, FlowsOk, Evolves;
    MoveToBackMembers(m.lru, r);
    UpdateKeeps(m, r, f);
    UpdateEvolves(m, r, f, MoveToBack(m.lru, r));
  }

  lemma KeysAgreeInsert<R>(byKey: map<Key, R>, tracked: set<R>, flows: map<R, Flow>, r: R)
    requires KeysAgree(byKey, tracked, flows) && r in flows && r !in tracked && flows[r].key !in byKey
    ensures KeysAgree(byKey[flows[r].key := r], tracked + {r}, flows)
  {
    var byKey' := byKey[flows[r].key := r];
    assert byKey'.Keys == byKey.Keys + {flows[r].key};
    forall q | q in tracked + {r} ensures q in flows && flows[q].key in byKey' && byKey'[flows[q].key] == q {
      if q != r { assert q in tracked; }
    }
    forall k | k in byKey' ensures byKey'[k] in tracked + {r} && byKey'[k] in flows && flows[byKey'[k]].key == k {
      if k != flows[r].key { assert k in byKey; }
    }
  }

  lemma IdsAgreeInsert<R>(byID: map<nat, R>, tracked: set<R>, flows: map<R, Flow>, r: R)
    requires IdsAgree(byID, tracked, flows) && r in flows && r !in tracked && flows[r].authID !in byID
    ensures IdsAgree(byID[flows[r].authID := r], tracked + {r}, flows)
  {
    var byID' := byID[flows[r].authID := r];
    assert byID'.Keys == byID.Keys + {flows[r].authID};
    forall q | q in tracked + {r} ensures q in flows && flows[q].authID in byID' && byID'[flows[q].authID] == q {
      if q != r { assert q in tracked; }
    }
    forall id | id in byID' ensures byID'[id] in tracked + {r} && byID'[id] in flows && flows[byID'[id]].authID == id {
      if id != flows[r].authID { assert id in byID; }
    }
  }

  lemma IdsUniqueInsert<R>(flows: map<R, Flow>, n: nat, r: R, f: Flow)
    requires IdsUnique(flows, n) && r !in flows && f.authID == n + 1
    ensures IdsUnique(flows[r := f], n + 1)
  {}

  lemma KeysKnown<R>(m: Manager<R>)
    requires Inv(m)
    ensures forall id :: id in m.byID ==> id <= m.nextAuthID
    ensures m.Tracked() <= m.flows.Keys
    ensures |m.byKey| == |m.lru| && Distinct(m.lru)
  {
    DistinctSize(m.lru);
  }

  // A fresh flow, tracked or not, takes the next id.
  lemma NewFlowKeeps<R>(m: Manager<R>, m': Manager<R>, r: R, f: Flow, track: bool)
    requires Inv(m) && r !in m.flows && f.authID == m.nextAuthID + 1 && FlowOk(f, track)
    requires track ==> !m.closed && |m.lru| < m.maxEntries && f.key !in m.byKey
    requires m' == if track then
        m.(nextAuthID := f.authID, lru := m.lru + [r], byKey := m.byKey[f.key := r], byID := m.byID[f.authID := r],
           flows := m.flows[r := f])
      else m.(nextAuthID := f.authID, flows := m.flows[r := f])
    ensures Inv(m')
  {
    hide KeysAgree, IdsAgree, IdsUnique, FlowsOk, FlowOk;
    KeysKnown(m);
    AppendMembers(m.lru, r);
    IdsUniqueInsert(m.flows, m.nextAuthID, r, f);
    FlowsOkInsert(m.flows, m.Tracked(), r, f, m'.Tracked());
    KeysAgreeWider(m.byKey, m.Tracked(), m.flows, r, f);
    IdsAgreeWider(m.byID, m.Tracked(), m.flows, r, f);
    if track {
      KeysAgreeInsert(m.byKey, m.Tracked(), m.flows[r := f], r);
      IdsAgreeInsert(m.byID, m.Tracked(), m.flows[r := f], r);
    }
  }

  lemma KeysAgreeWider<R>(byKey: map<Key, R>, tracked: set<R>, flows: map<R, Flow>, r: R, f: Flow)
    requires KeysAgree(byKey, tracked, flows) && r !in flows
    ensures KeysAgree(byKey, tracked, flows[r := f])
  {}

  lemma IdsAgreeWider<R>(byID: map<nat, R>, tracked: set<R>, flows: map<R, Flow>, r: R, f: Flow)
    requires IdsAgree(byID, tracked, flows) && r !in flows
    ensures IdsAgree(byID, tracked, flows[r := f])
  {}

  lemma FlowsOkInsert<R>(flows: map<R, Flow>, tracked: set<R>, r: R, f: Flow, tracked': set<R>)
    requires FlowsOk(flows, tracked) && r !in flows && tracked <= flows.Keys
    requires tracked <= tracked' <= tracked + {r} && FlowOk(f, r in tracked')
    ensures FlowsOk(flows[r := f], tracked')
  {}

  lemma MakeRoomKeeps<R>(m: Manager<R>)
    requires Inv(m)
    ensures var m' := MakeRoom(m);
      Inv(m') && Evolves(m, m') && |m'.lru| < m'.maxEntries && m'.byKey.Keys <= m.byKey.Keys
      && m'.nextAuthID == m.nextAuthID && m'.closed == m.closed && m'.flows.Keys == m.flows.Keys
  {
    hide KeysAgree, IdsAgree, IdsUnique, FlowsOk, Evolves;
    KeysKnown(m);
    if |m.byKey| >= m.maxEntries {
      RemoveKeeps(m, m.lru[0], Evicted);
      RemoveEvolves(m, m.lru[0], Evicted);
    } else {
      EvolvesReflexive(m);
    }
  }

  lemma EvolvesReflexive<R>(m: Manager<R>)
    ensures Evolves(m, m)
  {}

  lemma AddFlowKeeps<R>(m: Manager<R>, spare: R, f: Flow)
    requires Inv(m) && spare !in m.flows && f.key !in m.byKey
    requires f.authID == m.nextAuthID + 1 && FlowOk(f, true) && !f.Signalled() && f.pending == []
    ensures var m' := AddFlow(m, spare, f);
      Inv(m') && Evolves(m, m') && spare in m'.flows && m'.flows[spare].key == f.key
      && (spare in m'.Tracked() <==> !m.closed)
  {
    hide Evolves, KeysAgree, IdsAgree, IdsUnique, FlowsOk;
    KeysKnown(m);
    var m' := AddFlow(m, spare, f);
    if m.closed {
      NewFlowKeeps(m, m', spare, f.Signal(Some(ManagerClosed)), false);
      NewFlowEvolves(m, m', spare, f.Signal(Some(ManagerClosed)));
    } else {
      var m1 := MakeRoom(m);
      MakeRoomKeeps(m);
      AppendMembers(m1.lru, spare);
      NewFlowKeeps(m1, m', spare, f, true);
      NewFlowEvolves(m1, m', spare, f);
      EvolvesTransitive(m, m1, m');
    }
  }

  lemma GetOrCreateKeeps<R>(m: Manager<R>, spare: R, key: Key, appID: string, nodeGroupID: string, now: int)
    requires Inv(m) && spare !in m.flows
    ensures var (m', r) := GetOrCreate(m, spare, key, appID, nodeGroupID, now);
      Inv(m') && Evolves(m, m') && r in m'.flows && m'.flows[r].key == key
      && (r in m'.Tracked() <==> !m.closed)
  {
    hide Evolves, KeysAgree, IdsAgree, IdsUnique, FlowsOk, AddFlow;
    var m1 := RemoveExpired(m, m.lru, now);
    RemoveExpiredKeeps(m, m.lru, now);
    var (m', r) := GetOrCreate(m, spare, key, appID, nodeGroupID, now);
    if key in m1.byKey {
      KeyLeadsToTracked(m1, key);
      TouchKeeps(m1, r, m1.flows[r].(lastSeen := now));
    } else {
      AddFlowKeeps(m1, spare, NewFlow(key, m1.nextAuthID + 1, appID, nodeGroupID, now));
    }
    EvolvesTransitive(m, m1, m');
  }

  lemma KeyLeadsToTracked<R>(m: Manager<R>, key: Key)
    requires Inv(m) && key in m.byKey
    ensures var r := m.byKey[key]; r in m.Tracked() && m.flows[r].key == key && FlowOk(m.flows[r], true)
  {}

  lemma IdLeadsToTracked<R>(m: Manager<R>, id: nat)
    requires Inv(m) && id in m.byID
    ensures var r := m.byID[id]; r in m.Tracked() && m.flows[r].authID == id && FlowOk(m.flows[r], true)
  {}

  lemma NewFlowEvolves<R>(m: Manager<R>, m': Manager<R>, r: R, f: Flow)
    requires r !in m.flows && m'.flows == m.flows[r := f] && f.authID == m'.nextAuthID == m.nextAuthID + 1
    requires m'.Tracked() <= m.Tracked() + {r} && m'.closed == m.closed
    requires m'.ttl == m.ttl && m'.maxEntries == m.maxEntries
    ensures Evolves(m, m')
  {}

  lemma ObserveKeeps<R>(m: Manager<R>, key: Key, what: Sighting, now: int)
    requires Inv(m)
    ensures var m' := ObservePacket(m, key, what, now); Inv(m') && Evolves(m, m') && m'.Tracked() == m.Tracked()
  {
    hide Evolves, KeysAgree, IdsAgree, IdsUnique, FlowsOk;
    if key in m.byKey {
      KeyLeadsToTracked(m, key);
      TouchKeeps(m, m.byKey[key], m.flows[m.byKey[key]].See(what, now));
    } else {
      EvolvesReflexive(m);
    }
  }

  lemma CompleteKeeps<R>(m: Manager<R>, authID: nat, token: Token, err: Option<AuthError>)
    requires Inv(m)
    ensures var (m', done) := CompleteAuth(m, authID, token, err); Inv(m') && Evolves(m, m')
  {
    hide Evolves, KeysAgree, IdsAgree, IdsUnique, FlowsOk;
    EvolvesReflexive(m);
    if authID in m.byID && !m.flows[m.byID[authID]].Signalled() {
      IdLeadsToTracked(m, authID);
      var r := m.byID[authID];
      var f := m.flows[r];
      var f' := f.(pending := [], token := if token != [] then token else f.token).Signal(err);
      if err.Some? {
        UntrackKeeps(m, r, f');
        var m' := RemoveIndexes(m, r);
        OneFlowEvolves(m, m'.(flows := m'.flows[r := f']), r, f');
      } else {
        UpdateKeeps(m, r, f');
        UpdateEvolves(m, r, f', m.lru);
      }
    }
  }

  lemma CacheKeeps<R>(m: Manager<R>, r: R, meta: Meta, packet: Packet)
    requires Inv(m) && r in m.flows
    ensures var (m', res) := CachePacket(m, r, meta, packet); Inv(m') && Evolves(m, m')
  {
    hide Evolves, KeysAgree, IdsAgree, IdsUnique, FlowsOk;
    EvolvesReflexive(m);
    var f := m.flows[r];
    if f.key in m.byKey && m.byKey[f.key] == r && !f.Signalled() && |f.pending| < PENDING_LIMIT {
      KeyLeadsToTracked(m, f.key);
      UpdateKeeps(m, r, f.(meta := meta, pending := f.pending + [packet]));
      UpdateEvolves(m, r, f.(meta := meta, pending := f.pending + [packet]), m.lru);
    }
  }

  lemma {:induction false} BatchKeeps<R>(m: Manager<R>, rs: seq<R>, room: nat, now: int)
    requires Inv(m) && Members(rs) <= m.Tracked()
    ensures var m' := TakeBatch(m, rs, room, now).0; Inv(m') && Evolves(m, m') && m'.lru == m.lru
    decreases rs
  {
    hide Evolves, KeysAgree, IdsAgree, IdsUnique, FlowsOk;
    KeysKnown(m);
    EvolvesReflexive(m);
    if rs != [] {
      var r := rs[0];
      if !m.flows[r].Eligible(now) {
        BatchKeeps(m, rs[1..], room, now);
      } else if room > 0 {
        TrackedUnderOwnNames(m, r);
        var f := m.flows[r].(started := true);
        UpdateKeeps(m, r, f);
        UpdateEvolves(m, r, f, m.lru);
        var m1 := m.(flows := m.flows[r := f]);
        BatchKeeps(m1, rs[1..], room - 1, now);
        EvolvesTransitive(m, m1, TakeBatch(m1, rs[1..], room - 1, now).0);
      }
    }
  }

  // A change of an unsignalled flow's request bookkeeping.
  lemma RequestKeeps<R>(m: Manager<R>, id: nat, f: Flow)
    requires Inv(m) && id in m.byID
    requires var was := m.flows[m.byID[id]];
      f == was.(started := f.started, deadline := f.deadline, retryAt := f.retryAt)
    ensures var m' := m.(flows := m.flows[m.byID[id] := f]); Inv(m') && Evolves(m, m')
  {
    hide Evolves, KeysAgree, IdsAgree, IdsUnique, FlowsOk;
    IdLeadsToTracked(m, id);
    UpdateKeeps(m, m.byID[id], f);
    UpdateEvolves(m, m.byID[id], f, m.lru);
  }

  // One turn of the loops of nextAuthBatch and expireAuth.
  lemma BatchEnds<R>(m: Manager<R>, room: nat, now: int)
    ensures TakeBatch(m, [], room, now) == (m, [], false)
  {}

  lemma BatchSkips<R>(m: Manager<R>, rs: seq<R>, room: nat, now: int)
    requires Members(rs) <= m.flows.Keys && rs != [] && !m.flows[rs[0]].Eligible(now)
    ensures TakeBatch(m, rs, room, now) == TakeBatch(m, rs[1..], room, now)
  {}

  lemma BatchIsFull<R>(m: Manager<R>, rs: seq<R>, now: int)
    requires Members(rs) <= m.flows.Keys && rs != [] && m.flows[rs[0]].Eligible(now)
    ensures TakeBatch(m, rs, 0, now) == (m, [], true)
  {}

  lemma BatchGrows<R>(m: Manager<R>, rs: seq<R>, room: nat, now: int)
    requires Members(rs) <= m.flows.Keys && rs != [] && m.flows[rs[0]].Eligible(now) && room > 0
    ensures var f := m.flows[rs[0]];
      var (m', jobs, more) := TakeBatch(m.(flows := m.flows[rs[0] := f.(started := true)]), rs[1..], room - 1, now);
      TakeBatch(m, rs, room, now) == (m', [Job(rs[0], f.meta)] + jobs, more)
  {}

  lemma ExpireAuthUnfolds<R>(m: Manager<R>, rs: seq<R>, now: int, err: AuthError)
    requires Members(rs) <= m.flows.Keys
    ensures rs == [] ==> ExpireAuth(m, rs, now, err) == (m, 0)
    ensures rs != [] ==>
              var (m1, gaveUp) := Charge(m, rs[0], now, err);
              var (m', n) := ExpireAuth(m1, rs[1..], now, err);
              ExpireAuth(m, rs, now, err) == (m', if gaveUp then n + 1 else n)
  {}

  lemma MarkSentKeeps<R>(m: Manager<R>, id: nat, deadline: int)
    requires Inv(m)
    ensures var m' := MarkAuthSent(m, id, deadline); Inv(m') && Evolves(m, m') && m'.lru == m.lru
  {
    hide Evolves, KeysAgree, IdsAgree, IdsUnique, FlowsOk;
    EvolvesReflexive(m);
    if id in m.byID { RequestKeeps(m, id, m.flows[m.byID[id]].(deadline := Some(deadline))); }
  }

  lemma RetryKeeps<R>(m: Manager<R>, id: nat, delay: int, now: int)
    requires Inv(m)
    ensures var m' := RetryAuth(m, id, delay, now).0; Inv(m') && Evolves(m, m')
  {
    hide Evolves, KeysAgree, IdsAgree, IdsUnique, FlowsOk;
    EvolvesReflexive(m);
    if id in m.byID {
      RequestKeeps(m, id, m.flows[m.byID[id]].(started := false, deadline := None, retryAt := Some(now + delay)));
    }
  }

  lemma RemoveKeyKeeps<R>(m: Manager<R>, key: Key)
    requires Inv(m)
    ensures var m' := RemoveKey(m, key); Inv(m') && Evolves(m, m')
  {
    hide Evolves, KeysAgree, IdsAgree, IdsUnique, FlowsOk;
    EvolvesReflexive(m);
    if key in m.byKey {
      KeyLeadsToTracked(m, key);
      RemoveKeeps(m, m.byKey[key], Evicted);
      RemoveEvolves(m, m.byKey[key], Evicted);
    }
  }

  lemma ChargeKeeps<R>(m: Manager<R>, r: R, now: int, err: AuthError)
    requires Inv(m) && r in m.Tracked()
    ensures var (m', gaveUp) := Charge(m, r, now, err);
      && Inv(m') && Evolves(m, m')
      && m'.Tracked() == (if gaveUp then m.Tracked() - {r} else m.Tracked())
      && m'.lru == (if gaveUp then Without(m.lru, r) else m.lru)
      && m'.flows == m.flows[r := m'.flows[r]]
  {
    hide Evolves, KeysAgree, IdsAgree, IdsUnique, FlowsOk;
    EvolvesReflexive(m);
    TrackedUnderOwnNames(m, r);
    if m.flows[r].Overdue(now) {
      var f := m.flows[r].SpendTimeout(now);
      if f.timeouts < MAX_AUTH_ATTEMPTS {
        UpdateKeeps(m, r, f);
        UpdateEvolves(m, r, f, m.lru);
      } else {
        UntrackKeeps(m, r, f.Kill(err));
        var m' := Remove(m.(flows := m.flows[r := f]), r, err);
        assert m'.flows == m.flows[r := f.Kill(err)];
        OneFlowEvolves(m, m', r, f.Kill(err));
      }
    }
  }

  lemma {:induction false} ExpireAuthKeeps<R>(m: Manager<R>, rs: seq<R>, now: int, err: AuthError)
    requires Inv(m) && Distinct(rs) && Members(rs) <= m.Tracked()
    ensures var m' := ExpireAuth(m, rs, now, err).0; Inv(m') && Evolves(m, m')
    decreases rs
  {
    hide Evolves, KeysAgree, IdsAgree, IdsUnique, FlowsOk, Charge;
    KeysKnown(m);
    EvolvesReflexive(m);
    if rs != [] {
      var m1 := Charge(m, rs[0], now, err).0;
      ChargeKeeps(m, rs[0], now, err);
      ExpireAuthKeeps(m1, rs[1..], now, err);
      EvolvesTransitive(m, m1, ExpireAuth(m1, rs[1..], now, err).0);
    }
  }

  lemma EmptyIndexAgrees<R>(flows: map<R, Flow>)
    ensures KeysAgree(map[], {}, flows) && IdsAgree(map[], {}, flows)
  {}

  lemma KillAllKeeps<R>(flows: map<R, Flow>, tracked: set<R>, n: nat)
    requires FlowsOk(flows, tracked) && IdsUnique(flows, n)
    ensures var flows' := KillAll(flows, tracked);
      FlowsOk(flows', {}) && FlowsEvolve(flows, flows') && IdsUnique(flows', n) && flows'.Keys == flows.Keys
  {}

  lemma CloseKeeps<R>(m: Manager<R>)
    requires Inv(m)
    ensures Inv(Close(m)) && Evolves(m, Close(m)) && Close(m).closed
  {
    hide FlowsOk, FlowsEvolve, IdsUnique, KillAll, KeysAgree, IdsAgree;
    KillAllKeeps(m.flows, m.Tracked(), m.nextAuthID);
    EmptyIndexAgrees(KillAll(m.flows, m.Tracked()));
  }

  // Every critical section keeps the invariant and only moves flows forward.
  lemma StepKeeps<R>(m: Manager<R>, op: Op<R>)
    requires Inv(m) && OpOk(m, op)
    ensures Inv(Step(m, op)) && Evolves(m, Step(m, op))
  {
    hide Evolves, KeysAgree, IdsAgree, IdsUnique, FlowsOk, Close;
    EvolvesReflexive(m);
    match op
    case DoGetOrCreate(spare, key, appID, group, now) => GetOrCreateKeeps(m, spare, key, appID, group, now);
    case DoObserve(key, what, now) => ObserveKeeps(m, key, what, now);
    case DoComplete(authID, token, err) => CompleteKeeps(m, authID, token, err);
    case DoCache(r, meta, packet) => CacheKeeps(m, r, meta, packet);
    case DoBatch(limit, now) => BatchKeeps(m, m.lru, limit, now);
    case DoMarkSent(id, deadline) => MarkSentKeeps(m, id, deadline);
    case DoExpireAuth(now, err) => ExpireAuthKeeps(m, m.lru, now, err);
    case DoRetry(id, delay, now) => RetryKeeps(m, id, delay, now);
    case DoRemove(key) => RemoveKeyKeeps(m, key);
    case DoRemoveExpired(now) => RemoveExpiredKeeps(m, m.lru, now);
    case DoClose => CloseKeeps(m);
  }

  lemma NewManagerOk<R>(ttl: int, maxEntries: nat)
    requires maxEntries >= 1
    ensures Inv(NewManager<R>(ttl, maxEntries))
  {}

  // Over any run from a sound state: every state is sound, and whatever two moments are compared,
  // identities are kept, ids only grow, outcomes are final and removed flows stay out of the index.
  lemma {:induction false} RunKeeps<R>(states: seq<Manager<R>>, ops: seq<Op<R>>, i: nat, j: nat)
    requires IsRun(states, ops) && Inv(states[0]) && i <= j < |states|
    ensures Inv(states[i]) && Inv(states[j]) && Evolves(states[i], states[j])
    decreases j
  {
    hide Evolves, Inv, Step;
    if j == 0 {
      EvolvesReflexive(states[0]);
    } else {
      RunKeeps(states, ops, 0, j - 1);
      var op := ops[j - 1];
      StepKeeps(states[j - 1], op);
      if i == j {
        EvolvesReflexive(states[j]);
      } else {
        RunKeeps(states, ops, i, j - 1);
        EvolvesTransitive(states[i], states[j - 1], states[j]);
      }
    }
  }

  // The three structures, read off a run: same flows everywhere, bounded, ids never shared or reused,
  // at most one completion signal per flow, and nothing tracked once the manager is closed.
  lemma RunSafety<R>(states: seq<Manager<R>>, ops: seq<Op<R>>, ttl: int, maxEntries: nat, i: nat, j: nat)
    requires IsRun(states, ops) && maxEntries >= 1 && states[0] == NewManager(ttl, maxEntries) && i <= j < |states|
    ensures var m := states[j];
      && m.byKey.Values == m.byID.Values == Members(m.lru) && Distinct(m.lru)
      && |m.byKey| == |m.byID| == |m.lru| <= maxEntries
      && (m.closed ==> m.lru == [] && m.byKey == map[] && m.byID == map[])
      && (forall r :: r in m.flows ==> m.flows[r].authID <= m.nextAuthID && m.flows[r].signals <= 1)
      && (forall r, q :: r in m.flows && q in m.flows && m.flows[r].authID == m.flows[q].authID ==> r == q)
      && (forall r :: r in Members(m.lru) ==> r in m.flows && m.flows[r].authErr == None && m.flows[r].timeouts < MAX_AUTH_ATTEMPTS)
    ensures forall r :: r in states[i].flows && r !in Members(states[i].lru) ==>
              states[i].flows[r].Signalled() && r !in Members(states[j].lru)
    ensures forall r :: r in states[i].flows && states[i].flows[r].Signalled() ==>
              r in states[j].flows && states[j].flows[r].authErr == states[i].flows[r].authErr && states[j].flows[r].pending == []
  {
    NewManagerOk<R>(ttl, maxEntries);
    RunKeeps(states, ops, 0, j);
    RunKeeps(states, ops, i, j);
    IndexesHoldTracked(states[j]);
    SignalledHoldNothing(states[i], states[j]);
  }

  lemma IndexesHoldTracked<R>(m: Manager<R>)
    requires Inv(m)
    ensures m.byKey.Values == m.byID.Values == m.Tracked() && |m.byKey| == |m.byID| == |m.lru|
    ensures m.closed ==> m.lru == [] && m.byKey == map[] && m.byID == map[]
  {
    hide IdsUnique, FlowsOk;
    DistinctSize(m.lru);
    KeyValues(m.byKey, m.Tracked(), m.flows);
    IdValues(m.byID, m.Tracked(), m.flows);
  }

  lemma KeyValues<R>(byKey: map<Key, R>, tracked: set<R>, flows: map<R, Flow>)
    requires KeysAgree(byKey, tracked, flows)
    ensures byKey.Values == tracked
  {
    forall r | r in tracked ensures r in byKey.Values { assert flows[r].key in byKey.Keys; }
  }

  lemma IdValues<R>(byID: map<nat, R>, tracked: set<R>, flows: map<R, Flow>)
    requires IdsAgree(byID, tracked, flows)
    ensures byID.Values == tracked
  {
    forall r | r in tracked ensures r in byID.Values { assert flows[r].authID in byID.Keys; }
  }

  lemma SignalledHoldNothing<R>(m: Manager<R>, m': Manager<R>)
    requires Inv(m) && Inv(m') && Evolves(m, m')
    ensures forall r :: r in m.flows && r !in m.Tracked() ==> m.flows[r].Signalled() && r !in m'.Tracked()
    ensures forall r :: r in m.flows && m.flows[r].Signalled() ==>
              r in m'.flows && m'.flows[r].authErr == m.flows[r].authErr && m'.flows[r].pending == []
  {
    hide KeysAgree, IdsAgree, IdsUnique, Distinct;
  }

  // cachePacket's fallback for an untracked flow without an outcome is never taken.
  lemma NotTrackedUnreachable<R>(m: Manager<R>, r: R, meta: Meta, packet: Packet)
    requires Inv(m) && r in m.flows
    ensures CachePacket(m, r, meta, packet).1 != NotTracked
  {
    if r in m.Tracked() { TrackedUnderOwnNames(m, r); }
  }
}
