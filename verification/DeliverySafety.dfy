// Over every interleaving, each flow's accepted packets go out in acceptance order, each at most once,
// cached ones first, and no call reports success for a packet that nobody kept.
module DeliverySafety {
  import opened Bytes
  import opened Lists
  import opened Conntrack
  import opened ConntrackInvariant
  import ConntrackLifetime
  import opened Delivery

  // ---- What other goroutines can do to a flow while its sendMu is held.

  // An unsignalled flow keeps its packets or fails; a signalled one keeps its outcome.
  ghost predicate Gentle(f: Flow, f': Flow) {
    && f'.authID == f.authID
    && (!f'.Signalled() ==> !f.Signalled() && f'.pending == f.pending && f'.token == f.token)
    && (f.Signalled() ==> f'.Signalled() && f'.authErr == f.authErr && f'.token == f.token)
    && (!f.Signalled() && f'.Signalled() ==> f'.authErr.Some?)
  }

  ghost predicate Untouched<R>(flows: map<R, Flow>, flows': map<R, Flow>) {
    && (forall r :: r in flows ==> r in flows' && Gentle(flows[r], flows'[r]))
    && (forall r :: r in flows' && r !in flows ==> (flows'[r].Signalled() || flows'[r].pending == []))
  }

  lemma UntouchedTransitive<R>(a: map<R, Flow>, b: map<R, Flow>, c: map<R, Flow>)
    requires Untouched(a, b) && Untouched(b, c)
    ensures Untouched(a, c)
  {}

  lemma UntouchedReflexive<R>(flows: map<R, Flow>)
    ensures Untouched(flows, flows)
  {}

  lemma OneFlowGentle<R>(flows: map<R, Flow>, r: R, f: Flow)
    requires r in flows && Gentle(flows[r], f)
    ensures Untouched(flows, flows[r := f])
  {}

  lemma NewFlowQuiet<R>(flows: map<R, Flow>, r: R, f: Flow)
    requires r !in flows && (f.Signalled() || f.pending == [])
    ensures Untouched(flows, flows[r := f])
  {}

  lemma {:induction false} RemoveExpiredUntouched<R>(m: Manager<R>, rs: seq<R>, now: int)
    requires NoDangling(m) && Members(rs) <= m.flows.Keys
    ensures Untouched(m.flows, RemoveExpired(m, rs, now).flows)
    decreases rs
  {
    hide Untouched;
    UntouchedReflexive(m.flows);
    if rs != [] {
      var m1 := if m.flows[rs[0]].Expired(m.ttl, now) then Remove(m, rs[0], Evicted) else m;
      OneFlowGentle(m.flows, rs[0], m.flows[rs[0]].Kill(Evicted));
      RemoveExpiredUntouched(m1, rs[1..], now);
      UntouchedTransitive(m.flows, m1.flows, RemoveExpired(m1, rs[1..], now).flows);
    }
  }

  lemma AddFlowUntouched<R>(m: Manager<R>, spare: R, f: Flow)
    requires NoDangling(m) && spare !in m.flows && !f.Signalled() && f.pending == []
    ensures Untouched(m.flows, AddFlow(m, spare, f).flows)
  {
    hide Untouched;
    UntouchedReflexive(m.flows);
    if m.closed {
      NewFlowQuiet(m.flows, spare, f.Signal(Some(ManagerClosed)));
    } else {
      var m1 := MakeRoom(m);
      if |m.byKey| >= m.maxEntries && m.lru != [] {
        OneFlowGentle(m.flows, m.lru[0], m.flows[m.lru[0]].Kill(Evicted));
      }
      NewFlowQuiet(m1.flows, spare, f);
      UntouchedTransitive(m.flows, m1.flows, m1.flows[spare := f]);
    }
  }

  lemma GetOrCreateUntouched<R>(m: Manager<R>, spare: R, key: Key, appID: string, nodeGroupID: string, now: int)
    requires NoDangling(m) && spare !in m.flows
    ensures Untouched(m.flows, GetOrCreate(m, spare, key, appID, nodeGroupID, now).0.flows)
  {
    hide Untouched, AddFlow, RemoveExpired;
    var m1 := RemoveExpired(m, m.lru, now);
    RemoveExpiredUntouched(m, m.lru, now);
    if key in m1.byKey {
      var r := m1.byKey[key];
      OneFlowGentle(m1.flows, r, m1.flows[r].(lastSeen := now));
    } else {
      AddFlowUntouched(m1, spare, NewFlow(key, m1.nextAuthID + 1, appID, nodeGroupID, now));
    }
    UntouchedTransitive(m.flows, m1.flows, GetOrCreate(m, spare, key, appID, nodeGroupID, now).0.flows);
  }

  lemma SeeGentle(f: Flow, what: Sighting, now: int)
    ensures Gentle(f, f.See(what, now))
  {}

  lemma ObserveUntouched<R>(m: Manager<R>, key: Key, what: Sighting, now: int)
    requires NoDangling(m)
    ensures Untouched(m.flows, ObservePacket(m, key, what, now).flows)
  {
    hide Untouched, Flow.See;
    UntouchedReflexive(m.flows);
    if key in m.byKey {
      var r := m.byKey[key];
      SeeGentle(m.flows[r], what, now);
      OneFlowGentle(m.flows, r, m.flows[r].See(what, now));
    }
  }

  lemma {:induction false} BatchUntouched<R>(m: Manager<R>, rs: seq<R>, room: nat, now: int)
    requires Members(rs) <= m.flows.Keys
    ensures Untouched(m.flows, TakeBatch(m, rs, room, now).0.flows)
    decreases rs
  {
    hide Untouched;
    UntouchedReflexive(m.flows);
    if rs != [] {
      if !m.flows[rs[0]].Eligible(now) {
        BatchUntouched(m, rs[1..], room, now);
      } else if room > 0 {
        var f := m.flows[rs[0]].(started := true);
        OneFlowGentle(m.flows, rs[0], f);
        var m1 := m.(flows := m.flows[rs[0] := f]);
        BatchUntouched(m1, rs[1..], room - 1, now);
        UntouchedTransitive(m.flows, m1.flows, TakeBatch(m1, rs[1..], room - 1, now).0.flows);
      }
    }
  }

  lemma ChargeUntouched<R>(m: Manager<R>, r: R, now: int, err: AuthError)
    requires r in m.flows
    ensures Untouched(m.flows, Charge(m, r, now, err).0.flows)
  {
    hide Untouched;
    UntouchedReflexive(m.flows);
    if m.flows[r].Overdue(now) {
      var f := m.flows[r].SpendTimeout(now);
      OneFlowGentle(m.flows, r, f);
      var m1 := m.(flows := m.flows[r := f]);
      if f.timeouts >= MAX_AUTH_ATTEMPTS {
        OneFlowGentle(m1.flows, r, f.Kill(err));
        UntouchedTransitive(m.flows, m1.flows, m1.flows[r := f.Kill(err)]);
      }
    }
  }

  lemma {:induction false} ExpireAuthUntouched<R>(m: Manager<R>, rs: seq<R>, now: int, err: AuthError)
    requires Members(rs) <= m.flows.Keys
    ensures Untouched(m.flows, ExpireAuth(m, rs, now, err).0.flows)
    decreases rs
  {
    hide Untouched, Charge;
    UntouchedReflexive(m.flows);
    if rs != [] {
      var m1 := Charge(m, rs[0], now, err).0;
      ChargeUntouched(m, rs[0], now, err);
      ExpireAuthUntouched(m1, rs[1..], now, err);
      UntouchedTransitive(m.flows, m1.flows, ExpireAuth(m1, rs[1..], now, err).0.flows);
    }
  }

  lemma ByIdUntouched<R>(m: Manager<R>, id: nat, token: Token, err: AuthError, delay: int, now: int)
    requires NoDangling(m)
    ensures Untouched(m.flows, CompleteAuth(m, id, token, Some(err)).0.flows)
    ensures Untouched(m.flows, MarkAuthSent(m, id, now).flows)
    ensures Untouched(m.flows, RetryAuth(m, id, delay, now).0.flows)
  {
    hide Untouched;
    UntouchedReflexive(m.flows);
    if id in m.byID && !m.flows[m.byID[id]].Signalled() {
      var r := m.byID[id];
      var f := m.flows[r];
      OneFlowGentle(m.flows, r, f.(pending := [], token := if token != [] then token else f.token).Signal(Some(err)));
      OneFlowGentle(m.flows, r, f.(deadline := Some(now)));
      OneFlowGentle(m.flows, r, f.(started := false, deadline := None, retryAt := Some(now + delay)));
    }
  }

  lemma KillAllUntouched<R>(flows: map<R, Flow>, tracked: set<R>)
    ensures Untouched(flows, KillAll(flows, tracked))
  {}

  // Whatever others do, a flow is left as Gentle says.
  lemma OthersAreGentle<R>(m: Manager<R>, op: Op<R>)
    requires Inv(m) && OpOk(m, op) && ByOthers(op)
    ensures Untouched(m.flows, Step(m, op).flows)
  {
    hide Untouched, Inv, CompleteAuth, RemoveExpired, ObservePacket, GetOrCreate, TakeBatch, ExpireAuth, KillAll;
    KeysKnown(m);
    match op
    case DoGetOrCreate(spare, key, appID, group, now) => GetOrCreateUntouched(m, spare, key, appID, group, now);
    case DoObserve(key, what, now) => ObserveUntouched(m, key, what, now);
    case DoComplete(id, token, err) => ByIdUntouched(m, id, token, err.value, 0, 0);
    case DoBatch(limit, now) => BatchUntouched(m, m.lru, limit, now);
    case DoMarkSent(id, deadline) => ByIdUntouched(m, id, [], Evicted, 0, deadline);
    case DoExpireAuth(now, err) => ExpireAuthUntouched(m, m.lru, now, err);
    case DoRetry(id, delay, now) => ByIdUntouched(m, id, [], Evicted, delay, now);
    case DoRemove(key) =>
      UntouchedReflexive(m.flows);
      if key in m.byKey { OneFlowGentle(m.flows, m.byKey[key], m.flows[m.byKey[key]].Kill(Evicted)); }
    case DoRemoveExpired(now) => RemoveExpiredUntouched(m, m.lru, now);
    case DoClose => KillAllUntouched(m.flows, m.Tracked());
  }

  // ---- How the parts of the invariant move when one thread moves.

  lemma LocksStay<R>(threads: map<nat, Pc<R>>, sendMu: map<R, nat>, t: nat, pc: Pc<R>)
    requires LocksOk(threads, sendMu)
    requires if t in threads && threads[t].Holding() then pc.Holding() && pc.flow == threads[t].flow else !pc.Holding()
    ensures LocksOk(threads[t := pc], sendMu)
  {}

  lemma LocksTake<R>(threads: map<nat, Pc<R>>, sendMu: map<R, nat>, t: nat, pc: Pc<R>)
    requires LocksOk(threads, sendMu) && pc.Holding() && pc.flow !in sendMu
    requires t in threads && !threads[t].Holding()
    ensures LocksOk(threads[t := pc], sendMu[pc.flow := t])
  {}

  lemma LocksLeave<R>(threads: map<nat, Pc<R>>, sendMu: map<R, nat>, t: nat, pc: Pc<R>)
    requires LocksOk(threads, sendMu) && t in threads && threads[t].Holding() && !pc.Holding()
    ensures LocksOk(threads[t := pc], sendMu - {threads[t].flow})
  {}

  ghost function AuthOf(f: Flow): (nat, bool, Option<AuthError>, Token) {
    (f.authID, f.Signalled(), f.authErr, f.token)
  }

  // What PcOk looks at in a flow.
  ghost predicate SameAuth<R>(flows: map<R, Flow>, flows': map<R, Flow>) {
    forall r :: r in flows ==> r in flows' && AuthOf(flows'[r]) == AuthOf(flows[r])
  }

  lemma PcsMove<R>(threads: map<nat, Pc<R>>, flows: map<R, Flow>, flows': map<R, Flow>, t: nat, pc: Pc<R>)
    requires PcsOk(threads, flows) && (Untouched(flows, flows') || SameAuth(flows, flows')) && PcOk(pc, flows')
    ensures PcsOk(threads[t := pc], flows') && PcsOk(threads, flows')
  {}

  // Flushing bookkeeping survives a step of a thread that is not flushing and starts no flush.
  lemma FlushersStay<R>(s: Sys<R>, s': Sys<R>, t: nat)
    requires FlushersOk(s) && LocksOk(s.threads, s.sendMu) && t in s'.threads
    requires s'.threads == s.threads[t := s'.threads[t]]
    requires !s'.threads[t].Flushing? && (t in s.threads ==> !s.threads[t].Flushing?)
    requires forall r :: r in s.sendMu && s.sendMu[r] != t ==> r in s'.sendMu && s'.sendMu[r] == s.sendMu[r]
    requires s.wires.Keys <= s'.wires.Keys && forall r :: r in s'.wires ==> s'.wires[r].todo == s.WireOf(r).todo
    ensures FlushersOk(s')
  {
    forall u | u in s'.threads && s'.threads[u].Flushing?
      ensures s'.threads[u].todo == s'.WireOf(s'.threads[u].flow).todo != []
    {
      assert u != t && s.threads[u].Flushing?;
    }
  }

  lemma LogsStay<R>(s: Sys<R>, s': Sys<R>, t: nat)
    requires LogsOk(s) && t in s'.threads && s'.threads == s.threads[t := s'.threads[t]]
    requires !s'.threads[t].Accepted() && (t in s.threads ==> !s.threads[t].Accepted())
    requires s.wires.Keys <= s'.wires.Keys && forall r :: r in s'.wires ==> s'.wires[r].log == s.WireOf(r).log
    ensures LogsOk(s')
  {
    forall r | r in s'.wires ensures LogOk(r, s'.wires[r].log, s'.threads) {
      LogKeeps(r, s.WireOf(r).log, s.threads, t, s'.threads[t]);
    }
  }

  lemma LogKeeps<R>(r: R, log: seq<Entry>, threads: map<nat, Pc<R>>, t: nat, pc: Pc<R>)
    requires LogOk(r, log, threads) && (t in threads ==> !threads[t].Accepted())
    ensures LogOk(r, log, threads[t := pc])
    ensures forall i :: 0 <= i < |log| ==> log[i].call != t
  {
    forall i | 0 <= i < |log| ensures IsEntryOf(r, log[i], threads[t := pc]) && log[i].call != t {
      assert IsEntryOf(r, log[i], threads);
    }
  }

  // The call `t` is accepted on flow `q`.
  lemma LogsGrow<R>(s: Sys<R>, s': Sys<R>, t: nat, q: R, packet: Packet)
    requires LogsOk(s) && t in s'.threads && s'.threads == s.threads[t := s'.threads[t]]
    requires s'.threads[t].Accepted() && s'.threads[t].flow == q && s'.threads[t].packet == packet
    requires t in s.threads && !s.threads[t].Accepted()
    requires q in s'.wires && s'.wires == s.wires[q := s'.wires[q]]
    requires s'.wires[q].log == s.WireOf(q).log + [Entry(t, packet)]
    ensures LogsOk(s')
  {
    forall r | r in s'.wires ensures LogOk(r, s'.wires[r].log, s'.threads) {
      LogKeeps(r, s.WireOf(r).log, s.threads, t, s'.threads[t]);
      if r == q { LogAppend(q, s.WireOf(q).log, s'.threads, t, packet); }
    }
    forall u | u in s'.threads && s'.threads[u].Accepted()
      ensures Entry(u, s'.threads[u].packet) in s'.WireOf(s'.threads[u].flow).log
    {
      if u == t {
        assert s'.wires[q].log[|s.WireOf(q).log|] == Entry(t, packet);
      } else {
        assert Entry(u, s.threads[u].packet) in s.WireOf(s.threads[u].flow).log;
      }
    }
  }

  lemma LogAppend<R>(r: R, log: seq<Entry>, threads: map<nat, Pc<R>>, t: nat, packet: Packet)
    requires LogOk(r, log, threads) && IsEntryOf(r, Entry(t, packet), threads)
    requires forall i :: 0 <= i < |log| ==> log[i].call != t
    ensures LogOk(r, log + [Entry(t, packet)], threads)
  {
    var log' := log + [Entry(t, packet)];
    forall i | 0 <= i < |log'| ensures IsEntryOf(r, log'[i], threads) {
      if i < |log| { assert log'[i] == log[i]; }
    }
  }

  // Flows outside `r` as before, `r` as shown.
  lemma WiresMove<R>(s: Sys<R>, s': Sys<R>, r: R)
    requires WiresOk(s) && r in s.mgr.flows && s'.wires == s.wires[r := s'.WireOf(r)]
    requires r in s'.mgr.flows && s'.mgr.flows == s.mgr.flows[r := s'.mgr.flows[r]]
    requires WireOk(s'.mgr.flows[r], s'.WireOf(r))
    ensures WiresOk(s')
  {
    hide WireOk;
  }

  lemma WireGentle(f: Flow, f': Flow, w: Wire)
    requires WireOk(f, w) && Gentle(f, f')
    ensures WireOk(f', w)
  {
    assert !f.Signalled() ==> w.cached[..0] + [] == [];
  }

  lemma NewWire(f: Flow)
    requires f.Signalled() || f.pending == []
    ensures WireOk(f, NoWire)
  {}

  lemma WiresGentle<R>(s: Sys<R>, s': Sys<R>)
    requires WiresOk(s) && s'.wires == s.wires && Untouched(s.mgr.flows, s'.mgr.flows)
    ensures WiresOk(s')
  {
    hide WireOk, Gentle;
    forall r | r in s'.mgr.flows ensures WireOk(s'.mgr.flows[r], s'.WireOf(r)) {
      if r in s.mgr.flows { WireGentle(s.mgr.flows[r], s'.mgr.flows[r], s.WireOf(r)); } else { NewWire(s'.mgr.flows[r]); }
    }
  }

  // A step on the manager by whomever, with nothing else moving.
  lemma OtherKeeps<R>(s: Sys<R>, mgr: Manager<R>)
    requires PathsOk(s) && Untouched(s.mgr.flows, mgr.flows)
    ensures PathsOk(s.(mgr := mgr))
  {
    hide LocksOk, WiresOk, LogOk, PcsOk, Untouched;
    PcsMove(s.threads, s.mgr.flows, mgr.flows, 0, Answered);
    WiresGentle(s, s.(mgr := mgr));
  }

  // A thread moves without touching the manager, the wires or the lock it may hold.
  lemma ThreadKeeps<R>(s: Sys<R>, t: nat, pc: Pc<R>)
    requires PathsOk(s) && PcOk(pc, s.mgr.flows) && !pc.Flushing? && !pc.Accepted()
    requires t in s.threads ==> !s.threads[t].Flushing? && !s.threads[t].Accepted()
    requires if t in s.threads && s.threads[t].Holding() then pc.Holding() && pc.flow == s.threads[t].flow else !pc.Holding()
    ensures PathsOk(s.At(t, pc))
  {
    hide LocksOk, PcOk, WiresOk, FlushersOk, LogsOk, Untouched;
    LocksStay(s.threads, s.sendMu, t, pc);
    UntouchedReflexive(s.mgr.flows);
    PcsMove(s.threads, s.mgr.flows, s.mgr.flows, t, pc);
    FlushersStay(s, s.At(t, pc), t);
    LogsStay(s, s.At(t, pc), t);
    WiresFrame(s, s.At(t, pc));
  }

  lemma WiresFrame<R>(s: Sys<R>, s': Sys<R>)
    requires WiresOk(s) && s'.wires == s.wires && s'.mgr == s.mgr
    ensures WiresOk(s')
  {}

  lemma LeaveKeeps<R>(s: Sys<R>, t: nat, pc: Pc<R>)
    requires PathsOk(s) && t in s.threads && s.threads[t].Holding() && !s.threads[t].Flushing?
    requires PcOk(pc, s.mgr.flows) && !pc.Holding() && !pc.Accepted()
    ensures PathsOk(s.Leave(t, pc))
  {
    hide PcOk, WiresOk, FlushersOk, LogsOk, Untouched;
    var s' := s.Leave(t, pc);
    LocksLeave(s.threads, s.sendMu, t, pc);
    UntouchedReflexive(s.mgr.flows);
    PcsMove(s.threads, s.mgr.flows, s.mgr.flows, t, pc);
    FlushersStay(s, s', t);
    LogsStay(s, s', t);
    WiresFrame(s, s');
  }

  lemma LockKeeps<R>(s: Sys<R>, t: nat)
    requires PathsOk(s) && t in s.threads && (s.threads[t].Queueing? || s.threads[t].Answering?)
    requires s.threads[t].flow !in s.sendMu
    ensures PathsOk(LockStep(s, t))
  {
    hide WiresOk, FlushersOk, LogsOk, Untouched;
    var s' := LockStep(s, t);
    LocksTake(s.threads, s.sendMu, t, s'.threads[t]);
    UntouchedReflexive(s.mgr.flows);
    assert PcOk(s.threads[t], s.mgr.flows);
    PcsMove(s.threads, s.mgr.flows, s.mgr.flows, t, s'.threads[t]);
    FlushersStay(s, s', t);
    LogsStay(s, s', t);
    WiresFrame(s, s');
  }

  lemma WriteKeeps<R>(s: Sys<R>, a: Action<R>)
    requires PathsOk(s) && NoDangling(s.mgr) && a.Write? && a.t !in s.threads && a.spare !in s.mgr.flows
    ensures PathsOk(WriteStep(s, a))
  {
    hide PathsOk, NoDangling, Untouched, Manager.Tracked;
    var (mgr, r) := GetOrCreate(s.mgr, a.spare, a.key, a.appID, a.nodeGroupID, a.now);
    GetOrCreateUntouched(s.mgr, a.spare, a.key, a.appID, a.nodeGroupID, a.now);
    assert r in mgr.flows;
    hide GetOrCreate;
    OtherKeeps(s, mgr);
    ThreadKeeps(s.(mgr := mgr), a.t, Observing(r, a.meta, a.packet));
  }

  // What the thread `t` knows, and what becomes of its flow's packets.
  lemma PathKnown<R>(s: Sys<R>, t: nat)
    requires PathsOk(s) && t in s.threads
    ensures PcOk(s.threads[t], s.mgr.flows)
    ensures s.threads[t].Holding() ==> s.threads[t].flow in s.sendMu && s.sendMu[s.threads[t].flow] == t
    ensures !s.threads[t].Answered? ==> WireOk(s.mgr.flows[s.threads[t].flow], s.WireOf(s.threads[t].flow))
  {
    hide WireOk, LogsOk, FlushersOk;
  }

  lemma ObserveStepKeeps<R>(s: Sys<R>, t: nat, what: Sighting, now: int)
    requires PathsOk(s) && NoDangling(s.mgr) && t in s.threads
    requires s.threads[t].Observing? && s.threads[t].flow in s.mgr.flows
    ensures PathsOk(ObserveStep(s, t, what, now))
  {
    hide PathsOk, Untouched, NoDangling, Manager.Tracked;
    PathKnown(s, t);
    var pc := s.threads[t];
    var mgr := ObservePacket(s.mgr, s.mgr.flows[pc.flow].key, what, now);
    ObserveUntouched(s.mgr, s.mgr.flows[pc.flow].key, what, now);
    OtherKeeps(s, mgr);
    ThreadKeeps(s.(mgr := mgr), t, Queueing(pc.flow, pc.meta, pc.packet));
  }

  lemma CheckKeeps<R>(s: Sys<R>, t: nat)
    requires PathsOk(s) && t in s.threads && s.threads[t].Checking? && s.threads[t].flow in s.mgr.flows
    ensures PathsOk(CheckStep(s, t))
  {
    hide PathsOk;
    PathKnown(s, t);
    var pc := s.threads[t];
    var f := s.mgr.flows[pc.flow];
    if !f.Signalled() {
      ThreadKeeps(s, t, Caching(pc.flow, pc.meta, pc.packet));
    } else if f.authErr.Some? {
      LeaveKeeps(s, t, Returned(pc.flow, pc.packet, Failed(FlowFailed(f.authErr.value))));
    } else {
      ThreadKeeps(s, t, Sending(pc.flow, f.token, pc.packet));
    }
  }

  lemma AnswerKeeps<R>(s: Sys<R>, t: nat, id: nat, token: Token, err: Option<AuthError>)
    requires PathsOk(s) && t !in s.threads
    requires id in s.mgr.byID ==> s.mgr.byID[id] in s.mgr.flows && s.mgr.flows[s.mgr.byID[id]].authID == id
    ensures PathsOk(AnswerStep(s, t, id, token, err))
  {
    hide PathsOk;
    ThreadKeeps(s, t, AnswerStep(s, t, id, token, err).threads[t]);
  }

  // ---- The steps that move packets.

  // A packet accepted on the flow `r` by the thread `t`, which lets go of the flow.
  lemma AcceptKeeps<R>(s: Sys<R>, s': Sys<R>, t: nat, outcome: Outcome)
    requires PathsOk(s) && t in s.threads && s.threads[t].Holding() && (outcome.Written? || outcome.Kept?)
    requires s.threads[t].Caching? || s.threads[t].Sending?
    requires var pc, r := s.threads[t], s.threads[t].flow;
      && s'.threads == s.threads[t := Returned(r, pc.packet, outcome)] && s'.sendMu == s.sendMu - {r}
      && s'.wires == s.wires[r := s'.WireOf(r)]
      && s'.WireOf(r).log == s.WireOf(r).log + [Entry(t, pc.packet)] && s'.WireOf(r).todo == s.WireOf(r).todo
      && r in s'.mgr.flows && s'.mgr.flows == s.mgr.flows[r := s'.mgr.flows[r]]
      && SameAuth(s.mgr.flows, s'.mgr.flows) && WireOk(s'.mgr.flows[r], s'.WireOf(r))
    ensures PathsOk(s')
  {
    hide WireOk, LogOk, AuthOf, LogsOk, SameAuth;
    var pc, r := s.threads[t], s.threads[t].flow;
    assert PcOk(pc, s.mgr.flows);
    LocksLeave(s.threads, s.sendMu, t, s'.threads[t]);
    PcsMove(s.threads, s.mgr.flows, s'.mgr.flows, t, s'.threads[t]);
    WiresMove(s, s', r);
    FlushersStay(s, s', t);
    LogsGrow(s, s', t, r, pc.packet);
  }

  lemma PacketsAppend(log: seq<Entry>, e: Entry)
    ensures Packets(log + [e]) == Packets(log) + [e.packet]
  {}

  lemma FramesAppend(token: Token, packets: seq<Packet>, packet: Packet)
    ensures Frames(token, packets + [packet]) == Frames(token, packets) + [Frame(token, packet)]
  {}

  lemma CacheWire(f: Flow, w: Wire, meta: Meta, e: Entry)
    requires WireOk(f, w) && !f.Signalled()
    ensures WireOk(f.(meta := meta, pending := f.pending + [e.packet]), w.(cached := w.cached + [e.packet], log := w.log + [e]))
  {
    PacketsAppend(w.log, e);
    assert w.cached + w.direct == w.cached && w.cached + [e.packet] + w.direct == w.cached + [e.packet];
    assert w.cached[..0] == (w.cached + [e.packet])[..0];
  }

  lemma SameAuthReflexive<R>(flows: map<R, Flow>)
    ensures SameAuth(flows, flows)
  {}

  lemma SameAuthUpdate<R>(flows: map<R, Flow>, r: R, f: Flow)
    requires r in flows && AuthOf(f) == AuthOf(flows[r])
    ensures SameAuth(flows, flows[r := f])
  {}

  lemma CacheStepKeeps<R>(s: Sys<R>, t: nat)
    requires PathsOk(s) && t in s.threads && s.threads[t].Caching? && s.threads[t].flow in s.mgr.flows
    requires CachePacket(s.mgr, s.threads[t].flow, s.threads[t].meta, s.threads[t].packet).1 != NotTracked
    ensures PathsOk(CacheStep(s, t))
  {
    hide PathsOk, SameAuth, WireOk, LogsOk;
    PathKnown(s, t);
    var pc := s.threads[t];
    var f, w, e := s.mgr.flows[pc.flow], s.WireOf(pc.flow), Entry(t, pc.packet);
    var s' := CacheStep(s, t);
    if CachePacket(s.mgr, pc.flow, pc.meta, pc.packet).1 == Cached {
      CacheWire(f, w, pc.meta, e);
      SameAuthUpdate(s.mgr.flows, pc.flow, f.(meta := pc.meta, pending := f.pending + [e.packet]));
      AcceptKeeps(s, s', t, Kept);
    } else {
      LeaveKeeps(s, t, s'.threads[t]);
    }
  }

  lemma SendWire(f: Flow, w: Wire, e: Entry)
    requires WireOk(f, w) && f.Signalled() && f.authErr == None && w.todo == [] && |f.token| <= MAX_TOKEN
    ensures WireOk(f, w.(direct := w.direct + [e.packet], log := w.log + [e], out := w.out + [Frame(f.token, e.packet)]))
  {
    PacketsAppend(w.log, e);
    FramesAppend(f.token, w.cached[..w.flushed] + w.direct, e.packet);
    assert w.cached + (w.direct + [e.packet]) == w.cached + w.direct + [e.packet];
    assert w.cached[..w.flushed] + (w.direct + [e.packet]) == w.cached[..w.flushed] + w.direct + [e.packet];
  }

  // While another thread is inside, nothing waits for flushing.
  lemma NoFlusher<R>(s: Sys<R>, t: nat)
    requires LocksOk(s.threads, s.sendMu) && FlushersOk(s)
    requires t in s.threads && s.threads[t].Holding() && !s.threads[t].Flushing?
    ensures s.WireOf(s.threads[t].flow).todo == []
  {}

  lemma SendKeeps<R>(s: Sys<R>, t: nat, ok: bool)
    requires PathsOk(s) && t in s.threads && s.threads[t].Sending?
    ensures PathsOk(SendStep(s, t, ok))
  {
    hide LocksOk, PcsOk, FlushersOk, LogsOk, WiresOk, SameAuth, WireOk;
    NoFlusher(s, t);
    PathKnown(s, t);
    var pc := s.threads[t];
    var f, w, e := s.mgr.flows[pc.flow], s.WireOf(pc.flow), Entry(t, pc.packet);
    var s' := SendStep(s, t, ok);
    if |pc.token| > MAX_TOKEN || !ok {
      LeaveKeeps(s, t, s'.threads[t]);
    } else {
      SendWire(f, w, e);
      SameAuthReflexive(s.mgr.flows);
      AcceptKeeps(s, s', t, Written);
    }
  }

  // A completion meets no other thread that relies on the flow being unauthenticated or authenticated.
  lemma PcsComplete<R>(s: Sys<R>, t: nat, pc: Pc<R>, r: R, f: Flow)
    requires LocksOk(s.threads, s.sendMu) && PcsOk(s.threads, s.mgr.flows) && t in s.threads && s.threads[t].Holding()
    requires r == s.threads[t].flow && r in s.mgr.flows
    requires !s.mgr.flows[r].Signalled() && f.authID == s.mgr.flows[r].authID
    requires PcOk(pc, s.mgr.flows[r := f])
    ensures PcsOk(s.threads[t := pc], s.mgr.flows[r := f])
  {
    forall u | u in s.threads && u != t ensures PcOk(s.threads[u], s.mgr.flows[r := f]) {
      assert PcOk(s.threads[u], s.mgr.flows);
      if s.threads[u] != Answered && s.threads[u].flow == r {
        assert !s.threads[u].Holding();
      }
    }
  }

  lemma CompleteWire(f: Flow, w: Wire, token: Token)
    requires WireOk(f, w) && !f.Signalled()
    ensures WireOk(f.(pending := [], token := token).Signal(None), w.(todo := f.pending))
  {
    assert w.cached[..0] + [] == [];
    assert f.pending == w.cached[0..];
  }

  lemma CompleteStepKeeps<R>(s: Sys<R>, t: nat)
    requires Inv(s.mgr) && PathsOk(s) && t in s.threads && s.threads[t].Completing?
    ensures PathsOk(CompleteStep(s, t))
  {
    hide PathsOk, Inv, NoDangling, CompleteAuth, Untouched;
    PathKnown(s, t);
    var pc := s.threads[t];
    var (mgr, done) := CompleteAuth(s.mgr, pc.authID, pc.token, pc.err);
    CompleteDoesNot(s.mgr, pc.authID, pc.token, pc.err);
    if pc.err.Some? {
      ByIdUntouched(s.mgr, pc.authID, pc.token, pc.err.value, 0, 0);
      OtherKeeps(s, mgr);
      LeaveKeeps(s.(mgr := mgr), t, Answered);
    } else if done.NoCompletion? {
      LeaveKeeps(s, t, Answered);
    } else {
      SameFlow(s.mgr, pc.authID, pc.flow, pc.token);
      CompleteSucceeds(s, t);
    }
  }

  lemma CompleteDoesNot<R>(m: Manager<R>, id: nat, token: Token, err: Option<AuthError>)
    requires NoDangling(m)
    ensures var (mgr, done) := CompleteAuth(m, id, token, err);
      && (done.NoCompletion? ==> mgr == m) && (err.Some? && done.Completed? ==> done.packets == [])
  {}

  // The id a thread asked for still belongs to the flow it waited for: ids are never reused.
  lemma SameFlow<R>(m: Manager<R>, id: nat, r: R, token: Token)
    requires Inv(m) && r in m.flows && m.flows[r].authID == id && CompleteAuth(m, id, token, None).1.Completed?
    ensures var (mgr, done) := CompleteAuth(m, id, token, None);
      var f := m.flows[r];
      && !f.Signalled() && done == Completed(r, f.pending) && f.token == []
      && mgr == m.(flows := m.flows[r := f.(pending := [], token := token).Signal(None)])
      && CompletesFlow(m, id, r, token)
  {
    IdLeadsToTracked(m, id);
  }

  // What SameFlow says of a completion that succeeds.
  ghost predicate CompletesFlow<R>(m: Manager<R>, id: nat, r: R, token: Token) {
    && NoDangling(m) && r in m.flows && !m.flows[r].Signalled()
    && CompleteAuth(m, id, token, None) ==
         (m.(flows := m.flows[r := m.flows[r].(pending := [], token := token).Signal(None)]), Completed(r, m.flows[r].pending))
  }

  lemma CompleteSucceeds<R>(s: Sys<R>, t: nat)
    requires PathsOk(s) && t in s.threads && s.threads[t].Completing? && s.threads[t].err == None
    requires CompletesFlow(s.mgr, s.threads[t].authID, s.threads[t].flow, s.threads[t].token)
    ensures PathsOk(CompleteStep(s, t))
  {
    hide PathsOk, CompleteAuth, NoDangling;
    CompletedKeeps(s, CompleteStep(s, t), t);
  }

  // The flow of the thread `t` has its outcome, and what was cached is in the thread's hands, if anything.
  lemma CompletedKeeps<R>(s: Sys<R>, s': Sys<R>, t: nat)
    requires PathsOk(s) && t in s.threads && s.threads[t].Completing?
    requires var pc, r := s.threads[t], s.threads[t].flow;
      && r in s.mgr.flows && !s.mgr.flows[r].Signalled()
      && var f := s.mgr.flows[r];
         var flush := Flushing(r, pc.token, f.pending);
         && s'.mgr.flows == s.mgr.flows[r := f.(pending := [], token := pc.token).Signal(None)]
         && (s' == if f.pending == [] then s.(mgr := s'.mgr).Leave(t, Answered)
                   else s.(mgr := s'.mgr).At(t, flush).Put(r, s.WireOf(r).(todo := f.pending)))
    ensures PathsOk(s')
  {
    hide WireOk, LocksOk, PcsOk, FlushersOk, LogsOk, WiresOk;
    NoFlusher(s, t);
    PathKnown(s, t);
    CompletedWires(s, s', t);
    var pc, r := s.threads[t], s.threads[t].flow;
    PcsComplete(s, t, s'.threads[t], r, s'.mgr.flows[r]);
    if s.mgr.flows[r].pending == [] {
      LocksLeave(s.threads, s.sendMu, t, Answered);
      FlushersStay(s, s', t);
      LogsStay(s, s', t);
    } else {
      LocksStay(s.threads, s.sendMu, t, s'.threads[t]);
      FlushersStart(s, s', t);
      LogsStay(s, s', t);
    }
  }

  lemma CompletedWires<R>(s: Sys<R>, s': Sys<R>, t: nat)
    requires WiresOk(s) && t in s.threads && s.threads[t].Completing?
    requires var r, token := s.threads[t].flow, s.threads[t].token;
      && r in s.mgr.flows && !s.mgr.flows[r].Signalled() && s.WireOf(r).todo == []
      && s'.mgr.flows == s.mgr.flows[r := s.mgr.flows[r].(pending := [], token := token).Signal(None)]
      && s'.wires == if s.mgr.flows[r].pending == [] then s.wires
           else s.wires[r := s.WireOf(r).(todo := s.mgr.flows[r].pending)]
    ensures WiresOk(s')
  {
    var r := s.threads[t].flow;
    assert WireOk(s.mgr.flows[r], s.WireOf(r));
    hide WireOk;
    CompleteWire(s.mgr.flows[r], s.WireOf(r), s.threads[t].token);
    assert s.WireOf(r).(todo := []) == s.WireOf(r);
    WiresMoveOrStay(s, s', r);
  }

  lemma WiresMoveOrStay<R>(s: Sys<R>, s': Sys<R>, r: R)
    requires WiresOk(s) && r in s.mgr.flows && (s'.wires == s.wires || s'.wires == s.wires[r := s'.WireOf(r)])
    requires r in s'.mgr.flows && s'.mgr.flows == s.mgr.flows[r := s'.mgr.flows[r]]
    requires WireOk(s'.mgr.flows[r], s'.WireOf(r))
    ensures WiresOk(s')
  {
    hide WireOk;
  }

  // A flush of the holder's flow starts or goes on.
  lemma FlushersStart<R>(s: Sys<R>, s': Sys<R>, t: nat)
    requires FlushersOk(s) && LocksOk(s.threads, s.sendMu)
    requires LocksOk(s'.threads, s'.sendMu) && t in s.threads && s.threads[t].Holding()
    requires t in s'.threads && s'.threads == s.threads[t := s'.threads[t]]
    requires s'.threads[t].Flushing? && s'.threads[t].flow == s.threads[t].flow
    requires s'.sendMu == s.sendMu && s'.wires == s.wires[s.threads[t].flow := s'.WireOf(s.threads[t].flow)]
    requires s'.threads[t].todo == s'.WireOf(s.threads[t].flow).todo != []
    ensures FlushersOk(s')
  {}

  // A flush of the holder's flow ends.
  lemma FlushersEnd<R>(s: Sys<R>, s': Sys<R>, t: nat)
    requires FlushersOk(s) && LocksOk(s.threads, s.sendMu) && t in s.threads && s.threads[t].Holding()
    requires s'.threads == s.threads[t := Answered]
    requires var r := s.threads[t].flow;
      s'.sendMu == s.sendMu - {r} && s'.wires == s.wires[r := s'.WireOf(r)] && s'.WireOf(r).todo == []
    ensures FlushersOk(s')
  {}

  lemma FlushWire(f: Flow, w: Wire)
    requires WireOk(f, w) && f.Signalled() && f.authErr == None && w.todo != []
    ensures |f.token| <= MAX_TOKEN ==>
              WireOk(f, w.(flushed := w.flushed + 1, todo := w.todo[1..], out := w.out + [Frame(f.token, w.todo[0])]))
    ensures WireOk(f, w.(todo := [], aborted := true))
  {
    assert w.direct == [];
    assert w.cached[..w.flushed] + [] == w.cached[..w.flushed];
    assert w.cached[..w.flushed + 1] + [] == w.cached[..w.flushed] + [w.todo[0]];
    FramesAppend(f.token, w.cached[..w.flushed], w.todo[0]);
    assert w.todo[1..] == w.cached[w.flushed + 1..];
  }

  lemma FlushKeeps<R>(s: Sys<R>, t: nat, ok: bool)
    requires PathsOk(s) && t in s.threads && s.threads[t].Flushing? && s.threads[t].todo != []
    ensures PathsOk(FlushStep(s, t, ok))
  {
    hide WireOk, LogsOk, LocksOk, PcsOk, WiresOk, Untouched;
    PathKnown(s, t);
    var pc := s.threads[t];
    var r := pc.flow;
    FlushWire(s.mgr.flows[r], s.WireOf(r));
    var s' := FlushStep(s, t, ok);
    UntouchedReflexive(s.mgr.flows);
    PcsMove(s.threads, s.mgr.flows, s.mgr.flows, t, s'.threads[t]);
    WiresMove(s, s', r);
    LogsStay(s, s', t);
    if s'.threads[t] == Answered {
      LocksLeave(s.threads, s.sendMu, t, Answered);
      FlushersEnd(s, s', t);
    } else {
      LocksStay(s.threads, s.sendMu, t, s'.threads[t]);
      FlushersStart(s, s', t);
    }
  }

  // The manager under a step of a thread moves as under one of its own operations, or not at all.
  lemma ManagerKeeps<R>(s: Sys<R>, a: Action<R>)
    requires Inv(s.mgr) && Enabled(s, a)
    ensures Inv(Next(s, a).mgr)
  {
    hide Inv, NoDangling, Evolves, Step, GetOrCreate, ObservePacket, CachePacket, CompleteAuth;
    match a
    case Other(op) => StepKeeps(s.mgr, op);
    case Write(_, spare, key, appID, group, now, _, _) => GetOrCreateKeeps(s.mgr, spare, key, appID, group, now);
    case Observe(t, what, now) => ObserveKeeps(s.mgr, s.mgr.flows[s.threads[t].flow].key, what, now);
    case Cache(t) => CacheKeeps(s.mgr, s.threads[t].flow, s.threads[t].meta, s.threads[t].packet);
    case Complete(t) => CompleteKeeps(s.mgr, s.threads[t].authID, s.threads[t].token, s.threads[t].err);
    case _ =>
  }

  // Every step of every thread, and everything others do in between, keeps the invariant.
  lemma SysStepKeeps<R>(s: Sys<R>, a: Action<R>)
    requires SysInv(s) && Enabled(s, a)
    ensures SysInv(Next(s, a))
  {
    hide PathsOk, Inv, NoDangling, Step, Untouched, CachePacket;
    ManagerKeeps(s, a);
    match a
    case Other(op) =>
      OthersAreGentle(s.mgr, op);
      OtherKeeps(s, Step(s.mgr, op));
    case Write(_, _, _, _, _, _, _, _) => WriteKeeps(s, a);
    case Observe(t, what, now) => ObserveStepKeeps(s, t, what, now);
    case Lock(t) => LockKeeps(s, t);
    case Check(t) => CheckKeeps(s, t);
    case Cache(t) =>
      NotTrackedUnreachable(s.mgr, s.threads[t].flow, s.threads[t].meta, s.threads[t].packet);
      CacheStepKeeps(s, t);
    case Send(t, ok) => SendKeeps(s, t, ok);
    case Answer(t, id, token, err) =>
      KeysKnown(s.mgr);
      if id in s.mgr.byID { IdLeadsToTracked(s.mgr, id); }
      AnswerKeeps(s, t, id, token, err);
    case Complete(t) => CompleteStepKeeps(s, t);
    case Flush(t, ok) => FlushKeeps(s, t, ok);
  }

  lemma StartOk<R>(ttl: int, maxEntries: nat)
    requires maxEntries >= 1
    ensures SysInv(Start<R>(ttl, maxEntries))
  {
    NewManagerOk<R>(ttl, maxEntries);
  }

  lemma {:induction false} SysRunKeeps<R>(states: seq<Sys<R>>, actions: seq<Action<R>>, j: nat)
    requires IsSysRun(states, actions) && SysInv(states[0]) && j < |states|
    ensures SysInv(states[j])
    decreases j
  {
    hide SysInv, Next, Enabled;
    if j > 0 {
      SysRunKeeps(states, actions, j - 1);
      var a := actions[j - 1];
      SysStepKeeps(states[j - 1], a);
    }
  }

  // ---- What this says about every run from the start.

  // `out` carries `log`, under the flow's token, up to a missing stretch at the end of the cached part.
  ghost predicate InOrder(out: seq<Frame>, token: Token, cached: seq<Packet>, direct: seq<Packet>) {
    exists n: nat :: n <= |cached| && out == Frames(token, cached[..n] + direct)
  }

  // The frames of a flow, against its accepted packets in the order they were accepted: cached ones come
  // before those written directly, none is written twice or out of turn, and all carry the flow's token.
  // Nothing goes out before the authentication; afterwards everything accepted has gone out, unless a
  // flush is under way or broke off, which lost the rest of the cache and nothing else.
  lemma FramesInOrder<R>(states: seq<Sys<R>>, actions: seq<Action<R>>, ttl: int, maxEntries: nat, j: nat, r: R)
    requires IsSysRun(states, actions) && maxEntries >= 1 && states[0] == Start(ttl, maxEntries) && j < |states|
    requires r in states[j].mgr.flows
    ensures var s := states[j];
      var f, w := s.mgr.flows[r], s.WireOf(r);
      && Packets(w.log) == w.cached + w.direct
      && InOrder(w.out, f.token, w.cached, w.direct) && (w.out != [] ==> |f.token| <= MAX_TOKEN)
      && (!f.Signalled() ==> w.out == [] && w.direct == [] && f.pending == w.cached)
      && (f.Signalled() && f.authErr.Some? ==> w.out == [] && w.direct == [])
      && (f.Signalled() && f.authErr == None && !(r in s.sendMu && s.sendMu[r] in s.threads && s.threads[s.sendMu[r]].Flushing?) ==>
            (w.out == Frames(f.token, Packets(w.log)) <==> !w.aborted))
  {
    hide Inv, NoDangling, Enabled, Next, WireOk, LocksOk, PcsOk, LogsOk, InOrder;
    StartOk<R>(ttl, maxEntries);
    SysRunKeeps(states, actions, j);
    var s := states[j];
    WireSays(s.mgr.flows[r], s.WireOf(r));
  }

  // One flow's history when its authentication is unanswered, failed, or succeeded and nothing is left to flush.
  lemma WireSays(f: Flow, w: Wire)
    requires WireOk(f, w)
    ensures Packets(w.log) == w.cached + w.direct && InOrder(w.out, f.token, w.cached, w.direct)
    ensures w.out != [] ==> |f.token| <= MAX_TOKEN
    ensures !f.Signalled() ==> w.out == [] && w.direct == [] && f.pending == w.cached
    ensures f.Signalled() && f.authErr.Some? ==> w.out == [] && w.direct == []
    ensures f.Signalled() && f.authErr == None && w.todo == [] ==> (w.out == Frames(f.token, Packets(w.log)) <==> !w.aborted)
  {
    assert w.out == Frames(f.token, w.cached[..w.flushed] + w.direct);
    assert w.cached[w.flushed..] == [] ==> w.cached[..w.flushed] == w.cached;
  }

  // Every call that reported success had its packet written, cached or dropped because the cache was full:
  // the log holds it exactly once, and only calls that were written or cached. No call fell through the
  // two fallbacks of cachePacket.
  lemma NoSilentLoss<R>(states: seq<Sys<R>>, actions: seq<Action<R>>, ttl: int, maxEntries: nat, j: nat, t: nat)
    requires IsSysRun(states, actions) && maxEntries >= 1 && states[0] == Start(ttl, maxEntries) && j < |states|
    requires t in states[j].threads && states[j].threads[t].Returned?
    ensures var pc := states[j].threads[t];
      var log := states[j].WireOf(pc.flow).log;
      && pc.outcome != Lost && pc.outcome != Failed(FlowEvicted)
      && ((pc.outcome == Written || pc.outcome == Kept) <==> Entry(t, pc.packet) in log)
      && (forall i, k :: 0 <= i < |log| && 0 <= k < |log| && log[i].call == log[k].call ==> i == k)
  {
    hide Inv, NoDangling, Enabled, Next, LocksOk, PcsOk, WiresOk, FlushersOk, LogsOk;
    StartOk<R>(ttl, maxEntries);
    SysRunKeeps(states, actions, j);
    PathKnown(states[j], t);
    LogsOf(states[j], t);
  }

  lemma LogsOf<R>(s: Sys<R>, t: nat)
    requires LogsOk(s) && t in s.threads && s.threads[t].Returned?
    ensures var log := s.WireOf(s.threads[t].flow).log;
      && (s.threads[t].Accepted() <==> Entry(t, s.threads[t].packet) in log)
      && (forall i, k :: 0 <= i < |log| && 0 <= k < |log| && log[i].call == log[k].call ==> i == k)
  {
    var log := s.WireOf(s.threads[t].flow).log;
    assert LogOk(s.threads[t].flow, log, s.threads);
    if Entry(t, s.threads[t].packet) in log {
      var i :| 0 <= i < |log| && log[i] == Entry(t, s.threads[t].packet);
      assert IsEntryOf(s.threads[t].flow, log[i], s.threads);
    }
  }

  // The lock is what prevents it: a call still caching after its flow was authenticated would lose its
  // packet and report success. No reachable state is like that.
  lemma LateCachingWouldLose<R>(s: Sys<R>, t: nat)
    requires Inv(s.mgr) && Enabled(s, Cache(t))
    requires s.mgr.flows[s.threads[t].flow].Signalled() && s.mgr.flows[s.threads[t].flow].authErr == None
    ensures CacheStep(s, t).threads[t].outcome == Lost
    ensures CacheStep(s, t).WireOf(s.threads[t].flow) == s.WireOf(s.threads[t].flow)
    ensures !SysInv(s)
  {
    hide Inv, NoDangling;
    assert !PcOk(s.threads[t], s.mgr.flows);
  }

  // ---- The uninterrupted call is one of the interleavings.

  // The steps of thread `t` from where it holds the flow to its return, with nobody in between.
  ghost function RestOfWrite<R>(s: Sys<R>, t: nat, ok: bool): (s': Sys<R>)
    requires Enabled(s, Check(t))
    ensures t in s'.threads
  {
    var s2 := CheckStep(s, t);
    if s2.threads[t].Caching? then CacheStep(s2, t) else if s2.threads[t].Sending? then SendStep(s2, t, ok) else s2
  }

  lemma AloneIsAnInterleaving<R>(s: Sys<R>, t: nat, ok: bool)
    requires Enabled(s, Check(t))
    ensures var pc, s' := s.threads[t], RestOfWrite(s, t, ok);
      var (mgr, outcome, frames) := WriteAlone(s.mgr, pc.flow, pc.meta, pc.packet, ok);
      && s'.mgr == mgr && s'.threads[t] == Returned(pc.flow, pc.packet, outcome)
      && s'.WireOf(pc.flow).out == s.WireOf(pc.flow).out + frames
  {
    hide NoDangling;
    var pc := s.threads[t];
    assert s.WireOf(pc.flow).out + [] == s.WireOf(pc.flow).out;
  }

  // What becomes of the packet of such a call. Before the answer it is the last one in the cache, or the
  // cache is full; after a failure the caller is told which; after a success it is in a frame of its own,
  // unless the token does not fit its length byte or the connection fails.
  lemma AloneLosesNothing<R>(m: Manager<R>, r: R, meta: Meta, packet: Packet, ok: bool)
    requires Inv(m) && r in m.flows
    ensures var f := m.flows[r];
      var (m', outcome, frames) := WriteAlone(m, r, meta, packet, ok);
      && (!f.Signalled() && |f.pending| < PENDING_LIMIT ==>
            outcome == Kept && frames == []
            && m' == m.(flows := m.flows[r := f.(meta := meta, pending := f.pending + [packet])]))
      && (!f.Signalled() && |f.pending| == PENDING_LIMIT ==> outcome == DroppedFull && frames == [] && m' == m)
      && (f.Signalled() && f.authErr.Some? ==> outcome == Failed(FlowFailed(f.authErr.value)) && frames == [] && m' == m)
      && (f.Signalled() && f.authErr.None? ==>
            && m' == m
            && outcome == (if |f.token| > MAX_TOKEN then Failed(TokenTooLong) else if ok then Written else Failed(WriteError))
            && frames == if outcome == Written then [Frame(f.token, packet)] else [])
  {
    if r in m.Tracked() { TrackedUnderOwnNames(m, r); }
    hide IdsAgree, IdsUnique, Distinct;
  }

  // A flush with nobody in between, on a connection that takes `takes` more frames.
  ghost function RestOfFlush<R>(s: Sys<R>, t: nat, takes: nat): (s': Sys<R>)
    requires t in s.threads && s.threads[t].Flushing? && s.threads[t].todo != []
    decreases |s.threads[t].todo|
  {
    var s1 := FlushStep(s, t, takes > 0);
    if s1.threads[t].Flushing? then RestOfFlush(s1, t, takes - 1) else s1
  }

  // It puts the packets on the connection in order up to the first failure, which it records.
  lemma {:induction false} FlushAlone<R>(s: Sys<R>, t: nat, takes: nat)
    requires t in s.threads && s.threads[t].Flushing? && s.threads[t].todo != []
    ensures var pc, s' := s.threads[t], RestOfFlush(s, t, takes);
      var w, w' := s.WireOf(pc.flow), s'.WireOf(pc.flow);
      var n := Flushed(pc.token, pc.todo, takes);
      && t in s'.threads && s'.threads[t] == Answered && s'.mgr == s.mgr
      && w'.out == w.out + Frames(pc.token, pc.todo[..n])
      && (w'.aborted <==> w.aborted || n < |pc.todo|)
      && (n == |pc.todo| <==> |pc.token| <= MAX_TOKEN && takes >= |pc.todo|)
    decreases |s.threads[t].todo|
  {
    hide Frames, Flushed, FlushStep, Sys.WireOf, Sys.Leave;
    var pc, s1 := s.threads[t], FlushStep(s, t, takes > 0);
    FlushStepIs(s, t, takes > 0);
    if s1.threads[t].Flushing? {
      FlushAlone(s1, t, takes - 1);
      FlushedOneMore(pc.token, pc.todo, takes);
      var w, n := s.WireOf(pc.flow), Flushed(pc.token, pc.todo, takes);
      assert w.out + Frames(pc.token, [pc.todo[0]]) + Frames(pc.token, pc.todo[1..n])
          == w.out + (Frames(pc.token, [pc.todo[0]]) + Frames(pc.token, pc.todo[1..n]));
    } else {
      FlushedLast(pc.token, pc.todo, takes);
      assert s.WireOf(pc.flow).out + [] == s.WireOf(pc.flow).out;
    }
  }

  lemma FlushStepIs<R>(s: Sys<R>, t: nat, ok: bool)
    requires t in s.threads && s.threads[t].Flushing? && s.threads[t].todo != []
    ensures var pc, s' := s.threads[t], FlushStep(s, t, ok);
      var w, w' := s.WireOf(pc.flow), s'.WireOf(pc.flow);
      && t in s'.threads && s'.mgr == s.mgr
      && if |pc.token| > MAX_TOKEN || !ok then s'.threads[t] == Answered && w'.aborted && w'.out == w.out
         else w'.aborted == w.aborted && w'.out == w.out + [Frame(pc.token, pc.todo[0])]
              && s'.threads[t] == if |pc.todo| == 1 then Answered else Flushing(pc.flow, pc.token, pc.todo[1..])
  {}

  // An answer handled with nobody in between: looked up, locked, completed, flushed.
  ghost function AnsweredAlone<R>(s: Sys<R>, t: nat, authID: nat, token: Token, err: Option<AuthError>, takes: nat): Sys<R>
    requires Inv(s.mgr) && authID in s.mgr.byID
  {
    var s3 := CompleteStep(LockStep(AnswerStep(s, t, authID, token, err), t), t);
    if s3.threads[t].Flushing? then RestOfFlush(s3, t, takes) else s3
  }

  // The flow gets its outcome, and after a success its cached packets go out under the token in order, as
  // many of them as the connection takes; after a failure nothing does.
  lemma AnswerAlone<R>(s: Sys<R>, t: nat, authID: nat, token: Token, err: Option<AuthError>, takes: nat)
    requires Inv(s.mgr) && authID in s.mgr.byID && !s.mgr.flows[s.mgr.byID[authID]].Signalled()
    ensures var r, f := s.mgr.byID[authID], s.mgr.flows[s.mgr.byID[authID]];
      var s' := AnsweredAlone(s, t, authID, token, err, takes);
      var n := if err.Some? || |token| > MAX_TOKEN then 0 else if takes < |f.pending| then takes else |f.pending|;
      && t in s'.threads && s'.threads[t] == Answered && r in s'.mgr.flows
      && s'.mgr.flows[r] == f.(token := token, pending := [], signals := 1, authErr := err)
      && s'.WireOf(r).out == s.WireOf(r).out + Frames(token, f.pending[..n])
      && (s'.WireOf(r).aborted <==> s.WireOf(r).aborted || (err.None? && n < |f.pending|))
  {
    hide Inv, RestOfFlush, CompleteAuth;
    var r := s.mgr.byID[authID];
    var f := s.mgr.flows[r];
    ConntrackLifetime.AnswerArrives(s.mgr, authID, token, err);
    var s3 := CompleteStep(LockStep(AnswerStep(s, t, authID, token, err), t), t);
    assert s3.WireOf(r).out == s.WireOf(r).out;
    if s3.threads[t].Flushing? {
      FlushAlone(s3, t, takes);
    } else {
      assert Frames(token, f.pending[..0]) == [];
    }
  }

  lemma FlushedOneMore(token: Token, packets: seq<Packet>, takes: nat)
    requires |packets| > 1 && takes > 0 && |token| <= MAX_TOKEN
    ensures var n := Flushed(token, packets, takes);
      && n <= |packets| && n == 1 + Flushed(token, packets[1..], takes - 1) && packets[1..][..n - 1] == packets[1..n]
      && Frames(token, [packets[0]]) == [Frame(token, packets[0])]
      && Frames(token, packets[..n]) == Frames(token, [packets[0]]) + Frames(token, packets[1..n])
  {}

  lemma FlushedLast(token: Token, packets: seq<Packet>, takes: nat)
    requires packets != [] && (|token| > MAX_TOKEN || takes == 0 || |packets| == 1)
    ensures var n := Flushed(token, packets, takes);
      && n == (if |token| > MAX_TOKEN || takes == 0 then 0 else 1)
      && Frames(token, packets[..n]) == if n == 0 then [] else [Frame(token, packets[0])]
  {}
}
