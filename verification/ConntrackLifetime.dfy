// How long a flow lives and what its owner is told: expiry, reuse under the same key, the schedule of
// authentication requests, and the error that ends an unanswered one.
module ConntrackLifetime {
  import opened Bytes
  import opened Lists
  import TcpTrack
  import opened Conntrack
  import opened ConntrackInvariant

  // ---- What getOrCreate hands out.

  // A new flow is the caller's: for its key, application and node group, seen now and kept for a minute,
  // with an id of its own, nothing cached, asked for or charged; only a closed manager has already
  // signalled it. A flow that is found is as it was, but for when it was last seen.
  lemma HandedOut<R>(m: Manager<R>, spare: R, key: Key, appID: string, nodeGroupID: string, now: int)
    requires Inv(m) && spare !in m.flows
    ensures var (m', r) := GetOrCreate(m, spare, key, appID, nodeGroupID, now);
      && r in m'.flows
      && (r != spare ==> r in m.flows && m.flows[r].key == key && m'.flows[r] == m.flows[r].(lastSeen := now))
      && (r == spare ==>
            var f := m'.flows[r];
            && f.key == key && f.appID == appID && f.nodeGroupID == nodeGroupID && f.authID == m.nextAuthID + 1
            && f.token == [] && f.pending == [] && !f.started && f.timeouts == 0 && f.deadline == None && f.retryAt == None
            && f.lastSeen == now && f.expiresAt == now + DEFAULT_TTL && f.track.state.Reset?
            && (f.Signalled() <==> m.closed) && f.authErr == if m.closed then Some(ManagerClosed) else None)
  {
    hide Inv, RemoveExpired, AddFlow, Evolves;
    KeysKnown(m);
    var m1 := RemoveExpired(m, m.lru, now);
    RemoveExpiredKeeps(m, m.lru, now);
    KeysKnown(m1);
    if key in m1.byKey {
      KeyLeadsToTracked(m1, key);
    } else {
      Added(m1, spare, NewFlow(key, m1.nextAuthID + 1, appID, nodeGroupID, now));
    }
  }

  lemma Added<R>(m: Manager<R>, spare: R, f: Flow)
    requires NoDangling(m)
    ensures spare in AddFlow(m, spare, f).flows
    ensures AddFlow(m, spare, f).flows[spare] == if m.closed then f.Signal(Some(ManagerClosed)) else f
  {}

  // ---- Expiry.

  // A pass removes exactly the expired flows it comes past, and tells whoever still waits for them.
  lemma {:induction false} ExpiryRemovesExactly<R>(m: Manager<R>, rs: seq<R>, now: int, r: R)
    requires NoDangling(m) && Distinct(m.lru) && Distinct(rs) && Members(rs) <= m.Tracked() && r in m.Tracked()
    ensures var m' := RemoveExpired(m, rs, now);
      && (r in m'.Tracked() <==> !(r in Members(rs) && m.flows[r].Expired(m.ttl, now)))
      && m'.flows[r] == (if r in m'.Tracked() then m.flows[r] else m.flows[r].Kill(Evicted))
    decreases rs
  {
    hide Remove, Flow.Kill, Flow.Expired;
    if rs != [] {
      var q := rs[0];
      if m.flows[q].Expired(m.ttl, now) {
        RemoveShape(m, q, Evicted);
        var m1 := Remove(m, q, Evicted);
        if q == r { StaysRemoved(m1, rs[1..], now, r); } else { ExpiryRemovesExactly(m1, rs[1..], now, r); }
      } else {
        ExpiryRemovesExactly(m, rs[1..], now, r);
      }
    }
  }

  lemma {:induction false} StaysRemoved<R>(m: Manager<R>, rs: seq<R>, now: int, r: R)
    requires NoDangling(m) && Distinct(m.lru) && Distinct(rs) && Members(rs) <= m.Tracked()
    requires r in m.flows && r !in m.Tracked()
    ensures var m' := RemoveExpired(m, rs, now); r !in m'.Tracked() && m'.flows[r] == m.flows[r]
    decreases rs
  {
    hide Remove, Flow.Kill, Flow.Expired;
    if rs != [] {
      if m.flows[rs[0]].Expired(m.ttl, now) {
        RemoveShape(m, rs[0], Evicted);
        StaysRemoved(Remove(m, rs[0], Evicted), rs[1..], now, r);
      } else {
        StaysRemoved(m, rs[1..], now, r);
      }
    }
  }

  // A key leads to the same flow again exactly as long as that flow has not expired.
  lemma SameFlowUntilExpired<R>(m: Manager<R>, spare: R, key: Key, appID: string, nodeGroupID: string, now: int)
    requires Inv(m) && spare !in m.flows && key in m.byKey
    ensures var r := m.byKey[key];
      GetOrCreate(m, spare, key, appID, nodeGroupID, now).1 == (if m.flows[r].Expired(m.ttl, now) then spare else r)
  {
    hide Inv, RemoveExpired, AddFlow, Flow.Expired;
    var r := m.byKey[key];
    var m1 := RemoveExpired(m, m.lru, now);
    KeyLeadsToTracked(m, key);
    KeysKnown(m);
    ExpiryRemovesExactly(m, m.lru, now, r);
    RemoveExpiredKeeps(m, m.lru, now);
    if m.flows[r].Expired(m.ttl, now) {
      if key in m1.byKey {
        KeyLeadsToTracked(m1, key);
        TrackedUnderOwnNames(m, m1.byKey[key]);
      }
    } else {
      TrackedUnderOwnNames(m1, r);
    }
  }

  // How long a sighting keeps a flow alive, where the manager sets no lifetime of its own.
  function Lifetime(f: Flow, what: Sighting): int {
    match what
    case Tcp(segment) => TcpTrack.Observe(f.track, segment).ttl
    case Udp => UDP_TTL
    case Icmp => ICMP_TTL
    case NotIPv4 => DEFAULT_TTL
    case BrokenTcp => DEFAULT_TTL
    case OtherProtocol(_) => DEFAULT_TTL
  }

  // A seen flow expires exactly when its lifetime is over; a TCP flow's lifetime is one its state allows.
  lemma SeenFlowLives<R>(m: Manager<R>, key: Key, what: Sighting, now: int, later: int, history: seq<TcpTrack.Segment>)
    requires Inv(m) && key in m.byKey && m.flows[m.byKey[key]].track == TcpTrack.Run(history)
    ensures var r := m.byKey[key];
      var f := ObservePacket(m, key, what, now).flows[r];
      && (f.Expired(m.ttl, later) <==> later >= now + if m.ttl > 0 then m.ttl else Lifetime(m.flows[r], what))
      && f.track == TcpTrack.Run(if what.Tcp? then history + [what.segment] else history)
      && (what.Tcp? ==> TcpTrack.TtlAllowed(f.track))
  {
    hide Inv, TcpTrack.Observe, TcpTrack.Run, TcpTrack.TtlAllowed;
    if what.Tcp? {
      TcpTrack.RunAppend(history, what.segment);
      TcpTrack.StateIsJustified(history + [what.segment]);
    }
  }

  // ---- The schedule of requests.

  // A server that asks for a retry gets one after the delay, not before, and no timeout meanwhile.
  lemma RetryWaits<R>(m: Manager<R>, id: nat, delay: int, now: int, later: int)
    requires NoDangling(m) && id in m.byID && !m.flows[m.byID[id]].Signalled()
    ensures var (m', ok) := RetryAuth(m, id, delay, now);
      var f := m'.flows[m.byID[id]];
      && ok && !f.Overdue(later)
      && (f.Eligible(later) <==> f.pending != [] && later >= now + delay)
      && f.pending == m.flows[m.byID[id]].pending
  {}

  // A sent request is not sent again before its deadline has passed or the server asks for it.
  lemma SentWaits<R>(m: Manager<R>, id: nat, deadline: int, later: int)
    requires NoDangling(m) && id in m.byID && !m.flows[m.byID[id]].Signalled() && m.flows[m.byID[id]].started
    ensures var f := MarkAuthSent(m, id, deadline).flows[m.byID[id]];
      (f.Overdue(later) <==> later >= deadline) && !f.Eligible(later)
  {}

  // A request that is charged with a timeout goes out again at once; the third charge is the end.
  lemma ThreeAttempts<R>(m: Manager<R>, r: R, now: int, later: int, err: AuthError)
    requires Inv(m) && r in m.Tracked() && m.flows[r].Overdue(now)
    ensures var (m', gaveUp) := Charge(m, r, now, err);
      var f, f' := m.flows[r], m'.flows[r];
      && (gaveUp <==> f.timeouts == 2)
      && (!gaveUp ==> !f'.Overdue(later) && f'.timeouts == f.timeouts + 1 && f'.pending == f.pending
                      && (f'.Eligible(later) <==> f.pending != [] && later >= now))
      && (gaveUp ==> f'.Signalled() && f'.pending == [] && (f'.authErr == Some(err) || f.Signalled()))
  {
    hide IdsUnique, KeysAgree, IdsAgree;
    TrackedUnderOwnNames(m, r);
  }

  // ---- What waiting callers are told.

  // Whoever waits for a flow that is taken out of the index learns why; a flow that was authenticated
  // keeps that result.
  lemma RemovedFlowsAreTold<R>(m: Manager<R>, key: Key, r: R)
    requires Inv(m) && r in m.Tracked()
    ensures var f, f' := m.flows[r], Close(m).flows[r];
      f'.pending == [] && f'.authErr == (if f.Signalled() then f.authErr else Some(ManagerClosed))
    ensures key in m.byKey && m.byKey[key] == r ==>
              var f, f' := m.flows[r], RemoveKey(m, key).flows[r];
              && f'.pending == [] && r !in RemoveKey(m, key).Tracked()
              && f'.authErr == if f.Signalled() then f.authErr else Some(Evicted)
  {
    hide Inv, Distinct, Members;
    KeysKnown(m);
    TrackedUnderOwnNames(m, r);
    RemoveShape(m, r, Evicted);
  }

  // An answer reaches the flow it is for: the outcome and the token are the flow's, a success hands over
  // what was cached, a failure takes the flow out of the index, and nothing else happens to anybody.
  lemma AnswerArrives<R>(m: Manager<R>, id: nat, token: Token, err: Option<AuthError>)
    requires Inv(m) && id in m.byID && !m.flows[m.byID[id]].Signalled()
    ensures var r, f := m.byID[id], m.flows[m.byID[id]];
      var (m', done) := CompleteAuth(m, id, token, err);
      && done == Completed(r, if err.None? then f.pending else []) && m'.flows.Keys == m.flows.Keys
      && m'.flows[r] == f.(token := token, pending := [], signals := 1, authErr := err)
      && (forall q :: q in m.flows && q != r ==> m'.flows[q] == m.flows[q] && (q in m'.Tracked() <==> q in m.Tracked()))
      && (r in m'.Tracked() <==> err.None?)
  {
    hide Inv, Distinct, Members;
    KeysKnown(m);
    IdLeadsToTracked(m, id);
    WithoutMembers(m.lru, m.byID[id]);
  }

  // A packet is cached exactly if its flow is unanswered and has room, at the end and with the addresses
  // to ask for; an answered flow's outcome is reported, and nothing changes in either other case.
  lemma CachedExactly<R>(m: Manager<R>, r: R, meta: Meta, packet: Packet)
    requires Inv(m) && r in m.flows
    ensures var f := m.flows[r];
      var (m', res) := CachePacket(m, r, meta, packet);
      && (res == Cached <==> !f.Signalled() && |f.pending| < PENDING_LIMIT)
      && (res == CacheFull <==> !f.Signalled() && |f.pending| == PENDING_LIMIT)
      && (f.Signalled() ==> res == AlreadyDone(f.authErr))
      && (res == Cached ==> m' == m.(flows := m.flows[r := f.(meta := meta, pending := f.pending + [packet])]))
      && (res != Cached ==> m' == m)
  {
    if r in m.Tracked() { TrackedUnderOwnNames(m, r); }
    hide IdsAgree, IdsUnique, Distinct;
  }

  // A flow that has packets to send and was never asked for is due at once, whatever the time; with a
  // request under way, or without packets, it is not.
  lemma CachedIsDue<R>(m: Manager<R>, r: R, meta: Meta, packet: Packet, now: int)
    requires Inv(m) && r in m.flows && !m.flows[r].Signalled() && |m.flows[r].pending| < PENDING_LIMIT
    ensures var f, f' := m.flows[r], CachePacket(m, r, meta, packet).0.flows[r];
      && (f.started ==> !f'.Eligible(now)) && (f.pending == [] ==> !f.Eligible(now))
      && (!f.started && f.retryAt == None ==> f'.Eligible(now))
  {
    CachedExactly(m, r, meta, packet);
    hide CachePacket;
  }

  // A sighting moves a flow's clock and its protocol and leaves alone what its authentication depends on.
  lemma SeenIs<R>(m: Manager<R>, key: Key, what: Sighting, now: int)
    requires NoDangling(m) && key in m.byKey
    ensures var r := m.byKey[key];
      var f, m' := m.flows[r], ObservePacket(m, key, what, now);
      && m'.flows == m.flows[r := m'.flows[r]]
      && var f' := m'.flows[r];
         && f'.lastSeen == now && f'.meta.addresses == f.meta.addresses
         && (what.NotIPv4? ==> f'.meta.proto == f.meta.proto) && (what.Tcp? || what.BrokenTcp? ==> f'.meta.proto == 6)
         && (what.Udp? ==> f'.meta.proto == 17) && (what.Icmp? ==> f'.meta.proto == 1)
         && (what.OtherProtocol? ==> f'.meta.proto == what.proto)
         && f' == f.(lastSeen := now, meta := f'.meta, track := f'.track, expiresAt := f'.expiresAt)
  {}
}
