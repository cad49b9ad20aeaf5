// The flow tracker as objects: the manager and its flows are updated in place under the manager's lock,
// and every critical section is shown to do exactly what the functions of Conntrack.dfy say.
module ConntrackManager {
  import opened Bytes
  import opened Lists
  import TcpTrack
  import C = Conntrack
  import opened ConntrackInvariant
  import ConntrackDispatch
  import Delivery

  class Conntrack {
    const key: C.Key
    const authID: nat
    const appID: string
    const nodeGroupID: string
    var token: C.Token
    var signalled: bool
    var authErr: Option<C.AuthError>
    var started: bool
    var timeouts: nat
    var meta: C.Meta
    var deadline: Option<int>
    var retryAt: Option<int>
    var pending: seq<C.Packet>
    var lastSeen: int
    var expiresAt: int
    var tcpState: TcpTrack.TcpState
    var tcpSeq: Uint32
    var tcpTTL: int

    constructor (key: C.Key, authID: nat, appID: string, nodeGroupID: string, now: int)
      ensures View() == C.NewFlow(key, authID, appID, nodeGroupID, now)
    {
      this.key, this.authID, this.appID, this.nodeGroupID := key, authID, appID, nodeGroupID;
      token, signalled, authErr, started, timeouts := [], false, None, false, 0;
      meta, deadline, retryAt, pending := C.Meta(0, ""), None, None, [];
      lastSeen, expiresAt := now, now + C.DEFAULT_TTL;
      tcpState, tcpSeq, tcpTTL := TcpTrack.Reset, 0, 0;
    }

    ghost function View(): (f: C.Flow)
      reads this
      ensures f.key == key && f.authID == authID && (f.Signalled() <==> signalled)
    {
      C.Flow(key, authID, appID, nodeGroupID, token, if signalled then 1 else 0, authErr,
             started, timeouts, meta, deadline, retryAt, pending, lastSeen, expiresAt,
             Track())
    }

    ghost function Track(): TcpTrack.Track
      reads this`tcpState, this`tcpSeq, this`tcpTTL
    {
      TcpTrack.Track(tcpState, tcpSeq, tcpTTL)
    }

    // close(authCh): closing a closed channel would panic.
    method Signal(err: Option<C.AuthError>)
      requires !signalled
      modifies this`signalled, this`authErr
      ensures View() == old(View()).Signal(err)
    {
      authErr := err;
      signalled := true;
    }

    method Kill(err: C.AuthError)
      modifies this`pending, this`signalled, this`authErr
      ensures View() == old(View()).Kill(err)
    {
      pending := [];
      if !signalled { Signal(Some(err)); }
    }

    // completeAuth's part on the flow.
    method Complete(newToken: C.Token, err: Option<C.AuthError>) returns (packets: seq<C.Packet>)
      requires !signalled
      modifies this
      ensures packets == old(pending) == old(View()).pending
      ensures var f := old(View()); View() == f.(pending := [], token := if newToken != [] then newToken else f.token).Signal(err)
    {
      packets := pending;
      pending := [];
      if newToken != [] { token := newToken; }
      Signal(err);
    }

    method Cache(m: C.Meta, packet: C.Packet)
      modifies this`meta, this`pending
      ensures View() == old(View()).(meta := m, pending := old(View()).pending + [packet])
    {
      meta := m;
      pending := pending + [packet];
    }

    predicate IsEligible(now: int)
      reads this
      ensures IsEligible(now) <==> View().Eligible(now)
    {
      !started && pending != [] && (retryAt.Some? ==> now >= retryAt.value)
    }

    predicate IsOverdue(now: int)
      reads this
      ensures IsOverdue(now) <==> View().Overdue(now)
    {
      deadline.Some? && now >= deadline.value
    }

    // A request for this flow is under way, was sent, or has to be sent again.
    method Start()
      modifies this`started
      ensures View() == old(View()).(started := true)
    {
      started := true;
    }

    method Sent(due: int)
      modifies this`deadline
      ensures View() == old(View()).(deadline := Some(due))
    {
      deadline := Some(due);
    }

    method Again(at: int)
      modifies this`started, this`deadline, this`retryAt
      ensures View() == old(View()).(started := false, deadline := None, retryAt := Some(at))
    {
      started, deadline, retryAt := false, None, Some(at);
    }

    method SpendTimeout(now: int)
      modifies this`timeouts, this`started, this`deadline, this`retryAt
      ensures View() == old(View()).SpendTimeout(now)
    {
      timeouts := timeouts + 1;
      if timeouts < C.MAX_AUTH_ATTEMPTS { Again(now); }
    }

    method ObserveTCPFin(fin: bool, inbound: bool)
      modifies this`tcpState
      ensures tcpState == if !fin then old(tcpState) else if inbound then TcpTrack.InboundFin else TcpTrack.OutboundFin
    {
      if !fin { return; }
      tcpState := if inbound then TcpTrack.InboundFin else TcpTrack.OutboundFin;
    }

    method ObserveTCP(p: TcpTrack.Segment)
      modifies this`tcpState, this`tcpSeq, this`tcpTTL
      ensures Track() == TcpTrack.Observe(old(Track()), p)
    {
      if p.rst {
        tcpState, tcpTTL := TcpTrack.Reset, TcpTrack.RESET_TTL;
        return;
      }
      if tcpTTL == 0 { tcpTTL := TcpTrack.DEFAULT_TTL; }
      match tcpState
      case Reset =>
        if !p.syn { return; }
        tcpSeq := p.sequence;
        if p.inbound {
          tcpState, tcpTTL := TcpTrack.InboundSyn, TcpTrack.INBOUND_SYN_TTL;
        } else {
          tcpState, tcpTTL := TcpTrack.OutboundSyn, TcpTrack.OUTBOUND_SYN_TTL;
        }
      case InboundSyn =>
        if p.inbound || !p.syn { return; }
        if p.ack && p.acknowledgment == Add32(tcpSeq, 1) {
          tcpState, tcpTTL := TcpTrack.Established, TcpTrack.ESTABLISHED_TTL;
          return;
        }
        tcpState, tcpSeq, tcpTTL := TcpTrack.SynAck, p.sequence, TcpTrack.SYN_ACK_TTL;
      case OutboundSyn =>
        if p.inbound && p.syn && p.ack && p.acknowledgment == Add32(tcpSeq, 1) {
          tcpState, tcpSeq, tcpTTL := TcpTrack.SynAck, p.sequence, TcpTrack.SYN_ACK_TTL;
        }
      case SynAck =>
        if !p.inbound && p.ack && p.acknowledgment == Add32(tcpSeq, 1) {
          tcpState, tcpTTL := TcpTrack.Established, TcpTrack.ESTABLISHED_TTL;
          return;
        }
        ObserveTCPFin(p.fin, p.inbound);
      case Established =>
        ObserveTCPFin(p.fin, p.inbound);
      case InboundFin =>
        if !p.inbound && p.fin {
          tcpState, tcpTTL := TcpTrack.InboundFirstClosed, TcpTrack.INBOUND_FIRST_CLOSED_TTL;
        }
      case OutboundFin =>
        if p.inbound && p.fin {
          tcpState, tcpTTL := TcpTrack.OutboundFirstClosed, TcpTrack.OUTBOUND_FIRST_CLOSED_TTL;
        }
      case InboundFirstClosed =>
      case OutboundFirstClosed =>
    }

    // observePacket's part on the flow.
    method See(what: C.Sighting, now: int)
      modifies this
      ensures View() == old(View()).See(what, now)
    {
      lastSeen := now;
      match what
      case NotIPv4 => expiresAt := now + C.DEFAULT_TTL;
      case BrokenTcp =>
        meta := meta.(proto := 6);
        expiresAt := now + C.DEFAULT_TTL;
      case Tcp(segment) =>
        meta := meta.(proto := 6);
        ObserveTCP(segment);
        expiresAt := now + tcpTTL;
      case Udp =>
        meta := meta.(proto := 17);
        expiresAt := now + C.UDP_TTL;
      case Icmp =>
        meta := meta.(proto := 1);
        expiresAt := now + C.ICMP_TTL;
      case OtherProtocol(p) =>
        meta := meta.(proto := p);
        expiresAt := now + C.DEFAULT_TTL;
    }
  }

  ghost function FlowsOf(cts: set<Conntrack>): map<Conntrack, C.Flow>
    reads cts
  {
    map ct | ct in cts :: ct.View()
  }

  class ConntrackMgr {
    var nextAuthID: nat
    var byKey: map<C.Key, Conntrack>
    var byID: map<nat, Conntrack>
    var lru: seq<Conntrack>
    const ttl: int
    const maxEntries: nat
    var closed: bool
    ghost var created: set<Conntrack>  // every flow this manager ever made

    ghost function View(): C.Manager<Conntrack>
      reads this, created
    {
      C.Manager(nextAuthID, byKey, byID, lru, FlowsOf(created), ttl, maxEntries, closed)
    }

    ghost predicate Valid()
      reads this, created
    {
      C.Inv(View())
    }

    constructor (ttl: int, maxEntries: nat)
      requires maxEntries >= 1
      ensures Valid() && View() == C.NewManager(ttl, maxEntries)
    {
      this.ttl, this.maxEntries := ttl, maxEntries;
      nextAuthID, byKey, byID, lru, closed, created := 0, map[], map[], [], false, {};
      new;
      assert FlowsOf(created) == map[];
      NewManagerOk<Conntrack>(ttl, maxEntries);
    }

    // The view, known to hold this flow.
    ghost function ViewWith(ct: Conntrack): (m: C.Manager<Conntrack>)
      requires ct in created
      reads this, created
      ensures m == View() && ct in m.flows
    {
      View()
    }

    lemma FlowIs(ct: Conntrack)
      requires ct in created
      ensures ct in View().flows
      ensures var f := View().flows[ct]; f.authErr == ct.authErr && f.token == ct.token && (f.Signalled() <==> ct.signalled)
    {}

    method RemoveIndexesLocked(ct: Conntrack)
      requires ct in created
      modifies this`byKey, this`byID, this`lru
      ensures View() == C.RemoveIndexes(old(View()), ct)
    {
      hide Without, Conntrack.View;
      if ct.key in byKey && byKey[ct.key] == ct { byKey := byKey - {ct.key}; }
      if ct.authID in byID && byID[ct.authID] == ct { byID := byID - {ct.authID}; }
      lru := Without(lru, ct);
    }

    method RemoveLocked(ct: Conntrack, err: C.AuthError)
      requires ct in created
      modifies this`byKey, this`byID, this`lru, ct
      ensures View() == C.Remove(old(View()), ct, err)
    {
      hide C.RemoveIndexes, Conntrack.View, C.Flow.Kill;
      RemoveIndexesLocked(ct);
      ct.Kill(err);
      assert FlowsOf(created) == old(FlowsOf(created))[ct := ct.View()];
    }

    method RemoveExpiredLocked(now: int)
      requires Valid()
      modifies this`byKey, this`byID, this`lru, created
      ensures Valid() && View() == C.RemoveExpired(old(View()), old(lru), now)
    {
      hide C.Inv, C.Remove, C.NoDangling;
      ghost var was := View();
      var rest := lru;
      KeysKnown(was);
      ValidDistinct();
      while rest != []
        invariant Valid() && Distinct(rest) && Members(rest) <= View().Tracked() <= created
        invariant Members(rest) <= View().flows.Keys && C.NoDangling(View())
        invariant C.NoDangling(was) && Members(was.lru) <= was.flows.Keys
        invariant C.RemoveExpired(View(), rest, now) == C.RemoveExpired(was, was.lru, now)
        decreases rest
      {
        var ct := rest[0];
        var expiresAt := if ttl > 0 then ct.lastSeen + ttl else ct.expiresAt;
        if now >= expiresAt {
          RemoveKeeps(View(), ct, C.Evicted);
          RemoveLocked(ct, C.Evicted);
        }
        rest := rest[1..];
        KeysKnown(View());
      }
    }

    lemma ValidDistinct()
      requires Valid()
      ensures Distinct(lru) && Members(lru) <= created
    {}

    method RemoveOldestLocked()
      requires Valid()
      modifies this`byKey, this`byID, this`lru, created
      ensures View() == C.RemoveOldest(old(View()))
    {
      hide C.Inv;
      ValidDistinct();
      if lru != [] { RemoveLocked(lru[0], C.Evicted); }
    }

    method GetOrCreate(key: C.Key, appID: string, nodeGroupID: string, now: int) returns (ct: Conntrack)
      requires Valid()
      modifies this`nextAuthID, this`byKey, this`byID, this`lru, this`created, created
      ensures Valid() && created == old(created) + {ct} && (ct in old(created) || fresh(ct))
      ensures (View(), ct) == C.GetOrCreate(old(View()), ct, key, appID, nodeGroupID, now)
    {
      hide C.Inv, C.RemoveExpired, C.AddFlow, C.NoDangling, Conntrack.View;
      ghost var was := View();
      RemoveExpiredLocked(now);
      ghost var m1 := View();
      if key in byKey {
        ct := Refresh(key, now);
        assert created == old(created) + {ct};
      } else {
        ct := CreateFlow(key, appID, nodeGroupID, now);
        GetOrCreateKeeps(was, ct, key, appID, nodeGroupID, now);
      }
    }

    method Refresh(key: C.Key, now: int) returns (ct: Conntrack)
      requires Valid() && key in byKey
      modifies this`lru, created
      ensures Valid() && ct == byKey[key] && ct in created
      ensures View() == old(View()).(flows := old(View()).flows[ct := old(View()).flows[ct].(lastSeen := now)],
                                     lru := MoveToBack(old(lru), ct))
    {
      hide C.Inv, C.NoDangling, Conntrack.View;
      ct := byKey[key];
      ghost var was := View();
      KeyLeadsToTracked(was, key);
      KeysKnown(was);
      TouchKeeps(was, ct, was.flows[ct].(lastSeen := now));
      Touch(ct, now);
    }

    method CreateFlow(key: C.Key, appID: string, nodeGroupID: string, now: int) returns (ct: Conntrack)
      requires Valid()
      modifies this`nextAuthID, this`byKey, this`byID, this`lru, this`created, created
      ensures fresh(ct) && created == old(created) + {ct}
      ensures View() == C.AddFlow(old(View()), ct, C.NewFlow(key, old(nextAuthID) + 1, appID, nodeGroupID, now))
    {
      hide C.Inv, C.AddFlow, C.NoDangling, Conntrack.View;
      ct := new Conntrack(key, nextAuthID + 1, appID, nodeGroupID, now);
      assert FlowsOf(created) == old(FlowsOf(created));
      AddFlow(ct);
    }

    method Touch(ct: Conntrack, now: int)
      requires ct in created
      modifies this`lru, ct`lastSeen
      ensures View() == old(View()).(flows := old(View()).flows[ct := old(ct.View()).(lastSeen := now)],
                                     lru := MoveToBack(old(lru), ct))
    {
      ct.lastSeen := now;
      lru := MoveToBack(lru, ct);
      assert FlowsOf(created) == old(FlowsOf(created))[ct := ct.View()] by { hide Conntrack.View; }
    }

    // The tail of getOrCreate, once the new flow `ct` exists.
    method AddFlow(ct: Conntrack)
      requires Valid() && ct !in created && !ct.signalled
      modifies this`nextAuthID, this`byKey, this`byID, this`lru, this`created, created, ct
      ensures created == old(created) + {ct}
      ensures View() == C.AddFlow(old(View()), ct, old(ct.View()))
    {
      hide C.Inv, C.MakeRoom, C.Flow.Signal, C.NoDangling, Conntrack.View;
      ghost var was := View();
      if closed {
        ct.Signal(Some(C.ManagerClosed));
      } else {
        MakeRoom();
      }
      label roomMade:
      if !closed {
        lru := lru + [ct];
        byKey := byKey[ct.key := ct];
        byID := byID[ct.authID := ct];
      }
      nextAuthID := ct.authID;
      created := created + {ct};
      assert FlowsOf(old(created)) == old@roomMade(FlowsOf(created));
      FlowsOfInsert(old(created), ct);
    }

    method MakeRoom()
      requires Valid()
      modifies this`byKey, this`byID, this`lru, created
      ensures View() == C.MakeRoom(old(View()))
    {
      hide C.Inv, C.RemoveOldest;
      if |byKey| >= maxEntries { RemoveOldestLocked(); }
    }

    method ObservePacket(key: C.Key, what: C.Sighting, now: int) returns (found: bool)
      requires Valid()
      modifies this`lru, created
      ensures Valid() && View() == C.ObservePacket(old(View()), key, what, now) && found == (key in byKey)
    {
      hide C.Inv, C.NoDangling, Conntrack.View, C.Flow.See;
      found := key in byKey;
      ghost var was := View();
      ObserveKeeps(was, key, what, now);
      if found {
        var ct := byKey[key];
        KeyLeadsToTracked(was, key);
        KeysKnown(was);
        lru := MoveToBack(lru, ct);
        ct.See(what, now);
        assert FlowsOf(created) == was.flows[ct := ct.View()];
      }
    }

    method CompleteAuth(authID: nat, token: C.Token, err: Option<C.AuthError>) returns (done: C.Completion<Conntrack>)
      requires Valid()
      modifies this`byKey, this`byID, this`lru, created
      ensures Valid() && (View(), done) == C.CompleteAuth(old(View()), authID, token, err)
    {
      hide C.Inv, C.NoDangling, Conntrack.View, C.Flow.Signal, C.RemoveIndexes;
      ghost var was := View();
      CompleteKeeps(was, authID, token, err);
      if authID !in byID { return C.NoCompletion; }
      var ct := byID[authID];
      IdLeadsToTracked(was, authID);
      KeysKnown(was);
      if ct.signalled { return C.NoCompletion; }
      var packets := ct.Complete(token, err);
      assert FlowsOf(created) == was.flows[ct := ct.View()];
      if err.Some? {
        RemoveIndexesLocked(ct);
        return C.Completed(ct, []);
      }
      done := C.Completed(ct, packets);
    }

    method CachePacket(ct: Conntrack, meta: C.Meta, packet: C.Packet) returns (res: C.CacheResult)
      requires Valid() && ct in created
      modifies created
      ensures Valid() && (View(), res) == C.CachePacket(old(View()), ct, meta, packet)
    {
      assert ct.View().pending == ct.pending && ct.View().authErr == ct.authErr;
      hide C.Inv, C.NoDangling, C.Evolves, Conntrack.View;
      ghost var was := View();
      assert was.flows[ct] == ct.View();
      if !(ct.key in byKey && byKey[ct.key] == ct) {
        return if ct.signalled then C.AlreadyDone(ct.authErr) else C.NotTracked;
      }
      if ct.signalled { return C.AlreadyDone(ct.authErr); }
      if |ct.pending| >= C.PENDING_LIMIT { return C.CacheFull; }
      CacheKeeps(was, ct, meta, packet);
      CacheOn(ct, meta, packet);
      res := C.Cached;
    }

    method NextAuthBatch(limit: nat, now: int) returns (jobs: seq<C.Job<Conntrack>>, more: bool)
      requires Valid()
      modifies created
      ensures Valid() && (View(), jobs, more) == C.TakeBatch(old(View()), lru, limit, now)
    {
      hide C.Inv, C.NoDangling, C.Evolves, C.TakeBatch, C.Flow.Eligible, Conntrack.View;
      ghost var was := View();
      BatchKeeps(was, lru, limit, now);
      KeysKnown(was);
      jobs, more := [], false;
      var rest := lru;
      assert [] + C.TakeBatch(was, was.lru, limit, now).1 == C.TakeBatch(was, was.lru, limit, now).1;
      while rest != [] && !more
        invariant Members(rest) <= created && |jobs| <= limit
        invariant View() == was.(flows := View().flows)
        invariant more ==> C.TakeBatch(was, was.lru, limit, now) == (View(), jobs, true)
        invariant !more ==> Prepend(jobs, C.TakeBatch(View(), rest, limit - |jobs|, now)) == C.TakeBatch(was, was.lru, limit, now)
        decreases rest, !more
      {
        var ct := rest[0];
        ghost var before := View();
        if !ct.IsEligible(now) {
          BatchSkips(before, rest, limit - |jobs|, now);
          rest := rest[1..];
        } else if |jobs| >= limit {
          BatchIsFull(before, rest, now);
          assert jobs + [] == jobs;
          more := true;
        } else {
          var job := TakeJob(ct, rest, limit - |jobs|, now);
          rest := rest[1..];
          PrependTwice(jobs, job, C.TakeBatch(View(), rest, limit - |jobs| - 1, now));
          jobs := jobs + [job];
        }
      }
      if !more { BatchEnds(View(), limit - |jobs|, now); }
      assert jobs + [] == jobs;
    }

    // Put the eligible flow at the head of `rest` into the batch.
    method TakeJob(ct: Conntrack, ghost rest: seq<Conntrack>, ghost room: nat,
            ghost now: int) returns (job: C.Job<Conntrack>)
      requires rest != [] && ct == rest[0] && Members(rest) <= created && room > 0 && ct.IsEligible(now)
      modifies ct`started
      ensures View() == old(View()).(flows := View().flows)
      ensures C.TakeBatch(old(View()), rest, room, now) == Prepend([job], C.TakeBatch(View(), rest[1..], room - 1, now))
    {
      assert ct.View().meta == ct.meta;
      hide C.TakeBatch, C.Flow.Eligible, Conntrack.View;
      BatchGrows(View(), rest, room, now);
      StartFlow(ct);
      job := C.Job(ct, ct.meta);
    }

    method StartFlow(ct: Conntrack)
      requires ct in created
      modifies ct`started
      ensures View() == old(View()).(flows := old(View()).flows[ct := old(View()).flows[ct].(started := true)])
    {
      hide Conntrack.View;
      ct.Start();
      assert FlowsOf(created) == old(FlowsOf(created))[ct := ct.View()];
    }

    method CacheOn(ct: Conntrack, meta: C.Meta, packet: C.Packet)
      requires ct in created
      modifies ct`meta, ct`pending
      ensures var f := old(View()).flows[ct];
        View() == old(View()).(flows := old(View()).flows[ct := f.(meta := meta, pending := f.pending + [packet])])
    {
      hide Conntrack.View;
      ct.Cache(meta, packet);
      assert FlowsOf(created) == old(FlowsOf(created))[ct := ct.View()];
    }

    method MarkAuthSent(authID: nat, deadline: int)
      requires Valid()
      modifies created
      ensures Valid() && View() == C.MarkAuthSent(old(View()), authID, deadline)
    {
      hide C.Inv, C.NoDangling, Conntrack.View;
      ghost var was := View();
      MarkSentKeeps(was, authID, deadline);
      if authID in byID {
        var ct := byID[authID];
        IdLeadsToTracked(was, authID);
        KeysKnown(was);
        if !ct.signalled {
          ct.Sent(deadline);
          assert FlowsOf(created) == was.flows[ct := ct.View()];
        }
      }
    }

    method RetryAuth(authID: nat, delay: int, now: int) returns (scheduled: bool)
      requires Valid()
      modifies created
      ensures Valid() && (View(), scheduled) == C.RetryAuth(old(View()), authID, delay, now)
    {
      hide C.Inv, C.NoDangling, Conntrack.View;
      ghost var was := View();
      RetryKeeps(was, authID, delay, now);
      if authID !in byID { return false; }
      var ct := byID[authID];
      IdLeadsToTracked(was, authID);
      KeysKnown(was);
      if ct.signalled { return false; }
      ct.Again(now + delay);
      assert FlowsOf(created) == was.flows[ct := ct.View()];
      scheduled := true;
    }

    method Charge(ct: Conntrack, now: int, err: C.AuthError) returns (gaveUp: bool)
      requires ct in created
      modifies this`byKey, this`byID, this`lru, ct
      ensures (View(), gaveUp) == C.Charge(old(View()), ct, now, err)
    {
      hide C.Remove, C.Flow.SpendTimeout, C.Flow.Overdue;
      gaveUp := false;
      if ct.IsOverdue(now) {
        ct.SpendTimeout(now);
        assert FlowsOf(created) == old(FlowsOf(created))[ct := ct.View()];
        assert ct.timeouts == ct.View().timeouts;
        if !(ct.timeouts < C.MAX_AUTH_ATTEMPTS) {
          RemoveLocked(ct, err);
          gaveUp := true;
        }
      }
    }

    method ExpireAuth(now: int, err: C.AuthError) returns (expired: nat)
      requires Valid()
      modifies this`byKey, this`byID, this`lru, created
      ensures Valid() && (View(), expired) == C.ExpireAuth(old(View()), old(lru), now, err)
    {
      hide C.Inv, C.Charge, C.NoDangling, C.Evolves, C.ExpireAuth, Conntrack.View;
      ghost var was := View();
      expired := 0;
      var rest := lru;
      KeysKnown(was);
      ValidDistinct();
      while rest != []
        invariant Valid() && Distinct(rest) && Members(rest) <= View().Tracked() <= created
        invariant Members(rest) <= View().flows.Keys && Members(was.lru) <= was.flows.Keys
        invariant C.ExpireAuth(was, was.lru, now, err).0 == C.ExpireAuth(View(), rest, now, err).0
        invariant C.ExpireAuth(was, was.lru, now, err).1 == expired + C.ExpireAuth(View(), rest, now, err).1
        decreases rest
      {
        ChargeKeeps(View(), rest[0], now, err);
        ExpireAuthUnfolds(View(), rest, now, err);
        var gaveUp := Charge(rest[0], now, err);
        if gaveUp { expired := expired + 1; }
        rest := rest[1..];
        KeysKnown(View());
      }
      ExpireAuthUnfolds(View(), rest, now, err);
    }

    method Remove(key: C.Key)
      requires Valid()
      modifies this`byKey, this`byID, this`lru, created
      ensures Valid() && View() == C.RemoveKey(old(View()), key)
    {
      hide C.Inv, C.NoDangling, C.Remove;
      ghost var was := View();
      RemoveKeyKeeps(was, key);
      if key in byKey {
        KeyLeadsToTracked(was, key);
        KeysKnown(was);
        RemoveLocked(byKey[key], C.Evicted);
      }
    }

    method RemoveExpired(now: int)
      requires Valid()
      modifies this`byKey, this`byID, this`lru, created
      ensures Valid() && View() == C.RemoveExpired(old(View()), old(lru), now)
    {
      RemoveExpiredLocked(now);
    }

    method Close()
      requires Valid()
      modifies this`closed, this`byKey, this`byID, this`lru, created
      ensures Valid() && View() == C.Close(old(View()))
    {
      hide C.Inv, C.NoDangling, C.Evolves, C.KillAll, Conntrack.View;
      ghost var was := View();
      RemoveAllLocked();
      CloseKeeps(was);
      closed := true;
    }

    // close's loop, which empties the key index.
    method RemoveAllLocked()
      requires Valid()
      modifies this`byKey, this`byID, this`lru, created
      ensures View() == C.Close(old(View())).(closed := closed)
    {
      hide C.Inv, C.NoDangling, C.KillAll, Conntrack.View;
      ghost var was := View();
      KeysKnown(was);
      ghost var done: set<Conntrack> := {};
      NothingKilled(was.flows);
      while byKey != map[]
        invariant Valid() && done <= was.Tracked() <= created
        invariant View() == was.(byKey := byKey, byID := byID, lru := lru, flows := C.KillAll(was.flows, done))
        invariant View().Tracked() == was.Tracked() - done
        decreases |byKey|
      {
        var k :| k in byKey;
        done := CloseOne(k, was, done);
      }
      NothingTracked(View(), was, done);
    }

    static lemma NothingTracked(m: C.Manager<Conntrack>, was: C.Manager<Conntrack>, done: set<Conntrack>)
      requires C.Inv(m) && m.byKey == map[] && done <= was.Tracked() && m.Tracked() == was.Tracked() - done
      ensures m.lru == [] && m.byID == map[] && done == was.Tracked()
    {
      IndexesHoldTracked(m);
      KeysKnown(m);
    }

    // One turn of close's loop: the flow under key `k`, whichever it is.
    method CloseOne(k: C.Key, ghost was: C.Manager<Conntrack>,
            ghost done: set<Conntrack>) returns (ghost done': set<Conntrack>)
      requires Valid() && k in byKey && done <= was.Tracked() <= was.flows.Keys
      requires View() == was.(byKey := byKey, byID := byID, lru := lru, flows := C.KillAll(was.flows, done))
      requires View().Tracked() == was.Tracked() - done
      modifies this`byKey, this`byID, this`lru, created
      ensures Valid() && |byKey| < old(|byKey|) && done <= done' <= was.Tracked()
      ensures View() == was.(byKey := byKey, byID := byID, lru := lru, flows := C.KillAll(was.flows, done'))
      ensures View().Tracked() == was.Tracked() - done'
    {
      hide C.Inv, C.NoDangling, C.Evolves, C.Remove, C.KillAll, C.Flow.Kill, Conntrack.View;
      ghost var m := View();
      var ct := byKey[k];
      KeyLeadsToTracked(m, k);
      RemoveKeeps(m, ct, C.ManagerClosed);
      KeysKnown(m);
      KillAllMore(was.flows, done, ct);
      RemoveLocked(ct, C.ManagerClosed);
      done' := done + {ct};
      KeysKnown(View());
    }

    static lemma NothingKilled(flows: map<Conntrack, C.Flow>)
      ensures C.KillAll(flows, {}) == flows
    {}
  }

  lemma KillAllMore(flows: map<Conntrack, C.Flow>, done: set<Conntrack>, ct: Conntrack)
    requires ct in flows && ct !in done
    ensures C.KillAll(flows, done)[ct := C.KillAll(flows, done)[ct].Kill(C.ManagerClosed)] == C.KillAll(flows, done + {ct})
  {}

  // The connection's share of the authentication work.
  class L3TunnelConn {
    const conntrackMgr: ConntrackMgr
    var closed: bool
    var frames: seq<Delivery.Frame>  // the data frames the connection took

    constructor (conntrackMgr: ConntrackMgr)
      ensures this.conntrackMgr == conntrackMgr && !closed && frames == []
    {
      this.conntrackMgr := conntrackMgr;
      closed, frames := false, [];
    }

    // `ok` stands for the connection taking the frame.
    method WriteAuthenticatedPacket(token: C.Token, packet: C.Packet, ok: bool) returns (outcome: Delivery.Outcome)
      modifies this`frames
      ensures outcome == Delivery.SendOutcome(token, ok)
      ensures frames == old(frames) + if outcome == Delivery.Written then [Delivery.Frame(token, packet)] else []
    {
      if |token| > Delivery.MAX_TOKEN { return Delivery.Failed(Delivery.TokenTooLong); }
      if !ok { return Delivery.Failed(Delivery.WriteError); }
      frames := frames + [Delivery.Frame(token, packet)];
      return Delivery.Written;
    }

    // WritePacket with nobody in between; Delivery.dfy interleaves its sections.
    method WritePacket(key: C.Key, what: C.Sighting, appID: string, nodeGroupID: string, now: int,
                       meta: C.Meta, packet: C.Packet, ok: bool) returns (outcome: Delivery.Outcome, ghost ct: Conntrack)
      requires conntrackMgr.Valid()
      modifies this`frames, conntrackMgr`nextAuthID, conntrackMgr`byKey, conntrackMgr`byID, conntrackMgr`lru, conntrackMgr`created,
               conntrackMgr.created
      ensures conntrackMgr.Valid()
      ensures var (m1, r) := C.GetOrCreate(old(conntrackMgr.View()), ct, key, appID, nodeGroupID, now);
        && r == ct && C.NoDangling(m1)
        && var m2 := C.ObservePacket(m1, key, what, now);
        && ct in m2.flows
        && (conntrackMgr.View(), outcome, frames) == Written(old(frames), Delivery.WriteAlone(m2, ct, meta, packet, ok))
    {
      hide C.Inv, C.NoDangling, C.GetOrCreate, C.ObservePacket, C.CachePacket, Conntrack.View;
      var flow := conntrackMgr.GetOrCreate(key, appID, nodeGroupID, now);
      ct := flow;
      ValidNoDangling(conntrackMgr.View());
      var _ := conntrackMgr.ObservePacket(key, what, now);
      outcome := FinishWrite(flow, meta, packet, ok);
    }

    // WritePacket's part under sendMu.
    method FinishWrite(flow: Conntrack, meta: C.Meta, packet: C.Packet, ok: bool) returns (outcome: Delivery.Outcome)
      requires flow in conntrackMgr.created && conntrackMgr.Valid()
      modifies this`frames, conntrackMgr.created
      ensures conntrackMgr.Valid()
      ensures conntrackMgr.View() == Delivery.WriteAlone(old(conntrackMgr.ViewWith(flow)), flow, meta, packet, ok).0
      ensures outcome == Delivery.WriteAlone(old(conntrackMgr.ViewWith(flow)), flow, meta, packet, ok).1
      ensures frames == old(frames) + Delivery.WriteAlone(old(conntrackMgr.ViewWith(flow)), flow, meta, packet, ok).2
    {
      hide C.Inv, C.NoDangling, C.CachePacket, Conntrack.View, ConntrackMgr.View, FlowsOf;
      hide Delivery.CacheOutcome, Delivery.SendOutcome, Delivery.WriteAlone;
      ghost var m := conntrackMgr.ViewWith(flow);
      WriteCases(m, flow, meta, packet, ok);
      conntrackMgr.FlowIs(flow);
      if flow.signalled {
        outcome := FinishSignalled(flow, packet, ok);
        assert conntrackMgr.View() == m;
      } else {
        var res := conntrackMgr.CachePacket(flow, meta, packet);
        outcome := Delivery.CacheOutcome(res);
      }
    }

    static ghost function Written(frames: seq<Delivery.Frame>, alone: (C.Manager<Conntrack>, Delivery.Outcome,
            seq<Delivery.Frame>))
      : (C.Manager<Conntrack>, Delivery.Outcome, seq<Delivery.Frame>)
    {
      (alone.0, alone.1, frames + alone.2)
    }

    method FinishSignalled(flow: Conntrack, packet: C.Packet, ok: bool) returns (outcome: Delivery.Outcome)
      requires flow.signalled
      modifies this`frames
      ensures flow.authErr.Some? ==> outcome == Delivery.Failed(Delivery.FlowFailed(flow.authErr.value)) && frames == old(frames)
      ensures flow.authErr.None? ==>
                && outcome == Delivery.SendOutcome(flow.token, ok)
                && frames == old(frames) + if outcome == Delivery.Written then [Delivery.Frame(flow.token, packet)] else []
    {
      if flow.authErr.Some? { return Delivery.Failed(Delivery.FlowFailed(flow.authErr.value)); }
      outcome := WriteAuthenticatedPacket(flow.token, packet, ok);
    }

    static lemma WriteCases(m: C.Manager<Conntrack>, r: Conntrack, meta: C.Meta, packet: C.Packet, ok: bool)
      requires r in m.flows
      ensures var f, alone := m.flows[r], Delivery.WriteAlone(m, r, meta, packet, ok);
        && (!f.Signalled() ==> var (m', res) := C.CachePacket(m, r, meta, packet); alone == (m', Delivery.CacheOutcome(res), []))
        && (f.Signalled() && f.authErr.Some? ==> alone == (m, Delivery.Failed(Delivery.FlowFailed(f.authErr.value)), []))
        && (f.Signalled() && f.authErr.None? ==>
              var o := Delivery.SendOutcome(f.token, ok);
              alone == (m, o, if o == Delivery.Written then [Delivery.Frame(f.token, packet)] else []))
    {
      hide C.CachePacket;
    }

    static lemma ValidNoDangling(m: C.Manager<Conntrack>)
      requires C.Inv(m)
      ensures C.NoDangling(m)
    {}

    // completeAuthentication; the connection takes `takes` frames before it fails.
    method CompleteAuthentication(authID: nat, token: C.Token, err: Option<C.AuthError>, takes: nat)
      requires conntrackMgr.Valid()
      modifies this`frames, this`closed, conntrackMgr`byKey, conntrackMgr`byID, conntrackMgr`lru, conntrackMgr.created
      ensures conntrackMgr.Valid()
      ensures var (m, done) := C.CompleteAuth(old(conntrackMgr.View()), authID, token, err);
        var packets := if done.Completed? then done.packets else [];
        var n := Delivery.Flushed(token, packets, takes);
        && conntrackMgr.View() == m
        && frames == old(frames) + Delivery.Frames(token, packets[..n])
        && closed == (old(closed) || n < |packets|)
    {
      hide C.Inv, C.NoDangling, C.CompleteAuth, Conntrack.View;
      CompleteKeeps(conntrackMgr.View(), authID, token, err);
      NothingToFlush(conntrackMgr.View(), authID, token, err);
      if authID !in conntrackMgr.byID { return; }
      var done := conntrackMgr.CompleteAuth(authID, token, err);
      if err.Some? || done.NoCompletion? { return; }
      Flush(token, done.packets, takes);
    }

    static lemma NothingToFlush(m: C.Manager<Conntrack>, authID: nat, token: C.Token, err: Option<C.AuthError>)
      requires C.NoDangling(m)
      ensures authID !in m.byID ==> C.CompleteAuth(m, authID, token, err) == (m, C.NoCompletion)
      ensures err.Some? && C.CompleteAuth(m, authID, token, err).1.Completed? ==> C.CompleteAuth(m, authID, token, err).1.packets == []
    {}

    // The packets in order, until the connection fails, which closes it.
    method Flush(token: C.Token, packets: seq<C.Packet>, takes: nat)
      modifies this`frames, this`closed
      ensures var n := Delivery.Flushed(token, packets, takes);
        && frames == old(frames) + Delivery.Frames(token, packets[..n])
        && closed == (old(closed) || n < |packets|)
    {
      var i := 0;
      while i < |packets|
        invariant i <= |packets| && (i == 0 || i <= Delivery.Flushed(token, packets, takes))
        invariant frames == old(frames) + Delivery.Frames(token, packets[..i]) && closed == old(closed)
      {
        var outcome := WriteAuthenticatedPacket(token, packets[i], i < takes);
        if outcome != Delivery.Written {
          closed := true;
          return;
        }
        assert packets[..i + 1] == packets[..i] + [packets[i]];
        i := i + 1;
      }
    }

    // One batch of requests. `refused` stands for the requests that cannot be written.
    method SendBatch(jobs: seq<C.Job<Conntrack>>, refused: set<nat>, err: C.AuthError, deadline: int)
      returns (sent: seq<C.Job<Conntrack>>, ok: bool)
      requires conntrackMgr.Valid() && Members(ConntrackDispatch.FlowsOf(jobs)) <= conntrackMgr.created
      modifies this`closed, conntrackMgr`byKey, conntrackMgr`byID, conntrackMgr`lru, conntrackMgr.created
      ensures conntrackMgr.Valid() && closed == (old(closed) || !ok)
      ensures ConntrackDispatch.Dispatched(conntrackMgr.View(), sent, ok)
           == ConntrackDispatch.SendBatch(old(conntrackMgr.View()), jobs, refused, err, deadline)
    {
      hide C.Inv, C.NoDangling, C.Evolves, C.CompleteAuth, C.MarkAuthSent, Conntrack.View;
      if jobs == [] {
        return [], true;
      }
      var authID := jobs[0].flow.authID;
      if authID in refused {
        var _ := conntrackMgr.CompleteAuth(authID, [], Some(err));
        closed := true;
        return [], false;
      }
      MarkSentKeeps(conntrackMgr.View(), authID, deadline);
      conntrackMgr.MarkAuthSent(authID, deadline);
      sent, ok := SendBatch(jobs[1..], refused, err, deadline);
      sent := [jobs[0]] + sent;
    }

    method DispatchPendingAuth(limit: nat, now: int, refused: set<nat>, err: C.AuthError, deadline: int)
      returns (sent: seq<C.Job<Conntrack>>, ok: bool)
      requires conntrackMgr.Valid() && limit >= 1
      modifies this`closed, conntrackMgr`byKey, conntrackMgr`byID, conntrackMgr`lru, conntrackMgr.created
      ensures conntrackMgr.Valid() && closed == (old(closed) || !ok)
      ensures ConntrackDispatch.Dispatched(conntrackMgr.View(), sent, ok)
           == ConntrackDispatch.Dispatch(old(conntrackMgr.View()), limit, now, refused, err, deadline)
    {
      hide C.Inv, C.NoDangling, C.TakeBatch, ConntrackDispatch.SendBatch, ConntrackDispatch.Dispatch, StillWaiting, Conntrack.View;
      ghost var was := conntrackMgr.View();
      assert ConntrackDispatch.Dispatch(was, limit, now, refused, err, deadline)
          == Continue([], ConntrackDispatch.Dispatch(was, limit, now, refused, err, deadline));
      sent, ok := [], true;
      var more := true;
      while more && ok
        invariant conntrackMgr.Valid() && closed == (old(closed) || !ok)
        invariant var whole := ConntrackDispatch.Dispatch(was, limit, now, refused, err, deadline);
          if more && ok then whole == Continue(sent, ConntrackDispatch.Dispatch(conntrackMgr.View(), limit, now, refused, err, deadline))
          else whole == ConntrackDispatch.Dispatched(conntrackMgr.View(), sent, ok)
        decreases more && ok, StillWaiting(conntrackMgr.View(), now)
      {
        ghost var before, sentBefore := conntrackMgr.View(), sent;
        DispatchTurn(before, limit, now, refused, err, deadline);
        var jobs;
        jobs, more := conntrackMgr.NextAuthBatch(limit, now);
        var batch;
        batch, ok := SendBatch(jobs, refused, err, deadline);
        sent := sent + batch;
        if more && ok {
          ContinueTwice(sentBefore, batch, ConntrackDispatch.Dispatch(conntrackMgr.View(), limit, now, refused, err, deadline));
        }
      }
    }
  }

  // A dispatch continued after the requests already sent.
  ghost function Continue<R>(sent: seq<C.Job<R>>,
          rest: ConntrackDispatch.Dispatched<R>): ConntrackDispatch.Dispatched<R> {
    rest.(sent := sent + rest.sent)
  }

  lemma ContinueTwice<R>(a: seq<C.Job<R>>, b: seq<C.Job<R>>, rest: ConntrackDispatch.Dispatched<R>)
    ensures Continue(a, Continue(b, rest)) == Continue(a + b, rest)
  {
    assert a + (b + rest.sent) == a + b + rest.sent;
  }

  ghost function StillWaiting<R>(m: C.Manager<R>, now: int): nat
  {
    if Members(m.lru) <= m.flows.Keys then |ConntrackDispatch.Waiting(m.flows, m.lru, now)| else 0
  }

  // One turn of the dispatch loop.
  lemma DispatchTurn<R>(m: C.Manager<R>, limit: nat, now: int, refused: set<nat>, err: C.AuthError, deadline: int)
    requires C.Inv(m) && limit >= 1
    ensures Members(m.lru) <= m.flows.Keys
    ensures var (m1, jobs, more) := C.TakeBatch(m, m.lru, limit, now);
      && C.NoDangling(m1) && Members(ConntrackDispatch.FlowsOf(jobs)) <= m1.flows.Keys
      && var d := ConntrackDispatch.SendBatch(m1, jobs, refused, err, deadline);
      && C.Inv(d.manager)
      && (d.ok && more ==> StillWaiting(d.manager, now) < StillWaiting(m, now))
      && ConntrackDispatch.Dispatch(m, limit, now, refused, err, deadline) ==
           if d.ok && more then Continue(d.sent, ConntrackDispatch.Dispatch(d.manager, limit, now, refused, err, deadline)) else d
  {
    hide C.Inv, C.TakeBatch, ConntrackDispatch.SendBatch, ConntrackDispatch.Waiting;
    KeysKnown(m);
    ConntrackDispatch.BatchProgress(m, limit, now, refused, err, deadline);
    var (m1, jobs, more) := C.TakeBatch(m, m.lru, limit, now);
    KeysKnown(ConntrackDispatch.SendBatch(m1, jobs, refused, err, deadline).manager);
  }

  // A batch continued after the jobs already taken.
  ghost function Prepend<M, J>(jobs: seq<J>, rest: (M, seq<J>, bool)): (M, seq<J>, bool) {
    (rest.0, jobs + rest.1, rest.2)
  }

  lemma PrependTwice<M, J>(jobs: seq<J>, job: J, rest: (M, seq<J>, bool))
    ensures Prepend(jobs, Prepend([job], rest)) == Prepend(jobs + [job], rest)
  {
    assert jobs + ([job] + rest.1) == jobs + [job] + rest.1;
  }

  lemma FlowsOfInsert(cts: set<Conntrack>, ct: Conntrack)
    ensures FlowsOf(cts + {ct}) == FlowsOf(cts)[ct := ct.View()]
  {}
}
