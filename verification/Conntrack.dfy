// The flow tracker of the L3 tunnel as values: what every critical section of the manager does to the
// key index, the authentication-id index, the recency list and the flows themselves.
// `R` stands for a reference to a flow; ConntrackManager.dfy implements these functions on objects.
module Conntrack {
  import opened Bytes
  import opened Lists
  import TcpTrack

  type Packet = seq<Byte>
  type Token = seq<Byte>
  type Key = string

  // Why a flow's authentication ended without success.
  datatype AuthError = Evicted | ManagerClosed | TimedOut | Refused(reason: string)

  // The addresses of the packet that an authentication request quotes; only the protocol changes later.
  datatype Meta = Meta(proto: int, addresses: string)

  // What the packet parser made of a packet.
  datatype Sighting = NotIPv4 | BrokenTcp | Tcp(segment: TcpTrack.Segment) | Udp | Icmp | OtherProtocol(proto: int)

  const PENDING_LIMIT := 1024
  const MAX_AUTH_ATTEMPTS := 3
  const DEFAULT_TTL := 60
  const UDP_TTL := 120
  const ICMP_TTL := 30

  // `signals` counts how often the completion channel was closed.
  datatype Flow = Flow(
    key: Key, authID: nat, appID: string, nodeGroupID: string,
    token: Token, signals: nat, authErr: Option<AuthError>,
    started: bool, timeouts: nat, meta: Meta, deadline: Option<int>, retryAt: Option<int>,
    pending: seq<Packet>, lastSeen: int, expiresAt: int, track: TcpTrack.Track)
  {
    predicate Signalled() { signals > 0 }

    function Signal(err: Option<AuthError>): Flow {
      this.(signals := signals + 1, authErr := err)
    }

    // removeLocked's effect on the flow itself.
    function Kill(err: AuthError): Flow {
      var dropped := this.(pending := []);
      if Signalled() then dropped else dropped.Signal(Some(err))
    }

    function See(what: Sighting, now: int): Flow {
      var seen := this.(lastSeen := now);
      match what
      case NotIPv4 => seen.(expiresAt := now + DEFAULT_TTL)
      case BrokenTcp => seen.(meta := meta.(proto := 6), expiresAt := now + DEFAULT_TTL)
      case Tcp(segment) =>
        var track' := TcpTrack.Observe(track, segment);
        seen.(meta := meta.(proto := 6), track := track', expiresAt := now + track'.ttl)
      case Udp => seen.(meta := meta.(proto := 17), expiresAt := now + UDP_TTL)
      case Icmp => seen.(meta := meta.(proto := 1), expiresAt := now + ICMP_TTL)
      case OtherProtocol(p) => seen.(meta := meta.(proto := p), expiresAt := now + DEFAULT_TTL)
    }

    predicate Expired(ttl: int, now: int) {
      now >= if ttl > 0 then lastSeen + ttl else expiresAt
    }

    // Waiting for an authentication request to be sent.
    predicate Eligible(now: int) {
      !started && pending != [] && (retryAt.Some? ==> now >= retryAt.value)
    }

    predicate Overdue(now: int) {
      deadline.Some? && now >= deadline.value
    }

    // One expired deadline: either another attempt or, with the budget spent, the end.
    function SpendTimeout(now: int): Flow {
      var spent := this.(timeouts := timeouts + 1);
      if spent.timeouts < MAX_AUTH_ATTEMPTS then spent.(started := false, deadline := None, retryAt := Some(now))
      else spent
    }
  }

  function NewFlow(key: Key, authID: nat, appID: string, nodeGroupID: string, now: int): Flow {
    Flow(key, authID, appID, nodeGroupID, [], 0, None, false, 0, Meta(0, ""), None, None,
         [], now, now + DEFAULT_TTL, TcpTrack.Initial)
  }

  // `flows` holds every flow ever created, `lru` the tracked ones from least to most recently seen.
  datatype Manager<R> = Manager(
    nextAuthID: nat, byKey: map<Key, R>, byID: map<nat, R>, lru: seq<R>, flows: map<R, Flow>,
    ttl: int, maxEntries: nat, closed: bool)
  {
    function Tracked(): set<R> { Members(lru) }
  }

  ghost predicate NoDangling<R>(m: Manager<R>) {
    && (forall k :: k in m.byKey ==> m.byKey[k] in m.flows)
    && (forall id :: id in m.byID ==> m.byID[id] in m.flows)
    && Members(m.lru) <= m.flows.Keys
  }

  function RemoveIndexes<R(==)>(m: Manager<R>, r: R): Manager<R>
    requires r in m.flows
  {
    var f := m.flows[r];
    m.(byKey := if f.key in m.byKey && m.byKey[f.key] == r then m.byKey - {f.key} else m.byKey,
       byID := if f.authID in m.byID && m.byID[f.authID] == r then m.byID - {f.authID} else m.byID,
       lru := Without(m.lru, r))
  }

  function Remove<R(==)>(m: Manager<R>, r: R, err: AuthError): Manager<R>
    requires r in m.flows
  {
    var m' := RemoveIndexes(m, r);
    m'.(flows := m'.flows[r := m'.flows[r].Kill(err)])
  }

  // removeExpiredLocked: one pass over the list `rs` as it was when the pass began.
  function RemoveExpired<R(==)>(m: Manager<R>, rs: seq<R>, now: int): (m': Manager<R>)
    requires NoDangling(m) && Members(rs) <= m.flows.Keys
    ensures NoDangling(m') && m'.flows.Keys == m.flows.Keys
    decreases rs
  {
    if rs == [] then m
    else
      var m1 := if m.flows[rs[0]].Expired(m.ttl, now) then Remove(m, rs[0], Evicted) else m;
      RemoveExpired(m1, rs[1..], now)
  }

  // Making room, then adding a flow; a closed manager hands out the flow already signalled and untracked.
  function AddFlow<R(==)>(m: Manager<R>, spare: R, f: Flow): Manager<R>
    requires NoDangling(m)
  {
    if m.closed then m.(nextAuthID := f.authID, flows := m.flows[spare := f.Signal(Some(ManagerClosed))])
    else
      var m1 := MakeRoom(m);
      m1.(nextAuthID := f.authID, lru := m1.lru + [spare], byKey := m1.byKey[f.key := spare],
          byID := m1.byID[f.authID := spare], flows := m1.flows[spare := f])
  }

  // `spare` is the reference a new flow gets if one is made.
  function GetOrCreate<R(==)>(m: Manager<R>, spare: R, key: Key, appID: string, nodeGroupID: string,
          now: int): (Manager<R>, R)
    requires NoDangling(m)
  {
    var m1 := RemoveExpired(m, m.lru, now);
    if key in m1.byKey then
      var r := m1.byKey[key];
      (m1.(flows := m1.flows[r := m1.flows[r].(lastSeen := now)], lru := MoveToBack(m1.lru, r)), r)
    else
      (AddFlow(m1, spare, NewFlow(key, m1.nextAuthID + 1, appID, nodeGroupID, now)), spare)
  }

  function MakeRoom<R(==)>(m: Manager<R>): Manager<R>
    requires NoDangling(m)
  {
    if |m.byKey| >= m.maxEntries then RemoveOldest(m) else m
  }

  function RemoveOldest<R(==)>(m: Manager<R>): Manager<R>
    requires NoDangling(m)
  {
    if m.lru == [] then m else Remove(m, m.lru[0], Evicted)
  }

  function ObservePacket<R(==)>(m: Manager<R>, key: Key, what: Sighting, now: int): Manager<R>
    requires NoDangling(m)
  {
    if key !in m.byKey then m
    else
      var r := m.byKey[key];
      m.(flows := m.flows[r := m.flows[r].See(what, now)], lru := MoveToBack(m.lru, r))
  }

  // The flow that was completed by this call, and the packets it hands over for sending.
  datatype Completion<R> = NoCompletion | Completed(flow: R, packets: seq<Packet>)

  function CompleteAuth<R(==)>(m: Manager<R>, authID: nat, token: Token, err: Option<AuthError>): (Manager<R>,
          Completion<R>)
    requires NoDangling(m)
  {
    if authID !in m.byID || m.flows[m.byID[authID]].Signalled() then (m, NoCompletion)
    else
      var r := m.byID[authID];
      var f := m.flows[r];
      var f' := f.(pending := [], token := if token != [] then token else f.token).Signal(err);
      var m' := m.(flows := m.flows[r := f']);
      if err.Some? then (RemoveIndexes(m', r), Completed(r, []))
      else (m', Completed(r, f.pending))
  }

  datatype CacheResult = Cached | CacheFull | AlreadyDone(err: Option<AuthError>) | NotTracked

  // NotTracked is the fallback for a flow that left the index without being signalled.
  function CachePacket<R(==)>(m: Manager<R>, r: R, meta: Meta, packet: Packet): (Manager<R>, CacheResult)
    requires r in m.flows
  {
    var f := m.flows[r];
    if !(f.key in m.byKey && m.byKey[f.key] == r) then
      (m, if f.Signalled() then AlreadyDone(f.authErr) else NotTracked)
    else if f.Signalled() then (m, AlreadyDone(f.authErr))
    else if |f.pending| >= PENDING_LIMIT then (m, CacheFull)
    else (m.(flows := m.flows[r := f.(meta := meta, pending := f.pending + [packet])]), Cached)
  }

  datatype Job<R> = Job(flow: R, meta: Meta)

  // One pass of nextAuthBatch over the rest `rs` of the list, with `room` places left in the batch.
  function TakeBatch<R(==)>(m: Manager<R>, rs: seq<R>, room: nat, now: int): (Manager<R>, seq<Job<R>>, bool)
    requires Members(rs) <= m.flows.Keys
    decreases rs
  {
    if rs == [] then (m, [], false)
    else if !m.flows[rs[0]].Eligible(now) then TakeBatch(m, rs[1..], room, now)
    else if room == 0 then (m, [], true)
    else
      var f := m.flows[rs[0]];
      var (m', jobs, more) := TakeBatch(m.(flows := m.flows[rs[0] := f.(started := true)]), rs[1..], room - 1, now);
      (m', [Job(rs[0], f.meta)] + jobs, more)
  }

  function MarkAuthSent<R(==)>(m: Manager<R>, authID: nat, deadline: int): Manager<R>
    requires NoDangling(m)
  {
    if authID !in m.byID || m.flows[m.byID[authID]].Signalled() then m
    else m.(flows := m.flows[m.byID[authID] := m.flows[m.byID[authID]].(deadline := Some(deadline))])
  }

  // expireAuth's treatment of one flow; true when the flow is given up.
  function Charge<R(==)>(m: Manager<R>, r: R, now: int, err: AuthError): (res: (Manager<R>, bool))
    requires r in m.flows
    ensures res.0.flows.Keys == m.flows.Keys
  {
    if !m.flows[r].Overdue(now) then (m, false)
    else
      var f := m.flows[r].SpendTimeout(now);
      var m1 := m.(flows := m.flows[r := f]);
      if f.timeouts < MAX_AUTH_ATTEMPTS then (m1, false) else (Remove(m1, r, err), true)
  }

  // One pass of expireAuth over the list `rs`; the count is of flows given up.
  function ExpireAuth<R(==)>(m: Manager<R>, rs: seq<R>, now: int, err: AuthError): (res: (Manager<R>, nat))
    requires Members(rs) <= m.flows.Keys
    ensures res.0.flows.Keys == m.flows.Keys
    decreases rs
  {
    if rs == [] then (m, 0)
    else
      var (m1, gaveUp) := Charge(m, rs[0], now, err);
      var (m', n) := ExpireAuth(m1, rs[1..], now, err);
      (m', if gaveUp then n + 1 else n)
  }

  function RetryAuth<R(==)>(m: Manager<R>, authID: nat, delay: int, now: int): (Manager<R>, bool)
    requires NoDangling(m)
  {
    if authID !in m.byID || m.flows[m.byID[authID]].Signalled() then (m, false)
    else
      var r := m.byID[authID];
      (m.(flows := m.flows[r := m.flows[r].(started := false, deadline := None, retryAt := Some(now + delay))]), true)
  }

  function RemoveKey<R(==)>(m: Manager<R>, key: Key): Manager<R>
    requires NoDangling(m)
  {
    if key !in m.byKey then m else Remove(m, m.byKey[key], Evicted)
  }

  // close: every tracked flow is removed, in whatever order the key index is walked.
  function Close<R(==)>(m: Manager<R>): Manager<R> {
    m.(closed := true, byKey := map[], byID := map[], lru := [], flows := KillAll(m.flows, m.Tracked()))
  }

  function KillAll<R(==)>(flows: map<R, Flow>, tracked: set<R>): map<R, Flow> {
    map r | r in flows :: if r in tracked then flows[r].Kill(ManagerClosed) else flows[r]
  }

  // ---- The invariant: the three structures agree, ids are unique, and a flow outside the index is signalled.

  // The key index holds exactly the flows of the recency list, each under its own key; likewise by id.
  ghost predicate KeysAgree<R>(byKey: map<Key, R>, tracked: set<R>, flows: map<R, Flow>) {
    && |byKey| == |tracked|
    && (forall r :: r in tracked ==> r in flows && flows[r].key in byKey && byKey[flows[r].key] == r)
    && (forall k :: k in byKey ==> byKey[k] in tracked && byKey[k] in flows && flows[byKey[k]].key == k)
  }

  ghost predicate IdsAgree<R>(byID: map<nat, R>, tracked: set<R>, flows: map<R, Flow>) {
    && |byID| == |tracked|
    && (forall r :: r in tracked ==> r in flows && flows[r].authID in byID && byID[flows[r].authID] == r)
    && (forall id :: id in byID ==> byID[id] in tracked && byID[id] in flows && flows[byID[id]].authID == id)
  }

  ghost predicate IdsUnique<R>(flows: map<R, Flow>, nextAuthID: nat) {
    && (forall r :: r in flows ==> 0 < flows[r].authID <= nextAuthID)
    && (forall r, q :: r in flows && q in flows && r != q ==> flows[r].authID != flows[q].authID)
  }

  // A flow is signalled at most once, an unsignalled one has neither token nor error, a signalled one
  // holds no packets; outside the index it is signalled, inside it carries no error and has budget left.
  ghost predicate FlowOk(f: Flow, tracked: bool) {
    && f.signals <= 1
    && (f.Signalled() ==> f.pending == [])
    && (!f.Signalled() ==> f.authErr == None && f.token == [])
    && (!tracked ==> f.Signalled())
    && (tracked ==> f.authErr == None && f.timeouts < MAX_AUTH_ATTEMPTS)
    && |f.pending| <= PENDING_LIMIT
  }

  ghost predicate FlowsOk<R>(flows: map<R, Flow>, tracked: set<R>) {
    forall r :: r in flows ==> FlowOk(flows[r], r in tracked)
  }

  ghost predicate Inv<R>(m: Manager<R>)
    ensures Inv(m) ==> NoDangling(m)
  {
    && m.maxEntries >= 1 && |m.lru| <= m.maxEntries
    && Distinct(m.lru)
    && KeysAgree(m.byKey, m.Tracked(), m.flows) && IdsAgree(m.byID, m.Tracked(), m.flows)
    && IdsUnique(m.flows, m.nextAuthID)
    && FlowsOk(m.flows, m.Tracked())
    && (m.closed ==> m.lru == [])
  }

  // What no operation undoes: a flow keeps its identity, a signalled one its outcome, counts only grow.
  ghost predicate FlowEvolves(f: Flow, f': Flow) {
    && f'.key == f.key && f'.authID == f.authID && f'.appID == f.appID && f'.nodeGroupID == f.nodeGroupID
    && f.signals <= f'.signals && f.timeouts <= f'.timeouts
    && (f.Signalled() ==> f'.authErr == f.authErr && f'.token == f.token)
  }

  ghost predicate FlowsEvolve<R>(flows: map<R, Flow>, flows': map<R, Flow>) {
    forall r :: r in flows ==> r in flows' && FlowEvolves(flows[r], flows'[r])
  }

  // New flows get ids above every id ever given out.
  ghost predicate NewIdsAbove<R>(flows: map<R, Flow>, flows': map<R, Flow>, nextAuthID: nat) {
    forall r :: r in flows' && r !in flows ==> flows'[r].authID > nextAuthID
  }

  // Only new flows enter the index: one that left it never returns.
  ghost predicate Evolves<R>(m: Manager<R>, m': Manager<R>) {
    && m.nextAuthID <= m'.nextAuthID && (m.closed ==> m'.closed)
    && m'.ttl == m.ttl && m'.maxEntries == m.maxEntries
    && FlowsEvolve(m.flows, m'.flows)
    && NewIdsAbove(m.flows, m'.flows, m.nextAuthID)
    && m'.Tracked() * m.flows.Keys <= m.Tracked()
  }

  // ---- Runs: any sequence of critical sections, by whatever goroutines.

  datatype Op<R> =
    | DoGetOrCreate(spare: R, key: Key, appID: string, nodeGroupID: string, now: int)
    | DoObserve(key: Key, what: Sighting, now: int)
    | DoComplete(authID: nat, token: Token, outcome: Option<AuthError>)
    | DoCache(flow: R, meta: Meta, packet: Packet)
    | DoBatch(limit: nat, now: int)
    | DoMarkSent(authID: nat, deadline: int)
    | DoExpireAuth(now: int, err: AuthError)
    | DoRetry(authID: nat, delay: int, now: int)
    | DoRemove(key: Key)
    | DoRemoveExpired(now: int)
    | DoClose

  // A new flow gets a reference nothing else has; a packet is cached on a flow that exists.
  ghost predicate OpOk<R>(m: Manager<R>, op: Op<R>) {
    match op
    case DoGetOrCreate(spare, _, _, _, _) => spare !in m.flows
    case DoCache(r, _, _) => r in m.flows
    case _ => true
  }

  function Step<R(==)>(m: Manager<R>, op: Op<R>): Manager<R>
    requires NoDangling(m) && OpOk(m, op)
  {
    match op
    case DoGetOrCreate(spare, key, appID, group, now) => GetOrCreate(m, spare, key, appID, group, now).0
    case DoObserve(key, what, now) => ObservePacket(m, key, what, now)
    case DoComplete(authID, token, err) => CompleteAuth(m, authID, token, err).0
    case DoCache(r, meta, packet) => CachePacket(m, r, meta, packet).0
    case DoBatch(limit, now) => TakeBatch(m, m.lru, limit, now).0
    case DoMarkSent(authID, deadline) => MarkAuthSent(m, authID, deadline)
    case DoExpireAuth(now, err) => ExpireAuth(m, m.lru, now, err).0
    case DoRetry(authID, delay, now) => RetryAuth(m, authID, delay, now).0
    case DoRemove(key) => RemoveKey(m, key)
    case DoRemoveExpired(now) => RemoveExpired(m, m.lru, now)
    case DoClose => Close(m)
  }

  // References always lead to a flow.
  ghost predicate Follows<R>(m: Manager<R>, op: Op<R>, m': Manager<R>) {
    NoDangling(m) && OpOk(m, op) && m' == Step(m, op)
  }

  // The states of a run, one more than its operations.
  ghost predicate IsRun<R>(states: seq<Manager<R>>, ops: seq<Op<R>>) {
    && |states| == |ops| + 1
    && forall i {:trigger ops[i]} :: 0 <= i < |ops| ==> Follows(states[i], ops[i], states[i + 1])
  }

  function NewManager<R>(ttl: int, maxEntries: nat): Manager<R> {
    Manager(0, map[], map[], [], map[], ttl, maxEntries, false)
  }
}
