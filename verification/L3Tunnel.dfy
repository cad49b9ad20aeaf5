// The tunnel manager: one connection and one flow tracker per node group, connect calls shared by their
// callers, reconnecting, eviction and closing, interleaved at every critical section of connsMu.
// `C`, `K` and `M` stand for references to connections, connect calls and flow trackers.
module L3Tunnel {
  import opened Bytes

  datatype Error = Closed | DialFailed

  // What connsMu protects, and whether closeCh is closed.
  datatype Maps<C(==), K(==), M(==)> = Maps(conns: map<string, C>, connecting: map<string, K>, mgrs: map<string, M>, closed: bool)

  // ---- The critical sections.

  datatype Lookup<C, K> = Have(conn: C) | Share(call: K) | Begin(call: K)

  function GetConn<C, K, M>(m: Maps<C, K, M>, spare: K, g: string): (Maps<C, K, M>, Lookup<C, K>) {
    if g in m.conns then (m, Have(m.conns[g]))
    else if g in m.connecting then (m, Share(m.connecting[g]))
    else (m.(connecting := m.connecting[g := spare]), Begin(spare))
  }

  function StartReconnect<C, K, M>(m: Maps<C, K, M>, spare: K, g: string): (Maps<C, K, M>, Option<K>) {
    if g in m.conns || g in m.connecting then (m, None)
    else (m.(connecting := m.connecting[g := spare]), Some(spare))
  }

  function GetMgr<C, K, M>(m: Maps<C, K, M>, spare: M, g: string): (Maps<C, K, M>, Option<M>) {
    if m.closed then (m, None)
    else if g in m.mgrs then (m, Some(m.mgrs[g]))
    else (m.(mgrs := m.mgrs[g := spare]), Some(spare))
  }

  function EvictConn<C(==), K, M>(m: Maps<C, K, M>, g: string, c: C): (Maps<C, K, M>, bool) {
    if g in m.conns && m.conns[g] == c then (m.(conns := m.conns - {g}), true) else (m, false)
  }

  // The address a group should use now: its best node, or else the best node of the major group.
  function BestAddr(best: map<string, string>, major: string, g: string): string {
    if g in best && best[g] != "" then best[g] else if major in best then best[major] else ""
  }

  predicate IsStale(best: map<string, string>, major: string, g: string, addr: string) {
    BestAddr(best, major, g) != "" && addr != BestAddr(best, major, g)
  }

  // evictStaleConns: the groups whose connection is stale lose it.
  function EvictStale<C, K, M>(m: Maps<C, K, M>, stale: set<string>): Maps<C, K, M> {
    m.(conns := m.conns - stale)
  }

  datatype Finished<C> = Mismatch | Connected | Failed(err: Error)

  function FinishConnect<C, K(==), M>(m: Maps<C, K, M>, g: string, call: K, conn: Option<C>,
          err: Option<Error>): (Maps<C, K, M>, Finished<C>)
    requires err.None? ==> conn.Some?
  {
    if !(g in m.connecting && m.connecting[g] == call) then (m, Mismatch)
    else
      var m' := m.(connecting := m.connecting - {g});
      if err.Some? then (m', Failed(err.value))
      else if m.closed then (m', Failed(Closed))
      else (m'.(conns := m'.conns[g := conn.value]), Connected)
  }

  function Collect<C, K, M>(m: Maps<C, K, M>): Maps<C, K, M> {
    m.(conns := map[], mgrs := map[])
  }

  // ---- The protocol.

  datatype Conn<M> = Conn(group: string, addr: string, mgr: M, closed: bool)

  datatype Mgr = Mgr(group: string, closed: bool)

  // `completions` counts how often the done channel was closed; `worker` is the goroutine that connects.
  datatype Call<C> = Call(group: string, worker: nat, completions: nat, conn: Option<C>, err: Option<Error>)

  datatype Pc<C(==), K(==), M(==)> =
    | Waiting(call: K)
    | Told(call: K, conn: Option<C>, err: Option<Error>)
    | ToldClosed
    | Pausing(group: string, call: K)
    | Dialing(group: string, call: K)
    | Connecting(group: string, call: K, mgr: M)
    | Finishing(group: string, call: K, conn: Option<C>, err: Option<Error>)
    | Collecting
    | Closing(conns: set<C>, mgrs: set<M>)
    | Ended
  {
    predicate Works() { Pausing? || Dialing? || Connecting? || Finishing? }

    predicate OwnsConn(c: C) { (Finishing? && conn == Some(c)) || (Closing? && c in conns) }

    predicate OwnsMgr(m: M) { Closing? && m in mgrs }

    predicate AtEnd() { Told? || ToldClosed? || Ended? || (Closing? && conns == {} && mgrs == {}) }
  }

  datatype Sys<C(==), K(==), M(==)> = Sys(
    maps: Maps<C, K, M>, conns: map<C, Conn<M>>, mgrs: map<M, Mgr>, calls: map<K, Call<C>>,
    threads: map<nat, Pc<C, K, M>>, collected: bool)
  {
    function At(t: nat, pc: Pc<C, K, M>): Sys<C, K, M> {
      this.(threads := threads[t := pc])
    }
  }

  datatype Action<C, K, M> =
    | Get(t: nat, u: nat, spare: K, g: string)
    | Receive(t: nat)
    | SeeClosed(t: nat)
    | Reconnect(u: nat, spare: K, g: string)
    | Tick(t: nat)
    | Stop(t: nat)
    | TakeMgr(t: nat, spareM: M)
    | GiveUp(t: nat)
    | Connect(t: nat, spareC: C, addr: string)
    | Finish(t: nat)
    | Evict(t: nat, g: string, c: C)
    | EvictAllStale(t: nat, best: map<string, string>, major: string)
    | Drop(c: C)
    | BeginClose(t: nat)
    | CollectAll(t: nat)
    | CloseConn(t: nat, c: C)
    | CloseMgr(t: nat, m: M)

  ghost predicate Known<C, K, M>(s: Sys<C, K, M>) {
    forall g :: g in s.maps.conns ==> s.maps.conns[g] in s.conns
  }

  ghost predicate Enabled<C, K, M>(s: Sys<C, K, M>, a: Action<C, K, M>) {
    && Known(s)
    && match a
       case Get(t, u, spare, _) => t !in s.threads && u !in s.threads && t != u && spare !in s.calls
       case Receive(t) => t in s.threads && s.threads[t].Waiting? && s.threads[t].call in s.calls && s.calls[s.threads[t].call].completions > 0
       case SeeClosed(t) => t in s.threads && s.threads[t].Waiting? && s.maps.closed
       case Reconnect(u, spare, _) => u !in s.threads && spare !in s.calls
       case Tick(t) => t in s.threads && s.threads[t].Pausing?
       case Stop(t) => t in s.threads && s.threads[t].Pausing? && s.maps.closed
       case TakeMgr(t, spareM) => t in s.threads && s.threads[t].Dialing? && spareM !in s.mgrs
       case GiveUp(t) => t in s.threads && (s.threads[t].Dialing? || s.threads[t].Connecting?)
       case Connect(t, spareC, _) => t in s.threads && s.threads[t].Connecting? && spareC !in s.conns
       case Finish(t) => t in s.threads && s.threads[t].Finishing? && s.threads[t].call in s.calls
         && (s.threads[t].err.None? ==> s.threads[t].conn.Some?)
       case Evict(t, _, c) => t !in s.threads && c in s.conns
       case EvictAllStale(t, _, _) => t !in s.threads
       case Drop(c) => c in s.conns
       case BeginClose(t) => t !in s.threads && !s.maps.closed
       case CollectAll(t) => t in s.threads && s.threads[t].Collecting?
       case CloseConn(t, c) => t in s.threads && s.threads[t].Closing? && c in s.threads[t].conns && c in s.conns
       case CloseMgr(t, m) => t in s.threads && s.threads[t].Closing? && m in s.threads[t].mgrs && m in s.mgrs
  }

  // A connect goroutine `u` for the call `k`.
  function Spawn<C, K, M>(s: Sys<C, K, M>, u: nat, k: K, g: string, first: Pc<C, K, M>): Sys<C, K, M> {
    s.(calls := s.calls[k := Call(g, u, 0, None, None)], threads := s.threads[u := first])
  }

  ghost function StaleGroups<C, K, M>(s: Sys<C, K, M>, best: map<string, string>, major: string): set<string>
    requires Known(s)
  {
    set g | g in s.maps.conns && IsStale(best, major, g, s.conns[s.maps.conns[g]].addr)
  }

  ghost function FinishStep<C, K, M>(s: Sys<C, K, M>, t: nat): Sys<C, K, M>
    requires Enabled(s, Finish(t))
  {
    var pc := s.threads[t];
    var (maps, res) := FinishConnect(s.maps, pc.group, pc.call, pc.conn, pc.err);
    var s' := s.(maps := maps);
    var rest := if pc.conn.Some? then Closing({pc.conn.value}, {}) else Ended;
    var call := s.calls[pc.call];
    match res
    case Mismatch => s'.At(t, rest)
    case Connected =>
      s'.(calls := s.calls[pc.call := call.(completions := call.completions + 1, conn := pc.conn, err := None)]).At(t, Ended)
    case Failed(err) =>
      s'.(calls := s.calls[pc.call := call.(completions := call.completions + 1, conn := pc.conn, err := Some(err))]).At(t, rest)
  }

  ghost function Next<C, K, M>(s: Sys<C, K, M>, a: Action<C, K, M>): Sys<C, K, M>
    requires Enabled(s, a)
  {
    match a
    case Get(t, u, spare, g) =>
      var (maps, res) := GetConn(s.maps, spare, g);
      var s' := s.(maps := maps);
      (match res
       case Have(c) => s'.At(t, Ended)
       case Share(k) => s'.At(t, Waiting(k))
       case Begin(k) => Spawn(s', u, k, g, Dialing(g, k)).At(t, Waiting(k)))
    case Receive(t) =>
      var call := s.calls[s.threads[t].call];
      s.At(t, Told(s.threads[t].call, call.conn, call.err))
    case SeeClosed(t) => s.At(t, ToldClosed)
    case Reconnect(u, spare, g) =>
      var (maps, k) := StartReconnect(s.maps, spare, g);
      if k.None? then s else Spawn(s.(maps := maps), u, spare, g, Pausing(g, spare))
    case Tick(t) => s.At(t, Dialing(s.threads[t].group, s.threads[t].call))
    case Stop(t) => s.At(t, Finishing(s.threads[t].group, s.threads[t].call, None, Some(Closed)))
    case TakeMgr(t, spareM) =>
      var pc := s.threads[t];
      var (maps, m) := GetMgr(s.maps, spareM, pc.group);
      var s' := s.(maps := maps, mgrs := if m == Some(spareM) then s.mgrs[spareM := Mgr(pc.group, false)] else s.mgrs);
      s'.At(t, if m.Some? then Connecting(pc.group, pc.call, m.value) else Pausing(pc.group, pc.call))
    case GiveUp(t) => s.At(t, Pausing(s.threads[t].group, s.threads[t].call))
    case Connect(t, spareC, addr) =>
      var pc := s.threads[t];
      s.(conns := s.conns[spareC := Conn(pc.group, addr, pc.mgr, false)]).At(t, Finishing(pc.group, pc.call, Some(spareC), None))
    case Finish(t) => FinishStep(s, t)
    case Evict(t, g, c) =>
      var (maps, removed) := EvictConn(s.maps, g, c);
      s.(maps := maps).At(t, if removed then Closing({c}, {}) else Ended)
    case EvictAllStale(t, best, major) =>
      var stale := StaleGroups(s, best, major);
      s.(maps := EvictStale(s.maps, stale)).At(t, Closing(set g | g in stale :: s.maps.conns[g], {}))
    case Drop(c) => s.(conns := s.conns[c := s.conns[c].(closed := true)])
    case BeginClose(t) => s.(maps := s.maps.(closed := true)).At(t, Collecting)
    case CollectAll(t) => s.(maps := Collect(s.maps), collected := true).At(t, Closing(s.maps.conns.Values, s.maps.mgrs.Values))
    case CloseConn(t, c) =>
      s.(conns := s.conns[c := s.conns[c].(closed := true)]).At(t, Closing(s.threads[t].conns - {c}, s.threads[t].mgrs))
    case CloseMgr(t, m) =>
      s.(mgrs := s.mgrs[m := s.mgrs[m].(closed := true)]).At(t, Closing(s.threads[t].conns, s.threads[t].mgrs - {m}))
  }

  ghost predicate IsRun<C, K, M>(states: seq<Sys<C, K, M>>, actions: seq<Action<C, K, M>>) {
    && |states| == |actions| + 1
    && forall i {:trigger actions[i]} :: 0 <= i < |actions| ==>
         Enabled(states[i], actions[i]) && states[i + 1] == Next(states[i], actions[i])
  }

  function Start<C, K, M>(): Sys<C, K, M> {
    Sys(Maps(map[], map[], map[], false), map[], map[], map[], map[], false)
  }

  // ---- The invariant.

  // A group is not both connected and connecting. A call is open exactly while its group is connecting
  // with it, and then its own goroutine, and no other, is working on it.
  ghost predicate CallsOk<C, K, M>(s: Sys<C, K, M>) {
    && s.maps.conns.Keys !! s.maps.connecting.Keys
    && (forall g :: g in s.maps.connecting ==> s.maps.connecting[g] in s.calls && s.calls[s.maps.connecting[g]].group == g)
    && (forall k :: k in s.calls ==> CallOk(s, k))
  }

  ghost predicate CallOk<C, K, M>(s: Sys<C, K, M>, k: K)
    requires k in s.calls
  {
    var call := s.calls[k];
    var open := call.group in s.maps.connecting && s.maps.connecting[call.group] == k;
    && call.completions == (if open then 0 else 1)
    && (open ==> call.worker in s.threads && s.threads[call.worker].Works() && s.threads[call.worker].call == k)
    && (call.completions == 1 && call.err.None? ==>
          call.conn.Some? && call.conn.value in s.conns && s.conns[call.conn.value].group == call.group)
  }

  ghost predicate PcOk<C, K, M>(s: Sys<C, K, M>, t: nat, pc: Pc<C, K, M>) {
    match pc
    case Waiting(k) => k in s.calls
    case Told(k, conn, err) => k in s.calls && s.calls[k].completions == 1 && conn == s.calls[k].conn && err == s.calls[k].err
    case Pausing(g, k) => IsWorker(s, t, g, k)
    case Dialing(g, k) => IsWorker(s, t, g, k)
    case Connecting(g, k, m) => IsWorker(s, t, g, k) && m in s.mgrs && s.mgrs[m].group == g
    case Finishing(g, k, conn, err) => IsWorker(s, t, g, k) && FinishOk(s, g, conn, err)
    case Collecting => s.maps.closed
    case Closing(conns, mgrs) => conns <= s.conns.Keys && mgrs <= s.mgrs.Keys
    case ToldClosed => s.maps.closed
    case Ended => true
  }

  ghost predicate IsWorker<C, K, M>(s: Sys<C, K, M>, t: nat, g: string, k: K) {
    g in s.maps.connecting && s.maps.connecting[g] == k && k in s.calls && s.calls[k].worker == t
  }

  ghost predicate FinishOk<C, K, M>(s: Sys<C, K, M>, g: string, conn: Option<C>, err: Option<Error>) {
    (err.None? ==> conn.Some?) && (conn.Some? ==> conn.value in s.conns && s.conns[conn.value].group == g)
  }

  ghost predicate PcsOk<C, K, M>(s: Sys<C, K, M>) {
    forall t :: t in s.threads ==> PcOk(s, t, s.threads[t])
  }

  ghost predicate ConnOwned<C, K, M>(threads: map<nat, Pc<C, K, M>>, c: C) {
    exists t :: t in threads && threads[t].OwnsConn(c)
  }

  ghost predicate MgrOwned<C, K, M>(threads: map<nat, Pc<C, K, M>>, m: M) {
    exists t :: t in threads && threads[t].OwnsMgr(m)
  }

  ghost predicate Installed<C, K, M>(s: Sys<C, K, M>, g: string, c: C) {
    g in s.maps.conns && s.maps.conns[g] == c
  }

  // Nobody leaks: a connection is closed, installed, or in the hands of a goroutine about to install or
  // close it; it was made for its group's flow tracker.
  ghost predicate ConnOk<C, K, M>(s: Sys<C, K, M>, c: C)
    requires c in s.conns
  {
    var conn := s.conns[c];
    && conn.mgr in s.mgrs && s.mgrs[conn.mgr].group == conn.group
    && (conn.closed || Installed(s, conn.group, c) || ConnOwned(s.threads, c))
  }

  ghost predicate ConnsOk<C, K, M>(s: Sys<C, K, M>) {
    && (forall g :: g in s.maps.conns ==> s.maps.conns[g] in s.conns && s.conns[s.maps.conns[g]].group == g)
    && (forall c :: c in s.conns ==> ConnOk(s, c))
  }

  // A group has one flow tracker for good; it too is closed, registered, or about to be closed.
  ghost predicate MgrOk<C, K, M>(s: Sys<C, K, M>, m: M)
    requires m in s.mgrs
  {
    var g := s.mgrs[m].group;
    && (s.mgrs[m].closed || (g in s.maps.mgrs && s.maps.mgrs[g] == m) || MgrOwned(s.threads, m))
    && (!s.maps.closed ==> g in s.maps.mgrs)
  }

  ghost predicate MgrsOk<C, K, M>(s: Sys<C, K, M>) {
    && (forall g :: g in s.maps.mgrs ==> s.maps.mgrs[g] in s.mgrs && s.mgrs[s.maps.mgrs[g]].group == g)
    && (forall m :: m in s.mgrs ==> MgrOk(s, m))
    && (forall m, n :: m in s.mgrs && n in s.mgrs && s.mgrs[m].group == s.mgrs[n].group ==> m == n)
  }

  ghost predicate SysInv<C, K, M>(s: Sys<C, K, M>) {
    && CallsOk(s)
    && PcsOk(s)
    && ConnsOk(s)
    && MgrsOk(s)
    && (s.collected ==> s.maps.closed && s.maps.conns == map[] && s.maps.mgrs == map[])
  }

  // ---- Proofs.

  // Nothing that is known is forgotten.
  ghost predicate Grows<C, K, M>(s: Sys<C, K, M>, s': Sys<C, K, M>) {
    && (s.maps.closed ==> s'.maps.closed)
    && (forall c :: c in s.conns ==> c in s'.conns && s'.conns[c].group == s.conns[c].group
                                     && s'.conns[c].mgr == s.conns[c].mgr && (s.conns[c].closed ==> s'.conns[c].closed))
    && (forall m :: m in s.mgrs ==> m in s'.mgrs && s'.mgrs[m].group == s.mgrs[m].group && (s.mgrs[m].closed ==> s'.mgrs[m].closed))
    && (forall k :: k in s.calls ==> k in s'.calls && s'.calls[k].worker == s.calls[k].worker
                                     && (s.calls[k].completions == 1 ==> s'.calls[k] == s.calls[k]))
  }

  lemma GrowsInConn<C, K, M>(s: Sys<C, K, M>, s': Sys<C, K, M>, c: C)
    requires s'.mgrs == s.mgrs && s'.calls == s.calls && s'.maps.closed == s.maps.closed
    requires c in s'.conns && s'.conns == s.conns[c := s'.conns[c]]
    requires c in s.conns ==> s'.conns[c] == s.conns[c].(closed := true)
    ensures Grows(s, s')
  {}

  lemma GrowsInMgr<C, K, M>(s: Sys<C, K, M>, s': Sys<C, K, M>, m: M)
    requires s'.conns == s.conns && s'.calls == s.calls && s'.maps.closed == s.maps.closed
    requires m in s'.mgrs && s'.mgrs == s.mgrs[m := s'.mgrs[m]]
    requires m in s.mgrs ==> s'.mgrs[m] == s.mgrs[m].(closed := true)
    ensures Grows(s, s')
  {}

  lemma GrowsInCall<C, K, M>(s: Sys<C, K, M>, s': Sys<C, K, M>, k: K)
    requires s'.conns == s.conns && s'.mgrs == s.mgrs && s'.maps.closed == s.maps.closed
    requires k in s'.calls && s'.calls == s.calls[k := s'.calls[k]]
    requires k in s.calls ==> s.calls[k].completions == 0 && s'.calls[k].worker == s.calls[k].worker
    ensures Grows(s, s')
  {}

  // A goroutine's knowledge survives, if its call (when it is working on one) is still its group's.
  lemma PcStable<C, K, M>(s: Sys<C, K, M>, s': Sys<C, K, M>, t: nat, pc: Pc<C, K, M>)
    requires PcOk(s, t, pc) && Grows(s, s')
    requires pc.Works() ==> pc.group in s'.maps.connecting && s'.maps.connecting[pc.group] == pc.call
    ensures PcOk(s', t, pc)
  {}

  lemma PcsKeep<C, K, M>(s: Sys<C, K, M>, s': Sys<C, K, M>, t: nat)
    requires PcsOk(s) && Grows(s, s') && t in s'.threads && s'.threads == s.threads[t := s'.threads[t]]
    requires PcOk(s', t, s'.threads[t])
    requires forall g :: g in s.maps.connecting && s.maps.connecting[g] in s.calls && s.calls[s.maps.connecting[g]].worker != t ==>
               g in s'.maps.connecting && s'.maps.connecting[g] == s.maps.connecting[g]
    ensures PcsOk(s')
  {
    hide Grows;
    forall u | u in s'.threads && u != t ensures PcOk(s', u, s'.threads[u]) {
      assert PcOk(s, u, s.threads[u]);
      PcStable(s, s', u, s.threads[u]);
    }
  }

  // No call opens or ends, no group gets connected.
  lemma CallsKeep<C, K, M>(s: Sys<C, K, M>, s': Sys<C, K, M>, t: nat)
    requires CallsOk(s) && Grows(s, s') && t in s'.threads && s'.threads == s.threads[t := s'.threads[t]]
    requires s'.maps.connecting == s.maps.connecting && s'.calls == s.calls && s'.maps.conns.Keys <= s.maps.conns.Keys
    requires t in s.threads && s.threads[t].Works() ==> s'.threads[t].Works() && s'.threads[t].call == s.threads[t].call
    ensures CallsOk(s')
  {
    forall k | k in s'.calls ensures CallOk(s', k) { assert CallOk(s, k); }
  }

  lemma ConnStillOwned<C, K, M>(threads: map<nat, Pc<C, K, M>>, t: nat, pc: Pc<C, K, M>, c: C)
    requires ConnOwned(threads, c) && (t in threads && threads[t].OwnsConn(c) ==> pc.OwnsConn(c))
    ensures ConnOwned(threads[t := pc], c)
  {
    var u :| u in threads && threads[u].OwnsConn(c);
    assert threads[t := pc][u].OwnsConn(c);
  }

  lemma MgrStillOwned<C, K, M>(threads: map<nat, Pc<C, K, M>>, t: nat, pc: Pc<C, K, M>, m: M)
    requires MgrOwned(threads, m) && (t in threads && threads[t].OwnsMgr(m) ==> pc.OwnsMgr(m))
    ensures MgrOwned(threads[t := pc], m)
  {
    var u :| u in threads && threads[u].OwnsMgr(m);
    assert threads[t := pc][u].OwnsMgr(m);
  }

  // Whoever loses a connection, by uninstalling it or by letting go of it, hands it on or has closed it.
  lemma ConnsKeep<C, K, M>(s: Sys<C, K, M>, s': Sys<C, K, M>, t: nat)
    requires ConnsOk(s) && Grows(s, s') && t in s'.threads && s'.threads == s.threads[t := s'.threads[t]]
    requires forall g :: g in s'.maps.conns ==> s'.maps.conns[g] in s'.conns && s'.conns[s'.maps.conns[g]].group == g
    requires forall c :: c in s'.conns && c !in s.conns ==> ConnOk(s', c)
    requires forall g, c :: Installed(s, g, c) && !Installed(s', g, c) ==> s'.threads[t].OwnsConn(c)
    requires t in s.threads ==> forall c :: c in s.conns && s.threads[t].OwnsConn(c) && !s'.threads[t].OwnsConn(c) ==>
               s'.conns[c].closed || Installed(s', s.conns[c].group, c)
    ensures ConnsOk(s')
  {
    forall c | c in s'.conns && c in s.conns ensures ConnOk(s', c) {
      assert ConnOk(s, c);
      if ConnOwned(s.threads, c) && (t in s.threads && s.threads[t].OwnsConn(c) ==> s'.threads[t].OwnsConn(c)) {
        ConnStillOwned(s.threads, t, s'.threads[t], c);
      }
    }
  }

  lemma MgrsKeep<C, K, M>(s: Sys<C, K, M>, s': Sys<C, K, M>, t: nat)
    requires MgrsOk(s) && Grows(s, s') && t in s'.threads && s'.threads == s.threads[t := s'.threads[t]]
    requires s'.mgrs.Keys == s.mgrs.Keys
    requires s'.maps.mgrs == s.maps.mgrs
    requires t in s.threads ==> forall m :: m in s.mgrs && s.threads[t].OwnsMgr(m) && !s'.threads[t].OwnsMgr(m) ==> s'.mgrs[m].closed
    ensures MgrsOk(s')
  {
    forall m | m in s'.mgrs ensures MgrOk(s', m) {
      assert MgrOk(s, m);
      if MgrOwned(s.threads, m) && (t in s.threads && s.threads[t].OwnsMgr(m) ==> s'.threads[t].OwnsMgr(m)) {
        MgrStillOwned(s.threads, t, s'.threads[t], m);
      }
    }
  }

  // A goroutine moves, and nothing else.
  lemma ThreadKeeps<C, K, M>(s: Sys<C, K, M>, t: nat, pc: Pc<C, K, M>)
    requires SysInv(s) && PcOk(s, t, pc)
    requires t in s.threads && s.threads[t].Works() ==> pc.Works() && pc.call == s.threads[t].call
    requires forall c :: !pc.OwnsConn(c) && (t in s.threads ==> !s.threads[t].OwnsConn(c))
    requires forall m :: !pc.OwnsMgr(m) && (t in s.threads ==> !s.threads[t].OwnsMgr(m))
    ensures SysInv(s.At(t, pc))
  {
    var s' := s.At(t, pc);
    assert Grows(s, s');
    assert PcOk(s', t, pc) by { PcStable(s, s', t, pc); }
    hide CallsOk, PcsOk, ConnsOk, MgrsOk, Grows, PcOk;
    ThreadKeepsParts(s, s', t);
  }

  lemma ThreadKeepsParts<C, K, M>(s: Sys<C, K, M>, s': Sys<C, K, M>, t: nat)
    requires SysInv(s) && Grows(s, s') && t in s'.threads && PcOk(s', t, s'.threads[t]) && s' == s.At(t, s'.threads[t])
    requires t in s.threads && s.threads[t].Works() ==> s'.threads[t].Works() && s'.threads[t].call == s.threads[t].call
    requires forall c :: !s'.threads[t].OwnsConn(c) && (t in s.threads ==> !s.threads[t].OwnsConn(c))
    requires forall m :: !s'.threads[t].OwnsMgr(m) && (t in s.threads ==> !s.threads[t].OwnsMgr(m))
    ensures SysInv(s')
  {
    hide CallsOk, PcsOk, Grows, PcOk, ConnOk, MgrsOk;
    CallsKeep(s, s', t);
    PcsKeep(s, s', t);
    ConnsKeep(s, s', t);
    MgrsKeep(s, s', t);
  }

  // A new connect goroutine `u` on a fresh call.
  lemma SpawnKeeps<C, K, M>(s: Sys<C, K, M>, u: nat, k: K, g: string, first: Pc<C, K, M>)
    requires SysInv(s) && u !in s.threads && k !in s.calls && g !in s.maps.conns && g !in s.maps.connecting
    requires first == Dialing(g, k) || first == Pausing(g, k)
    ensures SysInv(Spawn(s.(maps := s.maps.(connecting := s.maps.connecting[g := k])), u, k, g, first))
  {
    var s' := Spawn(s.(maps := s.maps.(connecting := s.maps.connecting[g := k])), u, k, g, first);
    assert Grows(s, s');
    SpawnKeepsCalls(s, s', u, k, g);
    hide CallsOk, Grows, ConnOk, MgrsOk;
    PcsKeep(s, s', u);
    ConnsKeep(s, s', u);
    MgrsKeep(s, s', u);
  }

  lemma SpawnKeepsCalls<C, K, M>(s: Sys<C, K, M>, s': Sys<C, K, M>, u: nat, k: K, g: string)
    requires CallsOk(s) && u !in s.threads && k !in s.calls && g !in s.maps.conns && g !in s.maps.connecting
    requires s'.maps == s.maps.(connecting := s.maps.connecting[g := k]) && s'.conns == s.conns
    requires s'.calls == s.calls[k := Call(g, u, 0, None, None)]
    requires u in s'.threads && s'.threads == s.threads[u := s'.threads[u]]
    requires s'.threads[u].Works() && s'.threads[u].call == k
    ensures CallsOk(s')
  {
    forall q | q in s'.calls ensures CallOk(s', q) {
      if q != k { assert CallOk(s, q); }
    }
  }

  lemma GetKeeps<C, K, M>(s: Sys<C, K, M>, t: nat, u: nat, spare: K, g: string)
    requires SysInv(s) && Enabled(s, Get(t, u, spare, g))
    ensures SysInv(Next(s, Get(t, u, spare, g)))
  {
    hide CallsOk, PcsOk, ConnsOk, MgrsOk;
    if g in s.maps.conns {
      ThreadKeeps(s, t, Ended);
    } else if g in s.maps.connecting {
      assert PcOk(s, t, Waiting(s.maps.connecting[g])) by { CallKnown(s, g); }
      ThreadKeeps(s, t, Waiting(s.maps.connecting[g]));
    } else {
      SpawnKeeps(s, u, spare, g, Dialing(g, spare));
      ThreadKeeps(Spawn(s.(maps := s.maps.(connecting := s.maps.connecting[g := spare])), u, spare, g, Dialing(g, spare)), t, Waiting(spare));
    }
  }

  lemma CallKnown<C, K, M>(s: Sys<C, K, M>, g: string)
    requires CallsOk(s) && g in s.maps.connecting
    ensures s.maps.connecting[g] in s.calls
  {}

  lemma PcKnown<C, K, M>(s: Sys<C, K, M>, t: nat)
    requires PcsOk(s) && t in s.threads
    ensures PcOk(s, t, s.threads[t])
  {}

  lemma ReceiveKeeps<C, K, M>(s: Sys<C, K, M>, t: nat)
    requires SysInv(s) && Enabled(s, Receive(t))
    ensures SysInv(Next(s, Receive(t)))
  {
    var k := s.threads[t].call;
    assert CallOk(s, k);
    hide SysInv;
    ThreadKeeps(s, t, Told(k, s.calls[k].conn, s.calls[k].err));
  }

  lemma TakeMgrKeeps<C, K, M>(s: Sys<C, K, M>, t: nat, spareM: M)
    requires SysInv(s) && Enabled(s, TakeMgr(t, spareM))
    ensures SysInv(Next(s, TakeMgr(t, spareM)))
  {
    hide CallsOk, PcsOk, ConnsOk, MgrsOk;
    PcKnown(s, t);
    var g, k := s.threads[t].group, s.threads[t].call;
    if s.maps.closed {
      ThreadKeeps(s, t, Pausing(g, k));
    } else if g in s.maps.mgrs {
      MgrKnown(s, g);
      ThreadKeeps(s, t, Connecting(g, k, s.maps.mgrs[g]));
    } else {
      NewMgrKeeps(s, spareM, g);
      var s1 := s.(maps := s.maps.(mgrs := s.maps.mgrs[g := spareM]), mgrs := s.mgrs[spareM := Mgr(g, false)]);
      PcKnown(s1, t);
      ThreadKeeps(s1, t, Connecting(g, k, spareM));
    }
  }

  lemma MgrKnown<C, K, M>(s: Sys<C, K, M>, g: string)
    requires MgrsOk(s) && g in s.maps.mgrs
    ensures s.maps.mgrs[g] in s.mgrs && s.mgrs[s.maps.mgrs[g]].group == g
  {}

  // No goroutine moves and no map of groups changes but the flow trackers'.
  lemma HeapKeeps<C, K, M>(s: Sys<C, K, M>, s': Sys<C, K, M>)
    requires CallsOk(s) && PcsOk(s) && ConnsOk(s) && Grows(s, s') && s'.threads == s.threads
    requires s'.calls == s.calls && s'.conns.Keys == s.conns.Keys
    requires s'.maps.connecting == s.maps.connecting && s'.maps.conns == s.maps.conns
    ensures CallsOk(s') && ConnsOk(s') && PcsOk(s')
  {
    hide PcOk;
    forall k | k in s'.calls ensures CallOk(s', k) { assert CallOk(s, k); }
    forall c | c in s'.conns ensures ConnOk(s', c) { assert ConnOk(s, c); }
    HeapKeepsPcs(s, s');
  }

  lemma HeapKeepsPcs<C, K, M>(s: Sys<C, K, M>, s': Sys<C, K, M>)
    requires PcsOk(s) && Grows(s, s') && s'.threads == s.threads && s'.maps.connecting == s.maps.connecting
    ensures PcsOk(s')
  {
    hide Grows;
    forall t | t in s'.threads ensures PcOk(s', t, s'.threads[t]) { PcStable(s, s', t, s.threads[t]); }
  }

  lemma NewMgrKeeps<C, K, M>(s: Sys<C, K, M>, m: M, g: string)
    requires SysInv(s) && m !in s.mgrs && !s.maps.closed && g !in s.maps.mgrs
    ensures SysInv(s.(maps := s.maps.(mgrs := s.maps.mgrs[g := m]), mgrs := s.mgrs[m := Mgr(g, false)]))
  {
    var s' := s.(maps := s.maps.(mgrs := s.maps.mgrs[g := m]), mgrs := s.mgrs[m := Mgr(g, false)]);
    hide CallsOk, PcsOk, ConnsOk, Grows;
    GrowsInMgr(s, s', m);
    HeapKeeps(s, s');
    forall n | n in s'.mgrs ensures MgrOk(s', n) { if n != m { assert MgrOk(s, n); } }
  }

  lemma ConnectKeeps<C, K, M>(s: Sys<C, K, M>, t: nat, c: C, addr: string)
    requires SysInv(s) && Enabled(s, Connect(t, c, addr))
    ensures SysInv(Next(s, Connect(t, c, addr)))
  {
    hide Grows, MgrsOk, CallsOk, PcsOk, ConnOk, ConnOwned;
    PcKnown(s, t);
    var s' := Next(s, Connect(t, c, addr));
    HandOk(s', t, c);
    GrowsInConn(s, s', c);
    CallsKeep(s, s', t);
    PcsKeep(s, s', t);
    ConnsKeep(s, s', t);
    MgrsKeep(s, s', t);
  }

  // A connection in a goroutine's hands.
  lemma HandOk<C, K, M>(s: Sys<C, K, M>, t: nat, c: C)
    requires c in s.conns && t in s.threads && s.threads[t].OwnsConn(c)
    requires s.conns[c].mgr in s.mgrs && s.mgrs[s.conns[c].mgr].group == s.conns[c].group
    ensures ConnOk(s, c)
  {}

  // The call a goroutine wants to complete is still its group's, so the branch that finds another is dead.
  lemma NoMismatch<C, K, M>(s: Sys<C, K, M>, t: nat)
    requires PcsOk(s) && Enabled(s, Finish(t))
    ensures var pc := s.threads[t]; FinishConnect(s.maps, pc.group, pc.call, pc.conn, pc.err).1 != Mismatch
  {
    PcKnown(s, t);
  }

  // What completing a call does.
  lemma FinishIs<C, K, M>(s: Sys<C, K, M>, t: nat)
    requires Enabled(s, Finish(t)) && PcOk(s, t, s.threads[t]) && s.calls[s.threads[t].call].completions == 0
    ensures IsFinished(s, t, FinishStep(s, t))
  {
    var pc := s.threads[t];
    hide PcOk, Known;
    assert FinishConnect(s.maps, pc.group, pc.call, pc.conn, pc.err).1 != Mismatch by { WorkerKnown(s, t, pc); }
  }

  lemma WorkerKnown<C, K, M>(s: Sys<C, K, M>, t: nat, pc: Pc<C, K, M>)
    requires PcOk(s, t, pc) && pc.Finishing?
    ensures IsWorker(s, t, pc.group, pc.call) && FinishOk(s, pc.group, pc.conn, pc.err)
  {}

  lemma FinishGrows<C, K, M>(s: Sys<C, K, M>, t: nat, s': Sys<C, K, M>)
    requires t in s.threads && s.threads[t].Finishing? && s.threads[t].call in s.calls
    requires s.calls[s.threads[t].call].completions == 0
    requires IsFinished(s, t, s')
    ensures Grows(s, s')
  {
    hide Grows;
    GrowsInCall(s, s', s.threads[t].call);
  }

  ghost predicate IsFinished<C, K, M>(s: Sys<C, K, M>, t: nat, s': Sys<C, K, M>)
    requires t in s.threads && s.threads[t].Finishing?
  {
    var pc := s.threads[t];
    var connected := pc.err.None? && !s.maps.closed;
    && (pc.err.None? ==> pc.conn.Some?)
    && pc.call in s'.calls && s'.calls == s.calls[pc.call := s'.calls[pc.call]]
    && (pc.call in s.calls ==> s'.calls[pc.call].group == s.calls[pc.call].group && s'.calls[pc.call].worker == s.calls[pc.call].worker)
    && s'.calls[pc.call].completions == 1 && s'.calls[pc.call].conn == pc.conn && (s'.calls[pc.call].err.None? <==> connected)
    && s'.maps == s.maps.(connecting := s.maps.connecting - {pc.group},
                          conns := if connected then s.maps.conns[pc.group := pc.conn.value] else s.maps.conns)
    && s' == s.(maps := s'.maps, calls := s'.calls).At(t, if connected || pc.conn.None? then Ended else Closing({pc.conn.value}, {}))
  }

  lemma FinishKeepsCalls<C, K, M>(s: Sys<C, K, M>, t: nat, s': Sys<C, K, M>)
    requires CallsOk(s) && t in s.threads && s.threads[t].Finishing? && PcOk(s, t, s.threads[t]) && IsFinished(s, t, s')
    ensures CallsOk(s')
  {
    assert CallOk(s, s.threads[t].call);
    forall k | k in s'.calls ensures CallOk(s', k) { assert CallOk(s, k); }
  }

  lemma FinishKeeps<C, K, M>(s: Sys<C, K, M>, t: nat)
    requires SysInv(s) && Enabled(s, Finish(t))
    ensures SysInv(FinishStep(s, t))
  {
    PcKnown(s, t);
    assert CallOk(s, s.threads[t].call);
    hide FinishStep, Grows, SysInv, PcOk, IsFinished;
    FinishIs(s, t);
    FinishGrows(s, t, FinishStep(s, t));
    FinishKeepsRest(s, t, FinishStep(s, t));
  }

  lemma FinishKeepsRest<C, K, M>(s: Sys<C, K, M>, t: nat, s': Sys<C, K, M>)
    requires SysInv(s) && t in s.threads && s.threads[t].Finishing? && PcOk(s, t, s.threads[t]) && IsFinished(s, t, s')
    requires Grows(s, s')
    ensures SysInv(s')
  {
    hide Grows, MgrsOk, ConnsOk, CallsOk, PcsOk, IsFinished, PcOk;
    FinishKeepsCalls(s, t, s');
    FinishKeepsMaps(s, t, s');
    FinishKeepsPcs(s, t, s');
  }

  lemma FinishKeepsPcs<C, K, M>(s: Sys<C, K, M>, t: nat, s': Sys<C, K, M>)
    requires CallsOk(s) && PcsOk(s)
    requires t in s.threads && s.threads[t].Finishing? && PcOk(s, t, s.threads[t]) && IsFinished(s, t, s')
    requires Grows(s, s')
    ensures PcsOk(s')
  {
    hide Grows, CallOk;
    PcsKeep(s, s', t);
  }

  lemma FinishKeepsMaps<C, K, M>(s: Sys<C, K, M>, t: nat, s': Sys<C, K, M>)
    requires SysInv(s) && t in s.threads && s.threads[t].Finishing? && PcOk(s, t, s.threads[t]) && IsFinished(s, t, s')
    requires Grows(s, s')
    ensures ConnsOk(s') && MgrsOk(s')
    ensures (s'.collected ==> s'.maps.closed && s'.maps.conns == map[] && s'.maps.mgrs == map[])
  {
    assert s.threads[t].group !in s.maps.conns;
    hide Grows, MgrsOk, ConnOk, CallsOk, PcsOk;
    ConnsKeep(s, s', t);
    MgrsKeep(s, s', t);
  }

  // Connections leave the map into the hands of a new goroutine that closes them.
  lemma UninstallKeeps<C, K, M>(s: Sys<C, K, M>, t: nat, groups: set<string>, conns: set<C>)
    requires SysInv(s) && t !in s.threads && conns <= s.conns.Keys
    requires forall g :: g in groups && g in s.maps.conns ==> s.maps.conns[g] in conns
    ensures SysInv(s.(maps := s.maps.(conns := s.maps.conns - groups)).At(t, Closing(conns, {})))
  {
    var s' := s.(maps := s.maps.(conns := s.maps.conns - groups)).At(t, Closing(conns, {}));
    assert Grows(s, s');
    assert PcOk(s', t, s'.threads[t]);
    hide Grows, CallsOk, MgrsOk, PcOk, ConnOk;
    CallsKeep(s, s', t);
    PcsKeep(s, s', t);
    ConnsKeep(s, s', t);
    MgrsKeep(s, s', t);
  }

  lemma EvictKeeps<C, K, M>(s: Sys<C, K, M>, a: Action<C, K, M>)
    requires SysInv(s) && Enabled(s, a) && (a.Evict? || a.EvictAllStale?)
    ensures SysInv(Next(s, a))
  {
    hide Grows;
    match a
    case Evict(t, g, c) =>
      if EvictConn(s.maps, g, c).1 { UninstallKeeps(s, t, {g}, {c}); } else { ThreadKeeps(s, t, Ended); }
    case EvictAllStale(t, best, major) =>
      var stale := StaleGroups(s, best, major);
      UninstallKeeps(s, t, stale, set g | g in stale :: s.maps.conns[g]);
  }

  lemma CollectKeeps<C, K, M>(s: Sys<C, K, M>, t: nat)
    requires SysInv(s) && Enabled(s, CollectAll(t))
    ensures SysInv(Next(s, CollectAll(t)))
  {
    PcKnown(s, t);
    var s' := Next(s, CollectAll(t));
    assert Grows(s, s');
    hide Grows;
    assert forall g :: g in s.maps.conns ==> s.maps.conns[g] in s.maps.conns.Values;
    assert forall g :: g in s.maps.mgrs ==> s.maps.mgrs[g] in s.maps.mgrs.Values;
    CollectKeepsMgrs(s, s', t);
    hide MgrsOk, CallsOk;
    CallsKeep(s, s', t);
    PcsKeep(s, s', t);
    ConnsKeep(s, s', t);
  }

  lemma CollectKeepsMgrs<C, K, M>(s: Sys<C, K, M>, s': Sys<C, K, M>, t: nat)
    requires MgrsOk(s) && s.maps.closed && t in s.threads && s.threads[t].Collecting?
    requires s'.mgrs == s.mgrs && s'.maps == Collect(s.maps)
    requires s'.threads == s.threads[t := Closing(s.maps.conns.Values, s.maps.mgrs.Values)]
    ensures MgrsOk(s')
  {
    forall m | m in s'.mgrs ensures MgrOk(s', m) {
      assert MgrOk(s, m);
      if MgrOwned(s.threads, m) { MgrStillOwned(s.threads, t, s'.threads[t], m); }
      assert s'.threads[t].OwnsMgr(m) <==> m in s.maps.mgrs.Values;
    }
  }

  lemma CloseConnKeeps<C, K, M>(s: Sys<C, K, M>, t: nat, c: C)
    requires SysInv(s) && Enabled(s, CloseConn(t, c))
    ensures SysInv(Next(s, CloseConn(t, c)))
  {
    PcKnown(s, t);
    DropKeeps(s, c);
    CloserKeeps(s.(conns := s.conns[c := s.conns[c].(closed := true)]), t, s.threads[t].conns - {c}, s.threads[t].mgrs);
  }

  lemma CloseMgrKeeps<C, K, M>(s: Sys<C, K, M>, t: nat, m: M)
    requires SysInv(s) && Enabled(s, CloseMgr(t, m))
    ensures SysInv(Next(s, CloseMgr(t, m)))
  {
    hide CallsOk, PcsOk, ConnsOk, MgrsOk, Grows;
    var s' := s.(mgrs := s.mgrs[m := s.mgrs[m].(closed := true)]);
    PcKnown(s, t);
    GrowsInMgr(s, s', m);
    MgrShut(s, s', m);
    HeapKeeps(s, s');
    CloserKeeps(s', t, s.threads[t].conns, s.threads[t].mgrs - {m});
  }

  lemma MgrShut<C, K, M>(s: Sys<C, K, M>, s': Sys<C, K, M>, m: M)
    requires MgrsOk(s) && m in s.mgrs && s'.mgrs == s.mgrs[m := s.mgrs[m].(closed := true)]
    requires s'.maps == s.maps && s'.threads == s.threads
    ensures MgrsOk(s')
  {
    forall n | n in s'.mgrs ensures MgrOk(s', n) { assert MgrOk(s, n); }
  }

  // A goroutine lets go of what is closed.
  lemma CloserKeeps<C, K, M>(s: Sys<C, K, M>, t: nat, conns: set<C>, mgrs: set<M>)
    requires SysInv(s) && t in s.threads && s.threads[t].Closing?
    requires conns <= s.threads[t].conns <= s.conns.Keys && mgrs <= s.threads[t].mgrs <= s.mgrs.Keys
    requires forall c :: c in s.threads[t].conns - conns ==> s.conns[c].closed
    requires forall m :: m in s.threads[t].mgrs - mgrs ==> s.mgrs[m].closed
    ensures SysInv(s.At(t, Closing(conns, mgrs)))
  {
    var s' := s.At(t, Closing(conns, mgrs));
    assert Grows(s, s');
    assert PcOk(s', t, s'.threads[t]);
    hide Grows, MgrsOk, CallsOk, ConnOk, PcOk;
    CallsKeep(s, s', t);
    PcsKeep(s, s', t);
    ConnsKeep(s, s', t);
    MgrsKeep(s, s', t);
  }

  lemma DropKeeps<C, K, M>(s: Sys<C, K, M>, c: C)
    requires SysInv(s) && c in s.conns
    ensures SysInv(s.(conns := s.conns[c := s.conns[c].(closed := true)]))
  {
    var s' := s.(conns := s.conns[c := s.conns[c].(closed := true)]);
    hide Grows, PcsOk, ConnsOk, CallsOk;
    GrowsInConn(s, s', c);
    assert MgrsOk(s') by { forall m | m in s'.mgrs ensures MgrOk(s', m) { assert MgrOk(s, m); } }
    hide MgrsOk;
    HeapKeeps(s, s');
  }

  lemma BeginCloseKeeps<C, K, M>(s: Sys<C, K, M>, t: nat)
    requires SysInv(s) && t !in s.threads
    ensures SysInv(s.(maps := s.maps.(closed := true)).At(t, Collecting))
  {
    var s' := s.(maps := s.maps.(closed := true)).At(t, Collecting);
    assert Grows(s, s');
    hide Grows, MgrsOk, CallsOk, ConnOk;
    CallsKeep(s, s', t);
    PcsKeep(s, s', t);
    ConnsKeep(s, s', t);
    MgrsKeep(s, s', t);
  }

  lemma StepKeeps<C, K, M>(s: Sys<C, K, M>, a: Action<C, K, M>)
    requires SysInv(s) && Enabled(s, a)
    ensures SysInv(Next(s, a))
  {
    hide CallsOk, PcsOk, ConnsOk, MgrsOk;
    match a
    case Get(t, u, spare, g) => GetKeeps(s, t, u, spare, g);
    case Receive(t) => ReceiveKeeps(s, t);
    case SeeClosed(t) => ThreadKeeps(s, t, ToldClosed);
    case Reconnect(u, spare, g) =>
      if g !in s.maps.conns && g !in s.maps.connecting { SpawnKeeps(s, u, spare, g, Pausing(g, spare)); }
    case Tick(t) =>
      PcKnown(s, t);
      ThreadKeeps(s, t, Dialing(s.threads[t].group, s.threads[t].call));
    case Stop(t) =>
      PcKnown(s, t);
      ThreadKeeps(s, t, Finishing(s.threads[t].group, s.threads[t].call, None, Some(Closed)));
    case TakeMgr(t, spareM) => TakeMgrKeeps(s, t, spareM);
    case GiveUp(t) =>
      PcKnown(s, t);
      ThreadKeeps(s, t, Pausing(s.threads[t].group, s.threads[t].call));
    case Connect(t, spareC, addr) => ConnectKeeps(s, t, spareC, addr);
    case Finish(t) => FinishKeeps(s, t);
    case Evict(t, g, c) => EvictKeeps(s, a);
    case EvictAllStale(t, best, major) => EvictKeeps(s, a);
    case Drop(c) => DropKeeps(s, c);
    case BeginClose(t) => BeginCloseKeeps(s, t);
    case CollectAll(t) => CollectKeeps(s, t);
    case CloseConn(t, c) => CloseConnKeeps(s, t, c);
    case CloseMgr(t, m) => CloseMgrKeeps(s, t, m);
  }

  lemma {:induction false} RunKeeps<C, K, M>(states: seq<Sys<C, K, M>>, actions: seq<Action<C, K, M>>, j: nat)
    requires IsRun(states, actions) && states[0] == Start<C, K, M>() && j < |states|
    ensures SysInv(states[j])
    decreases j
  {
    hide SysInv, Next, Enabled;
    if j == 0 {
      StartOk<C, K, M>();
    } else {
      RunKeeps(states, actions, j - 1);
      var a := actions[j - 1];
      StepKeeps(states[j - 1], a);
    }
  }

  lemma StartOk<C, K, M>()
    ensures SysInv(Start<C, K, M>())
  {}

  // ---- What this says about every run from the start.

  // A caller was told what its call ended with.
  ghost predicate ToldRight<C, K, M>(s: Sys<C, K, M>, t: nat)
    requires t in s.threads && s.threads[t].Told?
  {
    var pc := s.threads[t];
    pc.call in s.calls && s.calls[pc.call].completions == 1 && s.calls[pc.call].conn == pc.conn && s.calls[pc.call].err == pc.err
  }

  ghost predicate WorksOn<C, K, M>(s: Sys<C, K, M>, t: nat, k: K) {
    t in s.threads && s.threads[t].Works() && s.threads[t].call == k
  }

  // A group is never both connected and connecting; a connect call ends at most once, and while it has
  // not ended exactly its own goroutine works on it; every caller was told that one result; and a success
  // is a connection of the call's group.
  lemma CallsComplete<C, K, M>(states: seq<Sys<C, K, M>>, actions: seq<Action<C, K, M>>, j: nat)
    requires IsRun(states, actions) && states[0] == Start<C, K, M>() && j < |states|
    ensures var s := states[j];
      && s.maps.conns.Keys !! s.maps.connecting.Keys
      && (forall k :: k in s.calls ==> s.calls[k].completions <= 1)
      && (forall k, t :: k in s.calls ==> (WorksOn(s, t, k) <==> t == s.calls[k].worker && s.calls[k].completions == 0))
      && (forall t :: t in s.threads && s.threads[t].Told? ==> ToldRight(s, t))
      && (forall k :: k in s.calls && s.calls[k].completions == 1 && s.calls[k].err.None? ==>
            s.calls[k].conn.Some? && s.calls[k].conn.value in s.conns && s.conns[s.calls[k].conn.value].group == s.calls[k].group)
  {
    RunKeeps(states, actions, j);
    var s := states[j];
    hide MgrsOk, ConnsOk, IsRun;
    forall k | k in s.calls ensures CallOk(s, k) {}
    forall t | t in s.threads ensures PcOk(s, t, s.threads[t]) {}
  }

  // In no run does finishConnect find another call in its group's place.
  lemma MismatchIsDead<C, K, M>(states: seq<Sys<C, K, M>>, actions: seq<Action<C, K, M>>, j: nat, t: nat)
    requires IsRun(states, actions) && states[0] == Start<C, K, M>() && j < |states| && Enabled(states[j], Finish(t))
    ensures var pc := states[j].threads[t]; FinishConnect(states[j].maps, pc.group, pc.call, pc.conn, pc.err).1 != Mismatch
  {
    RunKeeps(states, actions, j);
    NoMismatch(states[j], t);
  }

  // A group keeps one flow tracker for good, and every connection of the group is made for it. Once Close
  // has collected, every connection and flow tracker ever made is closed or in the hands of a goroutine
  // that will close it; when all goroutines are at their end, all are closed.
  lemma NothingLeaks<C, K, M>(states: seq<Sys<C, K, M>>, actions: seq<Action<C, K, M>>, j: nat)
    requires IsRun(states, actions) && states[0] == Start<C, K, M>() && j < |states|
    ensures var s := states[j];
      && (forall m, n :: m in s.mgrs && n in s.mgrs && s.mgrs[m].group == s.mgrs[n].group ==> m == n)
      && (forall c :: c in s.conns ==> s.conns[c].mgr in s.mgrs && s.mgrs[s.conns[c].mgr].group == s.conns[c].group)
      && (s.collected ==> s.maps.conns == map[] && s.maps.mgrs == map[])
      && (s.collected ==> forall c :: c in s.conns ==> s.conns[c].closed || ConnOwned(s.threads, c))
      && (s.collected ==> forall m :: m in s.mgrs ==> s.mgrs[m].closed || MgrOwned(s.threads, m))
      && (s.collected && (forall t :: t in s.threads ==> s.threads[t].AtEnd()) ==>
            (forall c :: c in s.conns ==> s.conns[c].closed) && (forall m :: m in s.mgrs ==> s.mgrs[m].closed))
  {
    RunKeeps(states, actions, j);
    var s := states[j];
    hide CallsOk, PcsOk, IsRun;
    forall c | c in s.conns ensures ConnOk(s, c) {}
    forall m | m in s.mgrs ensures MgrOk(s, m) {}
  }

  // After evicting stale connections every group is at the address it should use, where one is known, and
  // no connection that was there already has been given up.
  lemma OnlyCurrentRemain<C, K, M>(s: Sys<C, K, M>, t: nat, best: map<string, string>, major: string, g: string)
    requires SysInv(s) && Enabled(s, EvictAllStale(t, best, major)) && g in s.maps.conns
    ensures var addr := s.conns[s.maps.conns[g]].addr;
      var s' := Next(s, EvictAllStale(t, best, major));
      && (g in s'.maps.conns <==> BestAddr(best, major, g) in {"", addr})
      && (g in s'.maps.conns ==> s'.maps.conns[g] == s.maps.conns[g])
      && (g !in s'.maps.conns ==> s'.threads[t].OwnsConn(s.maps.conns[g]))
  {
    hide SysInv;
  }

  // A group's own best node decides alone; only where it has none does the major group's stand in.
  lemma OwnBestDecides(best: map<string, string>, major: string, g: string, addr: string)
    ensures g in best && best[g] != "" ==> (IsStale(best, major, g, addr) <==> addr != best[g])
    ensures (g !in best || best[g] == "") && major in best ==>
              (IsStale(best, major, g, addr) <==> best[major] != "" && addr != best[major])
    ensures (g !in best || best[g] == "") && major !in best ==> !IsStale(best, major, g, addr)
  {}

  // A call ends with what its worker brings: the worker's error, or that the manager has closed meanwhile,
  // or else a connection, which is then the group's.
  lemma FinishTells<C, K, M>(s: Sys<C, K, M>, t: nat)
    requires SysInv(s) && Enabled(s, Finish(t))
    ensures var pc, s' := s.threads[t], FinishStep(s, t);
      && pc.call in s'.calls
      && s'.calls[pc.call].completions == 1 && s'.calls[pc.call].conn == pc.conn
      && s'.calls[pc.call].err == (if pc.err.Some? then pc.err else if s.maps.closed then Some(Closed) else None)
      && s'.maps.conns == (if pc.err.Some? || s.maps.closed then s.maps.conns else s.maps.conns[pc.group := pc.conn.value])
      && pc.group !in s'.maps.connecting
  {
    PcKnown(s, t);
    assert CallOk(s, s.threads[t].call);
    hide CallsOk, PcsOk, ConnsOk, MgrsOk;
  }

  // An evictor takes out its connection if the group still has that one, and no other.
  lemma EvictsExactly<C, K, M>(m: Maps<C, K, M>, g: string, c: C)
    ensures var (m', removed) := EvictConn(m, g, c);
      && (removed <==> g in m.conns && m.conns[g] == c)
      && m' == m.(conns := if removed then m.conns - {g} else m.conns)
  {}

  // A connect call is begun exactly for a group that is neither connected nor connecting; a caller that
  // wants a connection gets the group's, or shares the group's call, or begins one.
  lemma CallsBeginExactly<C, K, M>(m: Maps<C, K, M>, spare: K, g: string)
    ensures var (m', k) := StartReconnect(m, spare, g);
      && (k.Some? <==> g !in m.conns && g !in m.connecting)
      && (k.Some? ==> k.value == spare && m' == m.(connecting := m.connecting[g := spare])) && (k.None? ==> m' == m)
    ensures var (m', res) := GetConn(m, spare, g);
      && (res.Have? <==> g in m.conns) && (res.Begin? <==> g !in m.conns && g !in m.connecting)
      && (res.Have? ==> res.conn == m.conns[g] && m' == m)
      && (res.Share? ==> g in m.connecting && res.call == m.connecting[g] && m' == m)
      && (res.Begin? ==> res.call == spare && m' == m.(connecting := m.connecting[g := spare]))
  {}

  // ---- The manager's objects.

  class TunnelConn {
    const addr: string
    var closed: bool

    constructor (addr: string)
      ensures this.addr == addr && !closed
    {
      this.addr, closed := addr, false;
    }

    method Close()
      modifies this
      ensures closed
    {
      closed := true;
    }
  }

  // A flow tracker, of which the tunnel manager only knows how to close it.
  class Tracker {
    var closed: bool

    constructor ()
      ensures !closed
    {
      closed := false;
    }

    method Close()
      modifies this
      ensures closed
    {
      closed := true;
    }
  }

  class ConnectCall {
    var conn: Option<TunnelConn>
    var err: Option<Error>
    var done: bool

    constructor ()
      ensures !done
    {
      conn, err, done := None, None, false;
    }
  }

  ghost function StaleKeys(conns: map<string, TunnelConn>, best: map<string, string>, major: string): set<string> {
    set g | g in conns && IsStale(best, major, g, conns[g].addr)
  }

  ghost function Under(conns: map<string, TunnelConn>, groups: set<string>): set<TunnelConn>
    requires groups <= conns.Keys
  {
    set g | g in groups :: conns[g]
  }

  lemma UnderOneMore(conns: map<string, TunnelConn>, groups: set<string>, g: string)
    requires groups <= conns.Keys && g in conns
    ensures Under(conns, groups + {g}) == Under(conns, groups) + {conns[g]}
  {}

  class Tunnel {
    var conns: map<string, TunnelConn>
    var connecting: map<string, ConnectCall>
    var conntrackMgrs: map<string, Tracker>
    var closed: bool

    function View(): Maps<TunnelConn, ConnectCall, Tracker>
      reads this
    {
      Maps(conns, connecting, conntrackMgrs, closed)
    }

    constructor ()
      ensures View() == Start<TunnelConn, ConnectCall, Tracker>().maps
    {
      conns, connecting, conntrackMgrs, closed := map[], map[], map[], false;
    }

    // getConn up to where it waits or starts the goroutine of a new call.
    method Find(g: string) returns (res: Lookup<TunnelConn, ConnectCall>)
      modifies this`connecting
      ensures res.Begin? ==> fresh(res.call) && (View(), res) == GetConn(old(View()), res.call, g)
      ensures !res.Begin? ==> View() == old(View()) && forall spare :: (View(), res) == GetConn(old(View()), spare, g)
    {
      if g in conns { return Have(conns[g]); }
      if g in connecting { return Share(connecting[g]); }
      var call := new ConnectCall();
      connecting := connecting[g := call];
      return Begin(call);
    }

    method Reconnect(g: string) returns (res: Option<ConnectCall>)
      modifies this`connecting
      ensures res.Some? ==> fresh(res.value) && !old(closed) && (View(), res) == StartReconnect(old(View()), res.value, g)
      ensures res.None? ==> View() == old(View()) && (closed || g in conns || g in connecting)
    {
      if closed || g in conns || g in connecting { return None; }
      var call := new ConnectCall();
      connecting := connecting[g := call];
      return Some(call);
    }

    method GetConntrackMgr(g: string) returns (res: Option<Tracker>)
      modifies this`conntrackMgrs
      ensures res.None? <==> closed
      ensures res.None? ==> View() == old(View())
      ensures res.Some? ==> (View(), res) == GetMgr(old(View()), res.value, g) && (g in old(conntrackMgrs) || fresh(res.value))
    {
      if closed { return None; }
      if g !in conntrackMgrs {
        var manager := new Tracker();
        conntrackMgrs := conntrackMgrs[g := manager];
      }
      return Some(conntrackMgrs[g]);
    }

    method Evict(g: string, conn: TunnelConn)
      modifies this`conns, conn
      ensures View() == EvictConn(old(View()), g, conn).0
      ensures conn.closed == (old(conn.closed) || EvictConn(old(View()), g, conn).1)
    {
      var removed := false;
      if g in conns && conns[g] == conn {
        conns := conns - {g};
        removed := true;
      }
      if removed { conn.Close(); }
    }

    // evictStaleConns: exactly the stale connections are taken out and closed.
    method EvictStaleConns(best: map<string, string>, major: string)
      modifies this`conns, conns.Values
      ensures View() == EvictStale(old(View()), StaleKeys(old(conns), best, major))
      ensures forall c :: c in old(conns).Values ==> c.closed == (old(c.closed) || c in Under(old(conns), StaleKeys(old(conns), best, major)))
    {
      var stale := TakeStale(best, major);
      CloseConns(stale);
    }

    // The part under the lock.
    method TakeStale(best: map<string, string>, major: string) returns (stale: set<TunnelConn>)
      modifies this`conns
      ensures conns == old(conns) - StaleKeys(old(conns), best, major)
      ensures stale == Under(old(conns), StaleKeys(old(conns), best, major))
    {
      var rest: set<string> := conns.Keys;
      ghost var gone: set<string> := {};
      stale := {};
      while rest != {}
        invariant rest <= conns.Keys && gone <= old(conns).Keys && conns == old(conns) - gone
        invariant gone == StaleKeys(old(conns), best, major) - rest
        invariant stale == Under(old(conns), gone)
      {
        var g :| g in rest;
        rest := rest - {g};
        var addr := BestAddr(best, major, g);
        if addr != "" && conns[g].addr != addr {
          UnderOneMore(old(conns), gone, g);
          stale := stale + {conns[g]};
          conns := conns - {g};
          gone := gone + {g};
        }
      }
    }

    method CloseConns(todo: set<TunnelConn>)
      modifies todo
      ensures forall c :: c in todo ==> c.closed
    {
      var rest := todo;
      while rest != {}
        invariant rest <= todo && forall c :: c in todo - rest ==> c.closed
      {
        var c :| c in rest;
        c.Close();
        rest := rest - {c};
      }
    }

    method Finish(g: string, call: ConnectCall, conn: Option<TunnelConn>, err: Option<Error>)
      requires (err.None? ==> conn.Some?) && !call.done
      modifies this`connecting, this`conns, call, if conn.Some? then {conn.value} else {}
      ensures var (maps, res) := FinishConnect(old(View()), g, call, conn, err);
        && View() == maps
        && (call.done <==> res != Mismatch)
        && (res != Mismatch ==> call.conn == conn && call.err == if res.Failed? then Some(res.err) else None)
        && (conn.Some? && res != Connected ==> conn.value.closed)
        && (conn.Some? && res == Connected ==> conn.value.closed == old(conn.value.closed))
    {
      if !(g in connecting && connecting[g] == call) {
        if conn.Some? { conn.value.Close(); }
        return;
      }
      connecting := connecting - {g};
      var outcome := err;
      if err.None? {
        if closed { outcome := Some(Closed); } else { conns := conns[g := conn.value]; }
      }
      call.conn, call.err, call.done := conn, outcome, true;
      if outcome.Some? && conn.Some? { conn.value.Close(); }
    }

    // closeCh is closed before the lock is taken; everything in the maps then is closed after it is released.
    method Close()
      requires !closed
      modifies this`closed, this`conns, this`conntrackMgrs, conns.Values, conntrackMgrs.Values
      ensures View() == Collect(old(View())).(closed := true)
      ensures (forall c :: c in old(conns).Values ==> c.closed) && forall m :: m in old(conntrackMgrs).Values ==> m.closed
    {
      closed := true;
      var todo, managers := conns.Values, conntrackMgrs.Values;
      conns, conntrackMgrs := map[], map[];
      CloseConns(todo);
      var rest := managers;
      while rest != {}
        modifies managers
        invariant rest <= managers && forall m :: m in managers - rest ==> m.closed
      {
        var m :| m in rest;
        m.Close();
        rest := rest - {m};
      }
    }
  }
}
