// Packets on their way out: WritePacket and completeAuthentication as threads that interleave at every
// critical section, with the two locks of the code (the manager's, one step each, and a flow's sendMu,
// held across steps), while evictions, expiry, failures and closing happen at any moment.
module Delivery {
  import opened Bytes
  import opened Lists
  import opened Conntrack

  const MAX_TOKEN := 0xFF

  datatype Frame = Frame(token: Token, packet: Packet)

  datatype Failure = FlowFailed(err: AuthError) | TokenTooLong | WriteError | FlowEvicted

  // What a WritePacket call returned. The first four are returned as success; Lost is the path on which
  // cachePacket finds the flow authenticated after all and nobody keeps the packet.
  datatype Outcome = Written | Kept | DroppedFull | Lost | Failed(why: Failure)

  datatype Pc<R> =
    | Observing(flow: R, meta: Meta, packet: Packet)
    | Queueing(flow: R, meta: Meta, packet: Packet)
    | Checking(flow: R, meta: Meta, packet: Packet)
    | Caching(flow: R, meta: Meta, packet: Packet)
    | Sending(flow: R, token: Token, packet: Packet)
    | Returned(flow: R, packet: Packet, outcome: Outcome)
    | Answering(flow: R, authID: nat, token: Token, err: Option<AuthError>)
    | Completing(flow: R, authID: nat, token: Token, err: Option<AuthError>)
    | Flushing(flow: R, token: Token, todo: seq<Packet>)
    | Answered
  {
    predicate Holding() { Checking? || Caching? || Sending? || Completing? || Flushing? }

    predicate Accepted() { Returned? && (outcome.Written? || outcome.Kept?) }
  }

  // An accepted packet, with the call that brought it.
  datatype Entry = Entry(call: nat, packet: Packet)

  // The history of one flow: what was cached, what was written directly, both in one chronological log,
  // what the connections carried, and how far flushing the cache came.
  datatype Wire = Wire(
    cached: seq<Packet>, direct: seq<Packet>, log: seq<Entry>, out: seq<Frame>,
    flushed: nat, todo: seq<Packet>, aborted: bool)

  const NoWire := Wire([], [], [], [], 0, [], false)

  datatype Sys<R> = Sys(mgr: Manager<R>, sendMu: map<R, nat>, threads: map<nat, Pc<R>>, wires: map<R, Wire>) {
    function WireOf(r: R): Wire {
      if r in wires then wires[r] else NoWire
    }

    function At(t: nat, pc: Pc<R>): Sys<R> {
      this.(threads := threads[t := pc])
    }

    // The thread's deferred unlock.
    function Leave(t: nat, pc: Pc<R>): Sys<R>
      requires t in threads && threads[t].Holding()
    {
      this.(threads := threads[t := pc], sendMu := sendMu - {threads[t].flow})
    }

    function Put(r: R, w: Wire): Sys<R> {
      this.(wires := wires[r := w])
    }
  }

  datatype Action<R> =
    | Other(op: Op<R>)
    | Write(t: nat, spare: R, key: Key, appID: string, nodeGroupID: string, now: int, meta: Meta, packet: Packet)
    | Observe(t: nat, what: Sighting, now: int)
    | Lock(t: nat)
    | Check(t: nat)
    | Cache(t: nat)
    | Send(t: nat, ok: bool)
    | Answer(t: nat, authID: nat, token: Token, err: Option<AuthError>)
    | Complete(t: nat)
    | Flush(t: nat, ok: bool)

  // Everybody else may do anything to the manager except the two things done under sendMu only:
  // caching a packet and completing an authentication successfully.
  predicate ByOthers<R>(op: Op<R>) {
    !op.DoCache? && (op.DoComplete? ==> op.outcome.Some?)
  }

  ghost predicate Enabled<R>(s: Sys<R>, a: Action<R>) {
    && NoDangling(s.mgr)
    && match a
       case Other(op) => OpOk(s.mgr, op) && ByOthers(op)
       case Write(t, spare, _, _, _, _, _, _) => t !in s.threads && spare !in s.mgr.flows
       case Observe(t, _, _) => t in s.threads && s.threads[t].Observing? && s.threads[t].flow in s.mgr.flows
       case Lock(t) => t in s.threads && (s.threads[t].Queueing? || s.threads[t].Answering?) && s.threads[t].flow !in s.sendMu
       case Check(t) => t in s.threads && s.threads[t].Checking? && s.threads[t].flow in s.mgr.flows
       case Cache(t) => t in s.threads && s.threads[t].Caching? && s.threads[t].flow in s.mgr.flows
       case Send(t, _) => t in s.threads && s.threads[t].Sending?
       case Answer(t, _, _, _) => t !in s.threads
       case Complete(t) => t in s.threads && s.threads[t].Completing?
       case Flush(t, _) => t in s.threads && s.threads[t].Flushing? && s.threads[t].todo != []
  }

  function WriteStep<R(==)>(s: Sys<R>, a: Action<R>): Sys<R>
    requires NoDangling(s.mgr) && a.Write?
  {
    var (mgr, r) := GetOrCreate(s.mgr, a.spare, a.key, a.appID, a.nodeGroupID, a.now);
    s.(mgr := mgr).At(a.t, Observing(r, a.meta, a.packet))
  }

  function ObserveStep<R(==)>(s: Sys<R>, t: nat, what: Sighting, now: int): Sys<R>
    requires NoDangling(s.mgr) && t in s.threads && s.threads[t].Observing? && s.threads[t].flow in s.mgr.flows
  {
    var pc := s.threads[t];
    s.(mgr := ObservePacket(s.mgr, s.mgr.flows[pc.flow].key, what, now)).At(t, Queueing(pc.flow, pc.meta, pc.packet))
  }

  function LockStep<R(==)>(s: Sys<R>, t: nat): Sys<R>
    requires t in s.threads && (s.threads[t].Queueing? || s.threads[t].Answering?)
  {
    var pc := s.threads[t];
    s.(sendMu := s.sendMu[pc.flow := t]).At(t,
      if pc.Queueing? then Checking(pc.flow, pc.meta, pc.packet) else Completing(pc.flow, pc.authID, pc.token, pc.err))
  }

  function CheckStep<R(==)>(s: Sys<R>, t: nat): Sys<R>
    requires t in s.threads && s.threads[t].Checking? && s.threads[t].flow in s.mgr.flows
  {
    var pc := s.threads[t];
    var f := s.mgr.flows[pc.flow];
    if !f.Signalled() then s.At(t, Caching(pc.flow, pc.meta, pc.packet))
    else if f.authErr.Some? then s.Leave(t, Returned(pc.flow, pc.packet, Failed(FlowFailed(f.authErr.value))))
    else s.At(t, Sending(pc.flow, f.token, pc.packet))
  }

  function CacheStep<R(==)>(s: Sys<R>, t: nat): Sys<R>
    requires t in s.threads && s.threads[t].Caching? && s.threads[t].flow in s.mgr.flows
  {
    var pc := s.threads[t];
    var (mgr, res) := CachePacket(s.mgr, pc.flow, pc.meta, pc.packet);
    var s' := s.(mgr := mgr).Leave(t, Returned(pc.flow, pc.packet, CacheOutcome(res)));
    if res != Cached then s'
    else
      var w := s.WireOf(pc.flow);
      s'.Put(pc.flow, w.(cached := w.cached + [pc.packet], log := w.log + [Entry(t, pc.packet)]))
  }

  // What WritePacket makes of cachePacket's result.
  function CacheOutcome(res: CacheResult): Outcome {
    match res
    case Cached => Kept
    case CacheFull => DroppedFull
    case AlreadyDone(err) => if err.Some? then Failed(FlowFailed(err.value)) else Lost
    case NotTracked => Failed(FlowEvicted)
  }

  // `ok` stands for the connection taking the frame; a token that does not fit its length byte never goes out.
  function SendOutcome(token: Token, ok: bool): Outcome {
    if |token| > MAX_TOKEN then Failed(TokenTooLong) else if !ok then Failed(WriteError) else Written
  }

  function SendStep<R(==)>(s: Sys<R>, t: nat, ok: bool): Sys<R>
    requires t in s.threads && s.threads[t].Sending?
  {
    var pc := s.threads[t];
    var outcome := SendOutcome(pc.token, ok);
    var s' := s.Leave(t, Returned(pc.flow, pc.packet, outcome));
    if outcome != Written then s'
    else
      var w := s.WireOf(pc.flow);
      s'.Put(pc.flow,
        w.(direct := w.direct + [pc.packet], log := w.log + [Entry(t, pc.packet)], out := w.out + [Frame(pc.token, pc.packet)]))
  }

  function AnswerStep<R(==)>(s: Sys<R>, t: nat, authID: nat, token: Token, err: Option<AuthError>): Sys<R> {
    s.At(t, if authID in s.mgr.byID then Answering(s.mgr.byID[authID], authID, token, err) else Answered)
  }

  function CompleteStep<R(==)>(s: Sys<R>, t: nat): Sys<R>
    requires NoDangling(s.mgr) && t in s.threads && s.threads[t].Completing?
  {
    var pc := s.threads[t];
    var (mgr, done) := CompleteAuth(s.mgr, pc.authID, pc.token, pc.err);
    var s' := s.(mgr := mgr);
    if done.NoCompletion? || done.packets == [] then s'.Leave(t, Answered)
    else s'.At(t, Flushing(pc.flow, pc.token, done.packets)).Put(pc.flow, s.WireOf(pc.flow).(todo := done.packets))
  }

  function FlushStep<R(==)>(s: Sys<R>, t: nat, ok: bool): Sys<R>
    requires t in s.threads && s.threads[t].Flushing? && s.threads[t].todo != []
  {
    var pc := s.threads[t];
    var w := s.WireOf(pc.flow);
    if |pc.token| > MAX_TOKEN || !ok then s.Leave(t, Answered).Put(pc.flow, w.(todo := [], aborted := true))
    else
      var w' := w.(flushed := w.flushed + 1, todo := pc.todo[1..], out := w.out + [Frame(pc.token, pc.todo[0])]);
      (if |pc.todo| == 1 then s.Leave(t, Answered) else s.At(t, Flushing(pc.flow, pc.token, pc.todo[1..]))).Put(pc.flow, w')
  }

  function Next<R(==)>(s: Sys<R>, a: Action<R>): Sys<R>
    requires Enabled(s, a)
  {
    match a
    case Other(op) => s.(mgr := Step(s.mgr, op))
    case Write(_, _, _, _, _, _, _, _) => WriteStep(s, a)
    case Observe(t, what, now) => ObserveStep(s, t, what, now)
    case Lock(t) => LockStep(s, t)
    case Check(t) => CheckStep(s, t)
    case Cache(t) => CacheStep(s, t)
    case Send(t, ok) => SendStep(s, t, ok)
    case Answer(t, authID, token, err) => AnswerStep(s, t, authID, token, err)
    case Complete(t) => CompleteStep(s, t)
    case Flush(t, ok) => FlushStep(s, t, ok)
  }

  ghost predicate IsSysRun<R>(states: seq<Sys<R>>, actions: seq<Action<R>>) {
    && |states| == |actions| + 1
    && forall i {:trigger actions[i]} :: 0 <= i < |actions| ==>
         Enabled(states[i], actions[i]) && states[i + 1] == Next(states[i], actions[i])
  }

  function Start<R>(ttl: int, maxEntries: nat): Sys<R> {
    Sys(NewManager(ttl, maxEntries), map[], map[], map[])
  }

  // ---- A call with nobody in between.

  // What WritePacket does with the flow `r` after finding and observing it, and what it writes.
  function WriteAlone<R(==)>(m: Manager<R>, r: R, meta: Meta, packet: Packet, ok: bool): (Manager<R>, Outcome,
          seq<Frame>)
    requires r in m.flows
  {
    var f := m.flows[r];
    if !f.Signalled() then
      var (m', res) := CachePacket(m, r, meta, packet);
      (m', CacheOutcome(res), [])
    else if f.authErr.Some? then (m, Failed(FlowFailed(f.authErr.value)), [])
    else
      var outcome := SendOutcome(f.token, ok);
      (m, outcome, if outcome == Written then [Frame(f.token, packet)] else [])
  }

  // How many of the packets a flush puts on a connection that takes `takes` frames before it fails.
  function Flushed(token: Token, packets: seq<Packet>, takes: nat): (n: nat)
    ensures n <= |packets|
  {
    if |token| > MAX_TOKEN then 0 else if takes < |packets| then takes else |packets|
  }

  // ---- The invariant.

  function Packets(log: seq<Entry>): seq<Packet> {
    seq(|log|, i requires 0 <= i < |log| => log[i].packet)
  }

  function Frames(token: Token, packets: seq<Packet>): seq<Frame> {
    seq(|packets|, i requires 0 <= i < |packets| => Frame(token, packets[i]))
  }

  // sendMu names exactly the threads that are inside, and each is inside with its own flow.
  ghost predicate LocksOk<R>(threads: map<nat, Pc<R>>, sendMu: map<R, nat>) {
    && (forall t :: t in threads && threads[t].Holding() ==> threads[t].flow in sendMu && sendMu[threads[t].flow] == t)
    && (forall r :: r in sendMu ==> sendMu[r] in threads && threads[sendMu[r]].Holding() && threads[sendMu[r]].flow == r)
  }

  // What a thread has learnt about its flow stays true while it acts on it.
  ghost predicate PcOk<R>(pc: Pc<R>, flows: map<R, Flow>) {
    pc.Answered? ||
    (&& pc.flow in flows
     && var f := flows[pc.flow];
        && (pc.Caching? && f.Signalled() ==> f.authErr.Some?)
        && (pc.Sending? || pc.Flushing? ==> f.Signalled() && f.authErr == None && f.token == pc.token)
        && (pc.Answering? || pc.Completing? ==> f.authID == pc.authID)
        && (pc.Returned? ==> pc.outcome != Lost && pc.outcome != Failed(FlowEvicted)))
  }

  ghost predicate PcsOk<R>(threads: map<nat, Pc<R>>, flows: map<R, Flow>) {
    forall t :: t in threads ==> PcOk(threads[t], flows)
  }

  // A flow's history against its authentication: unsignalled, everything accepted is still pending; failed,
  // nothing was sent; authenticated, the cache is being flushed, was flushed, or flushing broke off.
  ghost predicate WireOk(f: Flow, w: Wire) {
    && w.flushed <= |w.cached|
    && Packets(w.log) == w.cached + w.direct
    && w.out == Frames(f.token, w.cached[..w.flushed] + w.direct)
    && (!f.Signalled() ==> w.cached == f.pending)
    && (!f.Signalled() || f.authErr.Some? ==> w.flushed == 0 && w.direct == [] && w.todo == [] && !w.aborted)
    && (f.Signalled() && f.authErr == None && !w.aborted ==> w.todo == w.cached[w.flushed..])
    && (w.aborted ==> w.todo == [] && w.flushed < |w.cached|)
    && (w.todo != [] ==> w.direct == [])
    && (w.out != [] ==> |f.token| <= MAX_TOKEN)
  }

  ghost predicate WiresOk<R>(s: Sys<R>) {
    && s.wires.Keys <= s.mgr.flows.Keys
    && forall r :: r in s.mgr.flows ==> WireOk(s.mgr.flows[r], s.WireOf(r))
  }

  // Packets wait for flushing exactly while some thread is flushing that flow.
  ghost predicate FlushersOk<R>(s: Sys<R>) {
    && (forall r :: r in s.wires && s.wires[r].todo != [] ==>
          r in s.sendMu && s.sendMu[r] in s.threads && s.threads[s.sendMu[r]].Flushing?)
    && (forall t :: t in s.threads && s.threads[t].Flushing? ==>
          s.threads[t].todo == s.WireOf(s.threads[t].flow).todo != [])
  }

  // The log holds exactly the accepted calls of the flow, each once.
  ghost predicate LogOk<R>(r: R, log: seq<Entry>, threads: map<nat, Pc<R>>) {
    && (forall i, j :: 0 <= i < j < |log| ==> log[i].call != log[j].call)
    && (forall i :: 0 <= i < |log| ==> IsEntryOf(r, log[i], threads))
  }

  ghost predicate IsEntryOf<R>(r: R, e: Entry, threads: map<nat, Pc<R>>) {
    e.call in threads && threads[e.call].Accepted() && threads[e.call].flow == r && threads[e.call].packet == e.packet
  }

  ghost predicate LogsOk<R>(s: Sys<R>) {
    && (forall r :: r in s.wires ==> LogOk(r, s.wires[r].log, s.threads))
    && (forall t :: t in s.threads && s.threads[t].Accepted() ==>
          Entry(t, s.threads[t].packet) in s.WireOf(s.threads[t].flow).log)
  }

  // The part of the invariant that packets on their way depend on.
  ghost predicate PathsOk<R>(s: Sys<R>) {
    && LocksOk(s.threads, s.sendMu)
    && PcsOk(s.threads, s.mgr.flows)
    && WiresOk(s)
    && FlushersOk(s)
    && LogsOk(s)
  }

  ghost predicate SysInv<R>(s: Sys<R>) {
    Inv(s.mgr) && PathsOk(s)
  }
}
