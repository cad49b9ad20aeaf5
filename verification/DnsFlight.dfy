// The resolver's single flight: concurrent callers for one host share one lookup, which is cancelled when
// its last caller gives up. Callers and lookups interleave at every critical section.
// `R` stands for a reference to a shared lookup; the class at the end implements the sections on objects.
module DnsFlight {
  import opened Bytes

  datatype Answer = Found(ip: seq<Byte>) | NotFound(reason: string)

  // `closes` counts how often the result channel was closed.
  datatype Call = Call(host: string, waiters: int, cancelled: bool, answer: Option<Answer>, closes: nat)

  datatype Flight<R(==)> = Flight(registered: map<string, R>, calls: map<R, Call>, closed: bool, active: int) {
    predicate IsRegistered(r: R) {
      r in calls && calls[r].host in registered && registered[calls[r].host] == r
    }

    function Update(r: R, c: Call): Flight<R> {
      this.(calls := calls[r := c])
    }
  }

  // resolveCoordinated's critical section: None when the resolver is closed; `spare` names a new lookup.
  function Join<R(==)>(f: Flight<R>, spare: R, host: string): (Flight<R>, Option<R>)
    requires forall h :: h in f.registered ==> f.registered[h] in f.calls
  {
    if f.closed then (f, None)
    else if host in f.registered then
      var r := f.registered[host];
      (f.Update(r, f.calls[r].(waiters := f.calls[r].waiters + 1)), Some(r))
    else
      (f.(registered := f.registered[host := spare], calls := f.calls[spare := Call(host, 1, false, None, 0)],
          active := f.active + 1),
       Some(spare))
  }

  // releaseResolutionWaiter.
  function Release<R(==)>(f: Flight<R>, r: R): Flight<R>
    requires r in f.calls
  {
    if !f.IsRegistered(r) then f
    else
      var c := f.calls[r].(waiters := f.calls[r].waiters - 1);
      if c.waiters != 0 then f.Update(r, c)
      else f.(registered := f.registered - {c.host}).Update(r, c.(cancelled := true))
  }

  // runResolution, section by section.
  function Store<R(==)>(f: Flight<R>, r: R, answer: Answer): Flight<R>
    requires r in f.calls
  {
    f.Update(r, f.calls[r].(answer := Some(answer)))
  }

  function Unregister<R(==)>(f: Flight<R>, r: R): Flight<R>
    requires r in f.calls
  {
    if f.IsRegistered(r) then f.(registered := f.registered - {f.calls[r].host}) else f
  }

  function Cancel<R(==)>(f: Flight<R>, r: R): Flight<R>
    requires r in f.calls
  {
    f.Update(r, f.calls[r].(cancelled := true))
  }

  function Uncount<R>(f: Flight<R>): Flight<R> {
    f.(active := f.active - 1)
  }

  function Publish<R(==)>(f: Flight<R>, r: R): Flight<R>
    requires r in f.calls
  {
    f.Update(r, f.calls[r].(closes := f.calls[r].closes + 1))
  }

  function Close<R(==)>(f: Flight<R>): Flight<R> {
    f.(closed := true, registered := map[],
       calls := map r | r in f.calls :: if f.IsRegistered(r) then f.calls[r].(cancelled := true) else f.calls[r])
  }

  // ---- The protocol.

  datatype Caller<R(==)> =
    | Waiting(call: R, host: string)
    | Leaving(call: R, host: string)
    | Got(call: R, host: string, answer: Answer)
    | GaveUp
    | Refused
  {
    predicate Blocked(r: R) { (Waiting? || Leaving?) && call == r }
  }

  // How far the goroutine of a lookup is.
  datatype Runner = Looking | Stored | Unregistered | Cancelled | Uncounted | Done {
    predicate Running() { Looking? || Stored? || Unregistered? || Cancelled? }
  }

  datatype Sys<R(==)> = Sys(flight: Flight<R>, callers: map<nat, Caller<R>>, runners: map<R, Runner>)

  datatype Action<R> =
    | Enter(t: nat, spare: R, host: string)
    | TimeOut(t: nat)
    | Leave(t: nat)
    | Receive(t: nat)
    | Answered(r: R, answer: Answer)
    | Advance(r: R)
    | Shut

  ghost predicate Enabled<R>(s: Sys<R>, a: Action<R>) {
    && (forall h :: h in s.flight.registered ==> s.flight.registered[h] in s.flight.calls)
    && match a
       case Enter(t, spare, host) => t !in s.callers && spare !in s.flight.calls
       case TimeOut(t) => t in s.callers && s.callers[t].Waiting?
       case Leave(t) => t in s.callers && s.callers[t].Leaving? && s.callers[t].call in s.flight.calls
       case Receive(t) => t in s.callers && s.callers[t].Waiting? && s.callers[t].call in s.flight.calls
         && s.flight.calls[s.callers[t].call].closes > 0 && s.flight.calls[s.callers[t].call].answer.Some?
       case Answered(r, _) => r in s.runners && r in s.flight.calls && s.runners[r].Looking?
       case Advance(r) => r in s.runners && r in s.flight.calls && !s.runners[r].Looking? && !s.runners[r].Done?
       case Shut => true
  }

  function Next<R(==)>(s: Sys<R>, a: Action<R>): Sys<R>
    requires Enabled(s, a)
  {
    match a
    case Enter(t, spare, host) =>
      var (f, r) := Join(s.flight, spare, host);
      var s' := s.(flight := f, callers := s.callers[t := if r.Some? then Waiting(r.value, host) else Refused]);
      if r == Some(spare) then s'.(runners := s.runners[spare := Looking]) else s'
    case TimeOut(t) => s.(callers := s.callers[t := Leaving(s.callers[t].call, s.callers[t].host)])
    case Leave(t) => s.(flight := Release(s.flight, s.callers[t].call), callers := s.callers[t := GaveUp])
    case Receive(t) =>
      var p := s.callers[t];
      s.(callers := s.callers[t := Got(p.call, p.host, s.flight.calls[p.call].answer.value)])
    case Answered(r, answer) => s.(flight := Store(s.flight, r, answer), runners := s.runners[r := Stored])
    case Advance(r) => AdvanceStep(s, r)
    case Shut => s.(flight := Close(s.flight))
  }

  function AdvanceStep<R(==)>(s: Sys<R>, r: R): Sys<R>
    requires r in s.runners && r in s.flight.calls
  {
    match s.runners[r]
    case Looking => s
    case Stored => s.(flight := Unregister(s.flight, r), runners := s.runners[r := Unregistered])
    case Unregistered => s.(flight := Cancel(s.flight, r), runners := s.runners[r := Cancelled])
    case Cancelled => s.(flight := Uncount(s.flight), runners := s.runners[r := Uncounted])
    case Uncounted => s.(flight := Publish(s.flight, r), runners := s.runners[r := Done])
    case Done => s
  }

  ghost predicate IsRun<R>(states: seq<Sys<R>>, actions: seq<Action<R>>) {
    && |states| == |actions| + 1
    && forall i {:trigger actions[i]} :: 0 <= i < |actions| ==>
         Enabled(states[i], actions[i]) && states[i + 1] == Next(states[i], actions[i])
  }

  function Start<R>(): Sys<R> {
    Sys(Flight(map[], map[], false, 0), map[], map[])
  }

  // ---- The invariant.

  ghost function BlockedOn<R>(callers: map<nat, Caller<R>>, r: R): set<nat> {
    set t | t in callers && callers[t].Blocked(r)
  }

  ghost function RunningSet<R>(runners: map<R, Runner>): set<R> {
    set r | r in runners && runners[r].Running()
  }

  // A registered lookup is under its own host, still open and uncancelled, and counts its blocked callers.
  ghost predicate RegisteredOk<R>(s: Sys<R>) {
    forall h :: h in s.flight.registered ==> EntryOk(s, h, s.flight.registered[h])
  }

  ghost predicate EntryOk<R>(s: Sys<R>, h: string, r: R) {
    && r in s.flight.calls && r in s.runners
    && var c := s.flight.calls[r];
       && c.host == h && !c.cancelled && c.closes == 0
       && (s.runners[r].Looking? || s.runners[r].Stored?)
       && c.waiters == |BlockedOn(s.callers, r)| >= 1
  }

  ghost predicate RunnerOk<R>(f: Flight<R>, r: R, runner: Runner)
    requires r in f.calls
  {
    var c := f.calls[r];
    && (runner.Looking? || runner.Stored? ==> f.IsRegistered(r) || c.cancelled)
    && (runner.Cancelled? || runner.Uncounted? || runner.Done? ==> c.cancelled)
    && (!runner.Looking? ==> c.answer.Some?)
    && c.closes == (if runner.Done? then 1 else 0)
  }

  ghost predicate CallersOk<R>(callers: map<nat, Caller<R>>, calls: map<R, Call>) {
    forall t :: t in callers ==> CallerOk(callers[t], calls)
  }

  ghost predicate CallerOk<R>(p: Caller<R>, calls: map<R, Call>) {
    && (p.Waiting? || p.Leaving? || p.Got? ==> p.call in calls && calls[p.call].host == p.host)
    && (p.Got? ==> calls[p.call].closes > 0 && calls[p.call].answer == Some(p.answer))
  }

  ghost predicate SysInv<R>(s: Sys<R>) {
    && s.runners.Keys == s.flight.calls.Keys
    && RegisteredOk(s)
    && (forall r :: r in s.runners ==> RunnerOk(s.flight, r, s.runners[r]))
    && CallersOk(s.callers, s.flight.calls)
    && s.flight.active == |RunningSet(s.runners)|
    && (s.flight.closed ==> s.flight.registered == map[])
  }

  // ---- Proofs.

  lemma BlockedMore<R>(callers: map<nat, Caller<R>>, t: nat, p: Caller<R>, r: R)
    ensures var was, now := BlockedOn(callers, r), BlockedOn(callers[t := p], r);
      && (t in callers && callers[t].Blocked(r) ==> now == if p.Blocked(r) then was else was - {t})
      && (!(t in callers && callers[t].Blocked(r)) ==> now == if p.Blocked(r) then was + {t} else was)
      && (t in was <==> t in callers && callers[t].Blocked(r))
  {}

  // A caller moves, its old and new blocking on `r` being as given.
  lemma CallerMoves<R>(s: Sys<R>, t: nat, p: Caller<R>)
    requires SysInv(s) && CallerOk(p, s.flight.calls)
    requires forall r :: (t in s.callers && s.callers[t].Blocked(r)) ==> (p.Blocked(r) || !s.flight.IsRegistered(r))
    requires forall r :: p.Blocked(r) ==> t in s.callers && s.callers[t].Blocked(r)
    ensures SysInv(s.(callers := s.callers[t := p]))
  {
    forall h | h in s.flight.registered ensures EntryOk(s.(callers := s.callers[t := p]), h, s.flight.registered[h]) {
      assert EntryOk(s, h, s.flight.registered[h]);
      BlockedMore(s.callers, t, p, s.flight.registered[h]);
    }
  }

  lemma RunningMoves<R>(runners: map<R, Runner>, r: R, p: Runner)
    ensures |RunningSet(runners[r := p])| ==
              |RunningSet(runners)| + (if p.Running() then 1 else 0) - (if r in runners && runners[r].Running() then 1 else 0)
  {
    assert RunningSet(runners[r := p]) == if p.Running() then RunningSet(runners) + {r} else RunningSet(runners) - {r};
    assert r in RunningSet(runners) <==> r in runners && runners[r].Running();
  }

  // A caller joins a lookup that is under way.
  lemma JoinKeeps<R>(s: Sys<R>, t: nat, spare: R, host: string)
    requires SysInv(s) && Enabled(s, Enter(t, spare, host)) && !s.flight.closed && host in s.flight.registered
    ensures SysInv(Next(s, Enter(t, spare, host)))
  {
    hide BlockedOn, RunningSet, IsRun;
    var r := s.flight.registered[host];
    var s' := Next(s, Enter(t, spare, host));
    assert s'.runners == s.runners;
    forall h | h in s'.flight.registered ensures EntryOk(s', h, s'.flight.registered[h]) {
      BlockedMore(s.callers, t, Waiting(r, host), s'.flight.registered[h]);
      assert EntryOk(s, h, s.flight.registered[h]);
    }
    forall q | q in s'.runners ensures RunnerOk(s'.flight, q, s'.runners[q]) {
      assert RunnerOk(s.flight, q, s.runners[q]);
    }
    forall u | u in s'.callers ensures CallerOk(s'.callers[u], s'.flight.calls) {
      if u != t { assert CallerOk(s.callers[u], s.flight.calls); }
    }
  }

  // A caller starts a lookup.
  lemma BeginKeeps<R>(s: Sys<R>, t: nat, spare: R, host: string)
    requires SysInv(s) && Enabled(s, Enter(t, spare, host)) && !s.flight.closed && host !in s.flight.registered
    ensures SysInv(Next(s, Enter(t, spare, host)))
  {
    hide BlockedOn, RunningSet, IsRun;
    var s' := Next(s, Enter(t, spare, host));
    RunningMoves(s.runners, spare, Looking);
    NobodyBlocked(s, spare);
    forall h | h in s'.flight.registered ensures EntryOk(s', h, s'.flight.registered[h]) {
      BlockedMore(s.callers, t, Waiting(spare, host), s'.flight.registered[h]);
      if h in s.flight.registered { assert EntryOk(s, h, s.flight.registered[h]); }
    }
    forall q | q in s'.runners ensures RunnerOk(s'.flight, q, s'.runners[q]) {
      if q != spare { assert RunnerOk(s.flight, q, s.runners[q]); }
    }
    forall u | u in s'.callers ensures CallerOk(s'.callers[u], s'.flight.calls) {
      if u != t { assert CallerOk(s.callers[u], s.flight.calls); }
    }
  }

  lemma EnterKeeps<R>(s: Sys<R>, t: nat, spare: R, host: string)
    requires SysInv(s) && Enabled(s, Enter(t, spare, host))
    ensures SysInv(Next(s, Enter(t, spare, host)))
  {
    if s.flight.closed {
      CallerMoves(s, t, Refused);
    } else if host in s.flight.registered {
      hide SysInv;
      JoinKeeps(s, t, spare, host);
    } else {
      hide SysInv;
      BeginKeeps(s, t, spare, host);
    }
  }

  lemma NobodyBlocked<R>(s: Sys<R>, spare: R)
    requires CallersOk(s.callers, s.flight.calls) && spare !in s.flight.calls
    ensures BlockedOn(s.callers, spare) == {}
  {
    forall t | t in s.callers ensures !s.callers[t].Blocked(spare) { assert CallerOk(s.callers[t], s.flight.calls); }
  }

  lemma LeaveKeeps<R>(s: Sys<R>, t: nat)
    requires SysInv(s) && Enabled(s, Leave(t))
    ensures SysInv(Next(s, Leave(t)))
  {
    if s.flight.IsRegistered(s.callers[t].call) {
      hide RunnerOk, CallersOk, RunningSet;
      GiveUpKeepsRegistered(s, t);
      GiveUpKeepsRest(s, t);
    } else {
      CallerMoves(s, t, GaveUp);
    }
  }

  lemma GiveUpKeepsRegistered<R>(s: Sys<R>, t: nat)
    requires SysInv(s) && Enabled(s, Leave(t)) && s.flight.IsRegistered(s.callers[t].call)
    ensures RegisteredOk(Next(s, Leave(t)))
  {
    hide RunningSet, CallersOk, RunnerOk, BlockedOn;
    var r := s.callers[t].call;
    var s' := Next(s, Leave(t));
    BlockedMore(s.callers, t, GaveUp, r);
    assert EntryOk(s, s.flight.calls[r].host, r);
    forall h | h in s'.flight.registered ensures EntryOk(s', h, s'.flight.registered[h]) {
      assert EntryOk(s, h, s.flight.registered[h]);
      BlockedMore(s.callers, t, GaveUp, s.flight.registered[h]);
    }
  }

  lemma GiveUpKeepsRest<R>(s: Sys<R>, t: nat)
    requires SysInv(s) && Enabled(s, Leave(t)) && s.flight.IsRegistered(s.callers[t].call)
    ensures var s' := Next(s, Leave(t));
      && s'.flight.calls.Keys == s.flight.calls.Keys
      && (forall r :: r in s'.runners ==> RunnerOk(s'.flight, r, s'.runners[r]))
      && CallersOk(s'.callers, s'.flight.calls)
  {
    hide RunningSet, BlockedOn, RegisteredOk, RunnerOk;
    var q := s.callers[t].call;
    forall r | r in s.runners ensures RunnerOk(Release(s.flight, q), r, s.runners[r]) {
      ReleaseKeepsRunner(s.flight, q, r, s.runners[r]);
    }
    forall u | u in s.callers && u != t ensures CallerOk(s.callers[u], Release(s.flight, q).calls) {
      assert CallerOk(s.callers[u], s.flight.calls);
    }
  }

  lemma ReleaseKeepsRunner<R>(f: Flight<R>, q: R, r: R, runner: Runner)
    requires q in f.calls && r in f.calls && RunnerOk(f, r, runner)
    ensures RunnerOk(Release(f, q), r, runner)
  {}

  // The goroutine of `r` went one section further.
  ghost predicate RunnerMoved<R>(s: Sys<R>, r: R, s': Sys<R>)
    requires r in s.runners && r in s.flight.calls
  {
    if s.runners[r].Looking? then exists answer :: s' == s.(flight := Store(s.flight, r, answer), runners := s.runners[r := Stored])
    else !s.runners[r].Done? && s' == AdvanceStep(s, r)
  }

  lemma RunnerKeepsRegistered<R>(s: Sys<R>, r: R, s': Sys<R>)
    requires SysInv(s) && r in s.runners && RunnerMoved(s, r, s')
    ensures RegisteredOk(s') && (s'.flight.closed ==> s'.flight.registered == map[])
  {
    hide BlockedOn, RunningSet, IsRun, CallersOk;
    assert RunnerOk(s.flight, r, s.runners[r]);
    assert s'.callers == s.callers;
    forall h | h in s'.flight.registered ensures EntryOk(s', h, s'.flight.registered[h]) {
      assert EntryOk(s, h, s.flight.registered[h]);
    }
  }

  lemma RunnerKeepsRunners<R>(s: Sys<R>, r: R, s': Sys<R>)
    requires SysInv(s) && r in s.runners && RunnerMoved(s, r, s')
    ensures s'.runners.Keys == s'.flight.calls.Keys && forall q :: q in s'.runners ==> RunnerOk(s'.flight, q, s'.runners[q])
  {
    hide BlockedOn, RunningSet, IsRun, CallersOk, RegisteredOk;
    assert RunnerOk(s.flight, r, s.runners[r]);
    NotStoredTwice(s, r);
    forall q | q in s'.runners && q != r ensures RunnerOk(s'.flight, q, s'.runners[q]) {
      OtherRunner(s, r, s', q);
    }
  }

  // A registered lookup's goroutine has not got past storing its answer.
  lemma NotStoredTwice<R>(s: Sys<R>, r: R)
    requires SysInv(s) && r in s.runners
    ensures s.flight.IsRegistered(r) ==> s.runners[r].Looking? || s.runners[r].Stored?
  {
    if s.flight.IsRegistered(r) { assert EntryOk(s, s.flight.calls[r].host, r); }
  }

  lemma OtherRunner<R>(s: Sys<R>, r: R, s': Sys<R>, q: R)
    requires SysInv(s) && r in s.runners && RunnerMoved(s, r, s') && q in s.runners && q != r
    ensures q in s'.runners && q in s'.flight.calls && RunnerOk(s'.flight, q, s'.runners[q])
  {
    hide BlockedOn, RunningSet, IsRun, CallersOk, RegisteredOk;
    assert RunnerOk(s.flight, q, s.runners[q]);
  }

  lemma RunnerKeepsCallers<R>(s: Sys<R>, r: R, s': Sys<R>)
    requires SysInv(s) && r in s.runners && RunnerMoved(s, r, s')
    ensures CallersOk(s'.callers, s'.flight.calls)
  {
    hide BlockedOn, RunningSet, IsRun, RegisteredOk;
    assert RunnerOk(s.flight, r, s.runners[r]);
    forall t | t in s'.callers ensures CallerOk(s'.callers[t], s'.flight.calls) {
      assert CallerOk(s.callers[t], s.flight.calls);
    }
  }

  lemma RunnerKeeps<R>(s: Sys<R>, r: R, s': Sys<R>)
    requires SysInv(s) && r in s.runners && RunnerMoved(s, r, s')
    ensures SysInv(s')
  {
    hide RegisteredOk, RunnerOk, CallersOk, RunningSet;
    RunnerKeepsRegistered(s, r, s');
    RunnerKeepsRunners(s, r, s');
    RunnerKeepsCallers(s, r, s');
    RunningMoves(s.runners, r, s'.runners[r]);
    assert s'.runners == s.runners[r := s'.runners[r]];
  }

  lemma ShutKeeps<R>(s: Sys<R>)
    requires SysInv(s)
    ensures SysInv(Next(s, Shut))
  {
    forall r | r in s.runners ensures RunnerOk(Close(s.flight), r, s.runners[r]) {
      assert RunnerOk(s.flight, r, s.runners[r]);
    }
  }

  lemma StepKeeps<R>(s: Sys<R>, a: Action<R>)
    requires SysInv(s) && Enabled(s, a)
    ensures SysInv(Next(s, a))
  {
    hide SysInv;
    match a
    case Enter(t, spare, host) => EnterKeeps(s, t, spare, host);
    case TimeOut(t) => WaiterMoves(s, t);
    case Leave(t) => LeaveKeeps(s, t);
    case Receive(t) => WaiterMoves(s, t);
    case Answered(r, answer) => RunnerKeeps(s, r, Next(s, a));
    case Advance(r) => RunnerKeeps(s, r, Next(s, a));
    case Shut => ShutKeeps(s);
  }

  lemma WaiterMoves<R>(s: Sys<R>, t: nat)
    requires SysInv(s) && t in s.callers && s.callers[t].Waiting?
    ensures Enabled(s, TimeOut(t)) ==> SysInv(Next(s, TimeOut(t)))
    ensures Enabled(s, Receive(t)) ==> SysInv(Next(s, Receive(t)))
  {
    if Enabled(s, TimeOut(t)) { CallerMoves(s, t, Leaving(s.callers[t].call, s.callers[t].host)); }
    if Enabled(s, Receive(t)) {
      var p := s.callers[t];
      CallerMoves(s, t, Got(p.call, p.host, s.flight.calls[p.call].answer.value));
    }
  }

  lemma {:induction false} RunKeeps<R>(states: seq<Sys<R>>, actions: seq<Action<R>>, j: nat)
    requires IsRun(states, actions) && states[0] == Start<R>() && j < |states|
    ensures SysInv(states[j])
    decreases j
  {
    hide SysInv, Next, Enabled;
    if j == 0 {
      StartOk<R>();
    } else {
      RunKeeps(states, actions, j - 1);
      var a := actions[j - 1];
      StepKeeps(states[j - 1], a);
    }
  }

  lemma StartOk<R>()
    ensures SysInv(Start<R>())
  {}

  // A lookup that is still looking and that nobody cancelled.
  ghost predicate IsLive<R>(s: Sys<R>, r: R) {
    r in s.runners && s.runners[r].Looking? && r in s.flight.calls && !s.flight.calls[r].cancelled
  }

  // In every reachable state: a registered lookup is open, uncancelled and has as many waiters as callers
  // blocked on it, at least one; a running lookup is registered or cancelled, so a host has at most one
  // uncancelled lookup and a lookup nobody waits for is cancelled; the counter counts the running lookups.
  lemma FlightIsSound<R>(states: seq<Sys<R>>, actions: seq<Action<R>>, j: nat)
    requires IsRun(states, actions) && states[0] == Start<R>() && j < |states|
    ensures var s := states[j];
      && (forall h :: h in s.flight.registered ==> EntryOk(s, h, s.flight.registered[h]))
      && (forall r :: IsLive(s, r) ==> s.flight.IsRegistered(r) && BlockedOn(s.callers, r) != {})
      && (forall r, q :: IsLive(s, r) && IsLive(s, q) && s.flight.calls[r].host == s.flight.calls[q].host ==> r == q)
      && s.flight.active == |RunningSet(s.runners)|
      && (s.flight.closed ==> s.flight.registered == map[])
  {
    RunKeeps(states, actions, j);
    var s := states[j];
    hide BlockedOn, RunningSet, IsRun;
    forall r | IsLive(s, r)
      ensures s.flight.IsRegistered(r) && BlockedOn(s.callers, r) != {}
    {
      assert RunnerOk(s.flight, r, s.runners[r]);
      assert EntryOk(s, s.flight.calls[r].host, r);
    }
  }

  // The result channel of a lookup is closed at most once, and a caller that got an answer got the one
  // that a finished lookup for its own host ended with.
  lemma AnswersAreShared<R>(states: seq<Sys<R>>, actions: seq<Action<R>>, j: nat)
    requires IsRun(states, actions) && states[0] == Start<R>() && j < |states|
    ensures var s := states[j];
      && (forall r :: r in s.flight.calls ==> s.flight.calls[r].closes <= 1)
      && (forall t :: t in s.callers && s.callers[t].Got? ==>
            && s.callers[t].call in s.flight.calls
            && var c := s.flight.calls[s.callers[t].call];
               c.host == s.callers[t].host && c.answer == Some(s.callers[t].answer) && c.closes == 1)
  {
    RunKeeps(states, actions, j);
    var s := states[j];
    hide RegisteredOk, BlockedOn, RunningSet, IsRun;
    forall r | r in s.flight.calls ensures s.flight.calls[r].closes <= 1 { assert RunnerOk(s.flight, r, s.runners[r]); }
    forall t | t in s.callers ensures CallerOk(s.callers[t], s.flight.calls) {}
  }

  // What a lookup answered: every answer a caller can get is the one that this very lookup came back with.
  lemma {:induction false} AnswersComeFromLookups<R>(states: seq<Sys<R>>, actions: seq<Action<R>>, j: nat, r: R)
    requires IsRun(states, actions) && states[0] == Start<R>() && j <= |actions|
    requires r in states[j].flight.calls && states[j].flight.calls[r].answer.Some?
    ensures exists k :: 0 <= k < j && actions[k] == Answered(r, states[j].flight.calls[r].answer.value)
    decreases j
  {
    if j > 0 {
      var s, a, s' := states[j - 1], actions[j - 1], states[j];
      assert Enabled(s, a) && s' == Next(s, a);
      hide IsRun, Next, Enabled;
      if a != Answered(r, s'.flight.calls[r].answer.value) {
        AnswerStays(s, a, r);
        AnswersComeFromLookups(states, actions, j - 1, r);
      }
    }
  }

  lemma AnswerStays<R>(s: Sys<R>, a: Action<R>, r: R)
    requires Enabled(s, a) && r in Next(s, a).flight.calls && Next(s, a).flight.calls[r].answer.Some?
    requires a != Answered(r, Next(s, a).flight.calls[r].answer.value)
    ensures r in s.flight.calls && s.flight.calls[r].answer == Next(s, a).flight.calls[r].answer
  {}

  // Once the resolver was closed it stays closed, nothing is registered, and whoever comes is refused.
  lemma {:induction false} ClosedForGood<R>(states: seq<Sys<R>>, actions: seq<Action<R>>, i: nat, j: nat)
    requires IsRun(states, actions) && states[0] == Start<R>() && i < j <= |actions| && actions[i] == Shut
    ensures states[j].flight.closed && states[j].flight.registered == map[]
    ensures j < |actions| && actions[j].Enter? ==>
              actions[j].t in states[j + 1].callers && states[j + 1].callers[actions[j].t] == Refused
    decreases j
  {
    RunKeeps(states, actions, j);
    var s, a := states[j - 1], actions[j - 1];
    assert Enabled(s, a) && states[j] == Next(s, a);
    if i < j - 1 { ClosedForGood(states, actions, i, j - 1); }
    hide RegisteredOk, RunnerOk, CallersOk, RunningSet;
  }

  // A registered lookup stops being registered only by its own end, by its last caller leaving, or when
  // the resolver closes: in particular not by the end of an older lookup for the same host.
  lemma StaysRegistered<R>(s: Sys<R>, a: Action<R>, h: string)
    requires SysInv(s) && Enabled(s, a) && h in s.flight.registered && a != Shut
    ensures var r, s' := s.flight.registered[h], Next(s, a);
      (h in s'.flight.registered && s'.flight.registered[h] == r) <==>
        !(a == Advance(r) && s.runners[r] == Stored) && !(a.Leave? && BlockedOn(s.callers, r) == {a.t})
  {
    var r := s.flight.registered[h];
    assert EntryOk(s, h, r);
    if a.Leave? {
      LeaverIsLast(s, a.t, r);
      if s.flight.IsRegistered(s.callers[a.t].call) { assert EntryOk(s, s.flight.calls[s.callers[a.t].call].host, s.callers[a.t].call); }
    }
  }

  lemma LeaverIsLast<R>(s: Sys<R>, t: nat, r: R)
    requires t in s.callers
    ensures BlockedOn(s.callers, r) == {t} <==> s.callers[t].Blocked(r) && |BlockedOn(s.callers, r)| == 1
  {
    var b := BlockedOn(s.callers, r);
    assert t in b <==> s.callers[t].Blocked(r);
    if t in b && |b| == 1 { assert |b - {t}| == 0; }
  }

  // ---- The resolver's objects.

  class SharedResolution {
    ghost const host: string
    var waiters: int
    var cancelled: bool
    var answer: Option<Answer>
    var done: bool

    constructor (ghost host: string)
      ensures View() == Call(host, 0, false, None, 0)
    {
      this.host := host;
      waiters, cancelled, answer, done := 0, false, None, false;
    }

    ghost function View(): Call
      reads this
    {
      Call(host, waiters, cancelled, answer, if done then 1 else 0)
    }

    method Store(found: Answer)
      modifies this`answer
      ensures View() == old(View()).(answer := Some(found))
    {
      answer := Some(found);
    }

    method Cancel()
      modifies this`cancelled
      ensures View() == old(View()).(cancelled := true)
    {
      cancelled := true;
    }

    // Closing a closed channel would panic.
    method Publish()
      requires !done
      modifies this`done
      ensures View() == old(View()).(closes := old(View()).closes + 1)
    {
      done := true;
    }
  }

  ghost function CallsOf(rs: set<SharedResolution>): map<SharedResolution, Call>
    reads rs
  {
    map r | r in rs :: r.View()
  }

  class Resolver {
    var resolutions: map<string, SharedResolution>
    var resolutionClosed: bool
    var activeResolutions: int
    ghost var started: set<SharedResolution>

    ghost function View(): Flight<SharedResolution>
      reads this, started
    {
      Flight(resolutions, CallsOf(started), resolutionClosed, activeResolutions)
    }

    ghost predicate Valid()
      reads this, started
    {
      forall h :: h in resolutions ==> resolutions[h] in started && resolutions[h].host == h
    }

    constructor ()
      ensures Valid() && View() == Start<SharedResolution>().flight
    {
      resolutions, resolutionClosed, activeResolutions, started := map[], false, 0, {};
      new;
      assert CallsOf(started) == map[];
    }

    // The critical section of resolveCoordinated; `begun` when the caller has to start the lookup's goroutine.
    method Enter(host: string) returns (call: Option<SharedResolution>, begun: bool)
      requires Valid()
      modifies this, started
      ensures Valid() && (call.None? <==> old(resolutionClosed))
      ensures call.None? ==> View() == old(View()) && !begun
      ensures call.Some? ==> started == old(started) + {call.value} && (begun <==> call.value !in old(started))
      ensures call.Some? ==> (View(), call) == Join(old(View()), call.value, host)
    {
      begun := false;
      if resolutionClosed {
        return None, begun;
      }
      if host !in resolutions {
        var begin := new SharedResolution(host);
        resolutions := resolutions[host := begin];
        activeResolutions := activeResolutions + 1;
        started := started + {begin};
        begun := true;
      }
      var shared := resolutions[host];
      shared.waiters := shared.waiters + 1;
      call := Some(shared);
      if begun {
        assert CallsOf(started) == old(CallsOf(started))[shared := Call(host, 1, false, None, 0)];
      } else {
        assert CallsOf(started) == old(CallsOf(started))[shared := shared.View()];
      }
    }

    method ReleaseResolutionWaiter(host: string, call: SharedResolution)
      requires Valid() && call in started && call.host == host
      modifies this`resolutions, call
      ensures Valid() && View() == Release(old(View()), call)
    {
      if host in resolutions && resolutions[host] == call {
        call.waiters := call.waiters - 1;
        if call.waiters == 0 {
          resolutions := resolutions - {host};
          call.cancelled := true;
        }
        assert CallsOf(started) == old(CallsOf(started))[call := call.View()];
      }
    }

    // runResolution's critical section.
    method Forget(host: string, call: SharedResolution)
      requires Valid() && call in started && call.host == host
      modifies this`resolutions
      ensures Valid() && View() == Unregister(old(View()), call)
    {
      if host in resolutions && resolutions[host] == call { resolutions := resolutions - {host}; }
    }

    // runResolution once the lookup has answered; closing a closed channel would panic.
    method RunResolution(host: string, call: SharedResolution, answer: Answer)
      requires Valid() && call in started && call.host == host && !call.done
      modifies this`resolutions, this`activeResolutions, call
      ensures Valid()
      ensures View() == Publish(Uncount(Cancel(Unregister(Store(old(View()), call, answer), call), call)), call)
    {
      hide Store, Unregister, Cancel, Publish, SharedResolution.View, CallsOf;
      StoreAnswer(call, answer);
      Forget(host, call);
      CancelCall(call);
      activeResolutions := activeResolutions - 1;
      PublishCall(call);
    }

    method StoreAnswer(call: SharedResolution, answer: Answer)
      requires Valid() && call in started
      modifies call`answer
      ensures Valid() && View() == Store(old(View()), call, answer)
    {
      hide SharedResolution.View;
      call.Store(answer);
      assert CallsOf(started) == old(CallsOf(started))[call := call.View()];
    }

    method CancelCall(call: SharedResolution)
      requires Valid() && call in started
      modifies call`cancelled
      ensures Valid() && View() == Cancel(old(View()), call)
    {
      hide SharedResolution.View;
      call.Cancel();
      assert CallsOf(started) == old(CallsOf(started))[call := call.View()];
    }

    method PublishCall(call: SharedResolution)
      requires Valid() && call in started && !call.done
      modifies call`done
      ensures Valid() && View() == Publish(old(View()), call)
    {
      hide SharedResolution.View;
      call.Publish();
      assert CallsOf(started) == old(CallsOf(started))[call := call.View()];
    }

    method Shut()
      requires Valid()
      modifies this`resolutions, this`resolutionClosed, started
      ensures Valid() && View() == Close(old(View()))
    {
      resolutionClosed := true;
      CancelAll();
      assert CallsOf(started) == Close(old(View())).calls;
    }

    // Close's loop over the registered lookups.
    method CancelAll()
      requires Valid()
      modifies this`resolutions, resolutions.Values`cancelled
      ensures resolutions == map[]
      ensures forall r :: r in started ==> r.cancelled == old(r.cancelled || (r.host in resolutions && resolutions[r.host] == r))
    {
      ghost var all := resolutions;
      while resolutions != map[]
        modifies this`resolutions, all.Values`cancelled
        invariant resolutions.Keys <= all.Keys && forall h :: h in resolutions ==> resolutions[h] == all[h]
        invariant forall r :: r in started ==>
                    r.cancelled == (old(r.cancelled) || (r.host in all && all[r.host] == r && r.host !in resolutions))
        decreases |resolutions|
      {
        var host :| host in resolutions;
        resolutions[host].cancelled := true;
        assert all[host] in all.Values;
        resolutions := resolutions - {host};
      }
    }
  }
}
