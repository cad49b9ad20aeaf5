// Which flows an authentication pass picks, what the whole dispatch loop sends, and who spends timeout budget.
module ConntrackDispatch {
  import opened Bytes
  import opened Lists
  import opened Conntrack
  import opened ConntrackInvariant
  import TcpTrack

  // The flows of `rs` waiting for a request to be sent, in list order.
  function Waiting<R(==)>(flows: map<R, Flow>, rs: seq<R>, now: int): (w: seq<R>)
    requires Members(rs) <= flows.Keys
    ensures Members(w) <= Members(rs)
  {
    if rs == [] then []
    else if flows[rs[0]].Eligible(now) then [rs[0]] + Waiting(flows, rs[1..], now)
    else Waiting(flows, rs[1..], now)
  }

  function FlowsOf<R>(jobs: seq<Job<R>>): seq<R> {
    if jobs == [] then [] else [jobs[0].flow] + FlowsOf(jobs[1..])
  }

  lemma {:induction false} FlowsOfConcat<R>(a: seq<Job<R>>, b: seq<Job<R>>)
    ensures FlowsOf(a + b) == FlowsOf(a) + FlowsOf(b)
  {
    if a == [] {
      assert a + b == b;
    } else {
      FlowsOfConcat(a[1..], b);
      assert (a + b)[1..] == a[1..] + b;
    }
  }

  lemma {:induction false} WaitingFrame<R>(flows: map<R, Flow>, flows': map<R, Flow>, rs: seq<R>, now: int)
    requires Members(rs) <= flows.Keys && Members(rs) <= flows'.Keys
    requires forall r :: r in Members(rs) ==> (flows'[r].Eligible(now) <==> flows[r].Eligible(now))
    ensures Waiting(flows', rs, now) == Waiting(flows, rs, now)
  {
    if rs != [] { WaitingFrame(flows, flows', rs[1..], now); }
  }

  function Take<T>(s: seq<T>, n: nat): seq<T> { if |s| <= n then s else s[..n] }

  function Drop<T>(s: seq<T>, n: nat): seq<T> { if |s| <= n then [] else s[n..] }

  lemma {:induction false} TakeMembers<R>(s: seq<R>, n: nat)
    ensures Members(Take(s, n)) <= Members(s)
  {
    if 0 < n < |s| {
      TakeMembers(s[1..], n - 1);
      assert s[..n][1..] == s[1..][..n - 1];
    }
  }

  // The flows of `s` marked as having a request under way.
  function Started<R(==)>(flows: map<R, Flow>, s: seq<R>): (flows': map<R, Flow>)
    requires Members(s) <= flows.Keys
    ensures flows'.Keys == flows.Keys
    decreases s
  {
    if s == [] then flows else Started(flows[s[0] := flows[s[0]].(started := true)], s[1..])
  }

  lemma {:induction false} StartedAt<R>(flows: map<R, Flow>, s: seq<R>, r: R)
    requires Members(s) <= flows.Keys && r in flows
    ensures Started(flows, s)[r] == if r in Members(s) then flows[r].(started := true) else flows[r]
    decreases s
  {
    if s != [] { StartedAt(flows[s[0] := flows[s[0]].(started := true)], s[1..], r); }
  }

  // A batch is the first `room` waiting flows; `more` says exactly that some waiting flow was left.
  lemma {:induction false} BatchTakes<R>(m: Manager<R>, rs: seq<R>, room: nat, now: int)
    requires Distinct(rs) && Members(rs) <= m.flows.Keys
    ensures var w := Waiting(m.flows, rs, now);
      var (m', jobs, more) := TakeBatch(m, rs, room, now);
      FlowsOf(jobs) == Take(w, room) && (more <==> |w| > room)
    decreases rs
  {
    if rs != [] {
      var r := rs[0];
      if !m.flows[r].Eligible(now) {
        BatchTakes(m, rs[1..], room, now);
      } else if room > 0 {
        var m1 := m.(flows := m.flows[r := m.flows[r].(started := true)]);
        WaitingFrame(m.flows, m1.flows, rs[1..], now);
        BatchTakes(m1, rs[1..], room - 1, now);
        var jobs1 := TakeBatch(m1, rs[1..], room - 1, now).1;
        assert ([Job(r, m.flows[r].meta)] + jobs1)[1..] == jobs1;
        var w1 := Waiting(m.flows, rs[1..], now);
        assert Take([r] + w1, room) == [r] + Take(w1, room - 1);
      }
    }
  }

  // Every request of a batch quotes the addresses its flow was last cached with.
  lemma {:induction false} BatchQuotes<R>(m: Manager<R>, rs: seq<R>, room: nat, now: int, i: nat)
    requires Distinct(rs) && Members(rs) <= m.flows.Keys && i < |TakeBatch(m, rs, room, now).1|
    ensures var job := TakeBatch(m, rs, room, now).1[i];
      job.flow in Members(rs) && job.meta == m.flows[job.flow].meta
    decreases rs
  {
    var r := rs[0];
    if !m.flows[r].Eligible(now) {
      BatchQuotes(m, rs[1..], room, now, i);
    } else if i > 0 {
      BatchQuotes(m.(flows := m.flows[r := m.flows[r].(started := true)]), rs[1..], room - 1, now, i - 1);
    }
  }

  // Taking a batch changes nothing but the marks of the flows taken.
  lemma {:induction false} BatchStarts<R>(m: Manager<R>, rs: seq<R>, room: nat, now: int)
    requires Distinct(rs) && Members(rs) <= m.flows.Keys
    ensures var taken := Take(Waiting(m.flows, rs, now), room);
      Members(taken) <= Members(rs) && TakeBatch(m, rs, room, now).0 == m.(flows := Started(m.flows, taken))
    decreases rs
  {
    var w := Waiting(m.flows, rs, now);
    TakeMembers(w, room);
    if rs != [] {
      var r := rs[0];
      if !m.flows[r].Eligible(now) {
        BatchStarts(m, rs[1..], room, now);
      } else if room > 0 {
        var m1 := m.(flows := m.flows[r := m.flows[r].(started := true)]);
        WaitingFrame(m.flows, m1.flows, rs[1..], now);
        BatchStarts(m1, rs[1..], room - 1, now);
        var w1 := Waiting(m.flows, rs[1..], now);
        assert Take(w, room)[1..] == Take(w1, room - 1);
      }
    }
  }

  // After a batch, exactly the waiting flows beyond it are still waiting.
  lemma {:induction false} StartedLeavesRest<R>(flows: map<R, Flow>, rs: seq<R>, room: nat, now: int)
    requires Distinct(rs) && Members(rs) <= flows.Keys
    ensures var w := Waiting(flows, rs, now);
      Members(Take(w, room)) <= flows.Keys && Waiting(Started(flows, Take(w, room)), rs, now) == Drop(w, room)
    decreases rs
  {
    var w := Waiting(flows, rs, now);
    TakeMembers(w, room);
    var flows' := Started(flows, Take(w, room));
    if rs == [] {
    } else if !flows[rs[0]].Eligible(now) {
      StartedAt(flows, Take(w, room), rs[0]);
      StartedLeavesRest(flows, rs[1..], room, now);
    } else if room == 0 {
      assert Take(w, room) == [];
    } else {
      var flows1 := flows[rs[0] := flows[rs[0]].(started := true)];
      var w1 := Waiting(flows, rs[1..], now);
      WaitingFrame(flows, flows1, rs[1..], now);
      assert Take(w, room)[1..] == Take(w1, room - 1);
      StartedLeavesRest(flows1, rs[1..], room - 1, now);
      StartedAt(flows, Take(w, room), rs[0]);
      assert Drop(w, room) == Drop(w1, room - 1);
    }
  }

  // ---- The dispatch loop: batches until none is left, or until a request cannot be sent.

  datatype Dispatched<R> = Dispatched(manager: Manager<R>, sent: seq<Job<R>>, ok: bool)

  // Sending one batch. `refused` are the ids whose request cannot be sent; the first such ends the loop.
  function SendBatch<R(==)>(m: Manager<R>, jobs: seq<Job<R>>, refused: set<nat>, err: AuthError,
          deadline: int): (d: Dispatched<R>)
    requires NoDangling(m) && Members(FlowsOf(jobs)) <= m.flows.Keys
    ensures NoDangling(d.manager)
    decreases jobs
  {
    if jobs == [] then Dispatched(m, [], true)
    else
      var id := m.flows[jobs[0].flow].authID;
      if id in refused then Dispatched(CompleteAuth(m, id, [], Some(err)).0, [], false)
      else
        var d := SendBatch(MarkAuthSent(m, id, deadline), jobs[1..], refused, err, deadline);
        d.(sent := [jobs[0]] + d.sent)
  }

  ghost predicate OnlyDeadlines<R>(m: Manager<R>, m': Manager<R>) {
    && m' == m.(flows := m'.flows) && m'.flows.Keys == m.flows.Keys
    && forall r :: r in m.flows ==> m'.flows[r] == m.flows[r].(deadline := m'.flows[r].deadline)
  }

  // The flow `r` could not be asked for, and is signalled with the error and out of the index.
  ghost predicate StoppedAt<R>(m: Manager<R>, r: R, refused: set<nat>, err: AuthError) {
    r in m.flows && m.flows[r].Signalled() && m.flows[r].authErr == Some(err) && m.flows[r].authID in refused
    && r !in m.Tracked()
  }

  lemma SentOnlyDeadline<R>(m: Manager<R>, id: nat, deadline: int)
    requires NoDangling(m)
    ensures OnlyDeadlines(m, m) && OnlyDeadlines(m, MarkAuthSent(m, id, deadline))
  {}

  lemma ConsPrefix<T>(x: T, a: seq<T>, b: seq<T>)
    requires a <= b
    ensures [x] + a <= [x] + b && |[x] + a| == 1 + |a|
    ensures |a| < |b| ==> ([x] + b)[|[x] + a|] == b[|a|]
  {}

  lemma OnlyDeadlinesTransitive<R>(a: Manager<R>, b: Manager<R>, c: Manager<R>)
    requires OnlyDeadlines(a, b) && OnlyDeadlines(b, c)
    ensures OnlyDeadlines(a, c)
  {}

  lemma RefusedIsStopped<R>(m: Manager<R>, r: R, refused: set<nat>, err: AuthError)
    requires Inv(m) && r in m.Tracked() && m.flows[r].authID in refused && !m.flows[r].Signalled()
    ensures StoppedAt(CompleteAuth(m, m.flows[r].authID, [], Some(err)).0, r, refused, err)
  {
    TrackedUnderOwnNames(m, r);
    KeysKnown(m);
    WithoutMembers(m.lru, r);
  }

  lemma SendNothing<R>(m: Manager<R>, refused: set<nat>, err: AuthError, deadline: int)
    requires NoDangling(m)
    ensures SendBatch(m, [], refused, err, deadline) == Dispatched(m, [], true)
  {}

  lemma SendBatchUnfolds<R>(m: Manager<R>, jobs: seq<Job<R>>, refused: set<nat>, err: AuthError, deadline: int)
    requires NoDangling(m) && Members(FlowsOf(jobs)) <= m.flows.Keys && jobs != []
    ensures var id := m.flows[jobs[0].flow].authID;
      && Members(FlowsOf(jobs[1..])) <= Members(FlowsOf(jobs))
      && SendBatch(m, jobs, refused, err, deadline) ==
           if id in refused then Dispatched(CompleteAuth(m, id, [], Some(err)).0, [], false)
           else
             var d := SendBatch(MarkAuthSent(m, id, deadline), jobs[1..], refused, err, deadline);
             Dispatched(d.manager, [jobs[0]] + d.sent, d.ok)
  {}

  // A request for the flow is on record with its deadline.
  ghost predicate AskedFor<R>(m: Manager<R>, r: R, deadline: int) {
    r in m.flows && m.flows[r].started && m.flows[r].deadline == Some(deadline)
  }

  // Flows whose request is about to be sent.
  ghost predicate Ready<R>(m: Manager<R>, rs: set<R>) {
    rs <= m.flows.Keys && forall r :: r in rs ==> m.flows[r].started && !m.flows[r].Signalled()
  }

  lemma MarkedIsAskedFor<R>(m: Manager<R>, r: R, deadline: int, rs: set<R>)
    requires Inv(m) && r in m.Tracked() && r in rs && Ready(m, rs)
    ensures var m' := MarkAuthSent(m, m.flows[r].authID, deadline);
      NoDangling(m') && AskedFor(m', r, deadline) && Ready(m', rs) && m'.Tracked() == m.Tracked()
  {
    TrackedUnderOwnNames(m, r);
  }

  // A sent batch changes deadlines only; an unsendable request stops the batch and signals its flow.
  lemma {:induction false} SendBatchEffect<R>(m: Manager<R>, jobs: seq<Job<R>>, refused: set<nat>,
          err: AuthError, deadline: int)
    requires Inv(m) && Members(FlowsOf(jobs)) <= m.Tracked() && Ready(m, Members(FlowsOf(jobs)))
    ensures var d := SendBatch(m, jobs, refused, err, deadline);
      && Inv(d.manager) && d.sent <= jobs
      && (d.ok ==> d.sent == jobs && OnlyDeadlines(m, d.manager))
      && (!d.ok ==> |d.sent| < |jobs| && StoppedAt(d.manager, jobs[|d.sent|].flow, refused, err))
    decreases jobs
  {
    hide Inv, Evolves, FlowOk, StoppedAt, OnlyDeadlines, CompleteAuth, MarkAuthSent, SendBatch;
    KeysKnown(m);
    SentOnlyDeadline(m, 0, deadline);
    if jobs == [] {
      SendNothing(m, refused, err, deadline);
    } else {
      SendBatchUnfolds(m, jobs, refused, err, deadline);
      var r := jobs[0].flow;
      TrackedUnderOwnNames(m, r);
      var id := m.flows[r].authID;
      if id in refused {
        CompleteKeeps(m, id, [], Some(err));
        RefusedIsStopped(m, r, refused, err);
      } else {
        var m1 := MarkAuthSent(m, id, deadline);
        SentOnlyDeadline(m, id, deadline);
        MarkedIsAskedFor(m, r, deadline, Members(FlowsOf(jobs)));
        MarkSentKeeps(m, id, deadline);
        SendBatchEffect(m1, jobs[1..], refused, err, deadline);
        var d := SendBatch(m1, jobs[1..], refused, err, deadline);
        ConsPrefix(jobs[0], d.sent, jobs[1..]);
        assert jobs == [jobs[0]] + jobs[1..];
        if d.ok { OnlyDeadlinesTransitive(m, m1, d.manager); }
      }
    }
  }

  lemma {:induction false} WaitingAreEligible<R>(flows: map<R, Flow>, rs: seq<R>, now: int, n: nat, r: R)
    requires Members(rs) <= flows.Keys && r in Members(Take(Waiting(flows, rs, now), n))
    ensures r in Members(rs) && flows[r].Eligible(now)
  {
    TakeMembers(Waiting(flows, rs, now), n);
    if r in Members(Waiting(flows, rs, now)) { EligibleIn(flows, rs, now, r); }
  }

  lemma {:induction false} EligibleIn<R>(flows: map<R, Flow>, rs: seq<R>, now: int, r: R)
    requires Members(rs) <= flows.Keys && r in Members(Waiting(flows, rs, now))
    ensures flows[r].Eligible(now)
  {
    if !flows[rs[0]].Eligible(now) || r != rs[0] {
      if flows[rs[0]].Eligible(now) { assert Waiting(flows, rs, now)[1..] == Waiting(flows, rs[1..], now); }
      EligibleIn(flows, rs[1..], now, r);
    }
  }

  lemma BatchIsReady<R>(m: Manager<R>, limit: nat, now: int)
    requires Inv(m) && Members(m.lru) <= m.flows.Keys
    ensures var (m1, jobs, more) := TakeBatch(m, m.lru, limit, now); Ready(m1, Members(FlowsOf(jobs)))
  {
    KeysKnown(m);
    var taken := Take(Waiting(m.flows, m.lru, now), limit);
    BatchTakes(m, m.lru, limit, now);
    BatchStarts(m, m.lru, limit, now);
    hide Waiting, TakeBatch, Started, Take;
    forall r | r in Members(taken)
      ensures r in m.flows && Started(m.flows, taken)[r].started && !Started(m.flows, taken)[r].Signalled()
    {
      WaitingAreEligible(m.flows, m.lru, now, limit, r);
      StartedAt(m.flows, taken, r);
      assert FlowOk(m.flows[r], r in m.Tracked());
    }
  }

  // One round of the loop.
  lemma BatchProgress<R>(m: Manager<R>, limit: nat, now: int, refused: set<nat>, err: AuthError, deadline: int)
    requires Inv(m) && limit >= 1
    ensures var w := Waiting(m.flows, m.lru, now);
      var (m1, jobs, more) := TakeBatch(m, m.lru, limit, now);
      && NoDangling(m1) && Members(FlowsOf(jobs)) <= m1.flows.Keys
      && FlowsOf(jobs) == Take(w, limit) && (more <==> |w| > limit)
      && var d := SendBatch(m1, jobs, refused, err, deadline);
      && Inv(d.manager) && d.sent <= jobs
      && (d.ok ==> d.sent == jobs && Waiting(d.manager.flows, d.manager.lru, now) == Drop(w, limit))
      && (!d.ok ==> |d.sent| < |jobs| && StoppedAt(d.manager, jobs[|d.sent|].flow, refused, err))
  {
    hide KeysAgree, IdsAgree, IdsUnique, FlowsOk, SendBatch, TakeBatch, Waiting, Started;
    KeysKnown(m);
    var w := Waiting(m.flows, m.lru, now);
    var (m1, jobs, more) := TakeBatch(m, m.lru, limit, now);
    BatchKeeps(m, m.lru, limit, now);
    BatchTakes(m, m.lru, limit, now);
    BatchStarts(m, m.lru, limit, now);
    StartedLeavesRest(m.flows, m.lru, limit, now);
    BatchIsReady(m, limit, now);
    SendBatchEffect(m1, jobs, refused, err, deadline);
    var d := SendBatch(m1, jobs, refused, err, deadline);
    if d.ok { WaitingFrame(m1.flows, d.manager.flows, m.lru, now); }
  }

  // The loop itself; it ends because every full batch leaves fewer flows waiting.
  function Dispatch<R(==)>(m: Manager<R>, limit: nat, now: int, refused: set<nat>, err: AuthError,
          deadline: int): Dispatched<R>
    requires Inv(m) && limit >= 1
    decreases |Waiting(m.flows, m.lru, now)|
  {
    BatchProgress(m, limit, now, refused, err, deadline);
    var (m1, jobs, more) := TakeBatch(m, m.lru, limit, now);
    var d := SendBatch(m1, jobs, refused, err, deadline);
    if !d.ok || !more then d
    else
      var rest := Dispatch(d.manager, limit, now, refused, err, deadline);
      rest.(sent := d.sent + rest.sent)
  }

  // The whole loop asks for every waiting flow exactly once, in list order; if a request cannot be
  // sent it stops right there, and that flow is signalled with the error.
  lemma {:induction false} DispatchSendsAll<R>(m: Manager<R>, limit: nat, now: int, refused: set<nat>,
          err: AuthError, deadline: int)
    requires Inv(m) && limit >= 1
    ensures var w := Waiting(m.flows, m.lru, now);
      var d := Dispatch(m, limit, now, refused, err, deadline);
      && Inv(d.manager) && FlowsOf(d.sent) <= w
      && (d.ok ==> FlowsOf(d.sent) == w && Waiting(d.manager.flows, d.manager.lru, now) == [])
      && (!d.ok ==> |d.sent| < |w| && StoppedAt(d.manager, w[|d.sent|], refused, err))
    decreases |Waiting(m.flows, m.lru, now)|
  {
    hide KeysAgree, IdsAgree, IdsUnique, FlowsOk, SendBatch, TakeBatch, Waiting, StoppedAt;
    BatchProgress(m, limit, now, refused, err, deadline);
    var w := Waiting(m.flows, m.lru, now);
    var (m1, jobs, more) := TakeBatch(m, m.lru, limit, now);
    var d := SendBatch(m1, jobs, refused, err, deadline);
    FlowsOfPrefix(d.sent, jobs);
    assert w == Take(w, limit) + Drop(w, limit);
    if d.ok && more {
      DispatchSendsAll(d.manager, limit, now, refused, err, deadline);
      var rest := Dispatch(d.manager, limit, now, refused, err, deadline);
      FlowsOfConcat(d.sent, rest.sent);
      FlowsOfPrefix(rest.sent, rest.sent);
    }
  }

  lemma {:induction false} FlowsOfPrefix<R>(a: seq<Job<R>>, b: seq<Job<R>>)
    requires a <= b
    ensures FlowsOf(a) <= FlowsOf(b) && |FlowsOf(a)| == |a| && |FlowsOf(b)| == |b|
    ensures forall i :: 0 <= i < |b| ==> FlowsOf(b)[i] == b[i].flow
  {
    if b == [] {
    } else if a == [] {
      FlowsOfPrefix([], b[1..]);
    } else {
      FlowsOfPrefix(a[1..], b[1..]);
    }
  }

  // ---- Every request of the loop is on record with its deadline.

  lemma StaysAskedFor<R>(m: Manager<R>, id: nat, err: AuthError, deadline: int, r: R)
    requires NoDangling(m) && AskedFor(m, r, deadline)
    ensures AskedFor(MarkAuthSent(m, id, deadline), r, deadline)
    ensures AskedFor(CompleteAuth(m, id, [], Some(err)).0, r, deadline)
  {}

  lemma {:induction false} BatchKeepsAskedFor<R>(m: Manager<R>, rs: seq<R>, room: nat, now: int, deadline: int, r: R)
    requires Members(rs) <= m.flows.Keys && AskedFor(m, r, deadline)
    ensures AskedFor(TakeBatch(m, rs, room, now).0, r, deadline)
    decreases rs
  {
    if rs != [] {
      if !m.flows[rs[0]].Eligible(now) {
        BatchKeepsAskedFor(m, rs[1..], room, now, deadline, r);
      } else if room > 0 {
        var m1 := m.(flows := m.flows[rs[0] := m.flows[rs[0]].(started := true)]);
        BatchKeepsAskedFor(m1, rs[1..], room - 1, now, deadline, r);
      }
    }
  }

  lemma {:induction false} SendKeepsAskedFor<R>(m: Manager<R>, jobs: seq<Job<R>>, refused: set<nat>, err: AuthError,
          deadline: int, r: R)
    requires NoDangling(m) && Members(FlowsOf(jobs)) <= m.flows.Keys && AskedFor(m, r, deadline)
    ensures AskedFor(SendBatch(m, jobs, refused, err, deadline).manager, r, deadline)
    decreases jobs
  {
    hide SendBatch, CompleteAuth, MarkAuthSent, AskedFor;
    if jobs == [] {
      SendNothing(m, refused, err, deadline);
    } else {
      var id := m.flows[jobs[0].flow].authID;
      SendBatchUnfolds(m, jobs, refused, err, deadline);
      StaysAskedFor(m, id, err, deadline, r);
      if id !in refused {
        MarkSentDangles(m, id, deadline);
        SendKeepsAskedFor(MarkAuthSent(m, id, deadline), jobs[1..], refused, err, deadline, r);
      }
    }
  }

  lemma MarkSentDangles<R>(m: Manager<R>, id: nat, deadline: int)
    requires NoDangling(m)
    ensures NoDangling(MarkAuthSent(m, id, deadline)) && MarkAuthSent(m, id, deadline).flows.Keys == m.flows.Keys
  {}

  lemma {:induction false} SendBatchAsks<R>(m: Manager<R>, jobs: seq<Job<R>>, refused: set<nat>, err: AuthError,
          deadline: int, i: nat)
    requires Inv(m) && Members(FlowsOf(jobs)) <= m.Tracked() && Ready(m, Members(FlowsOf(jobs)))
    requires NoDangling(m) && i < |SendBatch(m, jobs, refused, err, deadline).sent|
    ensures var d := SendBatch(m, jobs, refused, err, deadline); AskedFor(d.manager, d.sent[i].flow, deadline)
    decreases jobs
  {
    hide Inv, NoDangling, SendBatch, CompleteAuth, MarkAuthSent, AskedFor;
    if jobs == [] {
      SendNothing(m, refused, err, deadline);
    } else {
      var r := jobs[0].flow;
      var id := m.flows[r].authID;
      SendBatchUnfolds(m, jobs, refused, err, deadline);
      if id !in refused {
        var m1 := MarkAuthSent(m, id, deadline);
        MarkedIsAskedFor(m, r, deadline, Members(FlowsOf(jobs)));
        MarkSentKeeps(m, id, deadline);
        if i == 0 {
          SendKeepsAskedFor(m1, jobs[1..], refused, err, deadline, r);
        } else {
          SendBatchAsks(m1, jobs[1..], refused, err, deadline, i - 1);
        }
      }
    }
  }

  // Whatever the loop has sent stays asked for, with the deadline it was sent with.
  lemma {:induction false} DispatchKeepsAskedFor<R>(m: Manager<R>, limit: nat, now: int, refused: set<nat>,
          err: AuthError, deadline: int, r: R)
    requires Inv(m) && limit >= 1 && AskedFor(m, r, deadline)
    ensures AskedFor(Dispatch(m, limit, now, refused, err, deadline).manager, r, deadline)
    decreases |Waiting(m.flows, m.lru, now)|
  {
    hide Inv, SendBatch, TakeBatch, Waiting, AskedFor, StoppedAt;
    BatchProgress(m, limit, now, refused, err, deadline);
    KeysKnown(m);
    var (m1, jobs, more) := TakeBatch(m, m.lru, limit, now);
    BatchKeepsAskedFor(m, m.lru, limit, now, deadline, r);
    SendKeepsAskedFor(m1, jobs, refused, err, deadline, r);
    var d := SendBatch(m1, jobs, refused, err, deadline);
    if d.ok && more { DispatchKeepsAskedFor(d.manager, limit, now, refused, err, deadline, r); }
  }

  lemma {:induction false} DispatchRecords<R>(m: Manager<R>, limit: nat, now: int, refused: set<nat>,
          err: AuthError, deadline: int, i: nat)
    requires Inv(m) && limit >= 1 && i < |Dispatch(m, limit, now, refused, err, deadline).sent|
    ensures var d := Dispatch(m, limit, now, refused, err, deadline); AskedFor(d.manager, d.sent[i].flow, deadline)
    decreases |Waiting(m.flows, m.lru, now)|
  {
    hide Inv, SendBatch, TakeBatch, Waiting, AskedFor, StoppedAt, Ready;
    BatchProgress(m, limit, now, refused, err, deadline);
    KeysKnown(m);
    var (m1, jobs, more) := TakeBatch(m, m.lru, limit, now);
    BatchKeeps(m, m.lru, limit, now);
    BatchIsReady(m, limit, now);
    var d := SendBatch(m1, jobs, refused, err, deadline);
    if i < |d.sent| {
      BatchIsTracked(m, limit, now);
      SendBatchAsks(m1, jobs, refused, err, deadline, i);
      if d.ok && more { DispatchKeepsAskedFor(d.manager, limit, now, refused, err, deadline, d.sent[i].flow); }
    } else {
      DispatchRecords(d.manager, limit, now, refused, err, deadline, i - |d.sent|);
    }
  }

  lemma BatchIsTracked<R>(m: Manager<R>, limit: nat, now: int)
    requires Inv(m) && Members(m.lru) <= m.flows.Keys
    ensures var (m1, jobs, more) := TakeBatch(m, m.lru, limit, now); Members(FlowsOf(jobs)) <= m1.Tracked()
  {
    KeysKnown(m);
    BatchTakes(m, m.lru, limit, now);
    BatchStarts(m, m.lru, limit, now);
  }

  // ---- The timeout budget.

  // What one pass of expireAuth does to a flow of the list.
  ghost predicate ExpiryEffect(f: Flow, f': Flow, now: int, err: AuthError, tracked': bool) {
    if !f.Overdue(now) then f' == f && tracked'
    else
      && f'.timeouts == f.timeouts + 1
      && (tracked' <==> f.timeouts + 1 < MAX_AUTH_ATTEMPTS)
      && (tracked' ==> f' == f.(timeouts := f.timeouts + 1, started := false, deadline := None, retryAt := Some(now)))
      && (!tracked' ==> f'.Signalled() && f'.pending == [] && (!f.Signalled() ==> f'.authErr == Some(err)))
  }

  lemma ChargeEffect<R>(m: Manager<R>, r: R, now: int, err: AuthError)
    requires NoDangling(m) && Distinct(m.lru) && r in m.Tracked()
    ensures var (m', gaveUp) := Charge(m, r, now, err); ExpiryEffect(m.flows[r], m'.flows[r], now, err, r in m'.Tracked())
  {
    hide Charge, NoDangling, Distinct, Members;
    ChargeShape(m, r, now, err);
  }

  // expireAuth charges every overdue tracked flow once and gives up exactly those whose budget this spends.
  lemma {:induction false} ExpiryCharges<R>(m: Manager<R>, rs: seq<R>, now: int, err: AuthError, r: R)
    requires NoDangling(m) && Distinct(m.lru) && Distinct(rs) && Members(rs) <= m.Tracked() && r in m.flows
    ensures var m' := ExpireAuth(m, rs, now, err).0;
      if r in Members(rs) then ExpiryEffect(m.flows[r], m'.flows[r], now, err, r in m'.Tracked())
      else m'.flows[r] == m.flows[r] && (r in m'.Tracked() <==> r in m.Tracked())
    decreases rs
  {
    hide Charge, ExpiryEffect;
    if rs != [] {
      ChargeShape(m, rs[0], now, err);
      ChargeEffect(m, rs[0], now, err);
      ExpiryCharges(Charge(m, rs[0], now, err).0, rs[1..], now, err, r);
    }
  }

  // The number expireAuth reports is the number of flows it takes out of the index.
  lemma {:induction false} ExpiryCount<R>(m: Manager<R>, rs: seq<R>, now: int, err: AuthError)
    requires NoDangling(m) && Distinct(m.lru) && Distinct(rs) && Members(rs) <= m.Tracked()
    ensures var (m', n) := ExpireAuth(m, rs, now, err); |m'.lru| == |m.lru| - n
    decreases rs
  {
    hide Charge;
    if rs != [] {
      ChargeShape(m, rs[0], now, err);
      ExpiryCount(Charge(m, rs[0], now, err).0, rs[1..], now, err);
    }
  }

  // Completing an authentication leaves its deadline running. The next expiry pass still takes the
  // authenticated flow out of the index exactly when that deadline is over and two attempts were charged.
  lemma AuthenticatedFlowMayStillExpire<R>(m: Manager<R>, id: nat, token: Token, now: int, err: AuthError)
    requires Inv(m) && id in m.byID && !m.flows[m.byID[id]].Signalled()
    ensures var r, f := m.byID[id], m.flows[m.byID[id]];
      var m1 := CompleteAuth(m, id, token, None).0;
      && r in m1.Tracked() && r in m1.flows && m1.flows[r].Signalled() && m1.flows[r].authErr == None
      && Members(m1.lru) <= m1.flows.Keys
      && (r !in ExpireAuth(m1, m1.lru, now, err).0.Tracked() <==>
           f.Overdue(now) && f.timeouts + 1 == MAX_AUTH_ATTEMPTS)
  {
    hide KeysAgree, IdsAgree, IdsUnique, FlowsOk;
    var m1 := CompleteAuth(m, id, token, None).0;
    CompleteKeeps(m, id, token, None);
    IdLeadsToTracked(m, id);
    KeysKnown(m1);
    ExpiryCharges(m1, m1.lru, now, err, m.byID[id]);
  }
}
