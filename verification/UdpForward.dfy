// The UDP forwarder: datagram handlers, one goroutine per connection, eviction and closing, interleaved
// at every atomic operation, under a global byte budget kept by compare-and-swap.
// `C` stands for a reference to a connection.
module UdpForward {
  import opened Bytes
  import opened Lists
  import opened Sums

  type Key = string

  const BUFFER_SIZE := 40960
  const QUEUE_SIZE := 64

  // `accounted` is what the datagram holds of the budget.
  datatype Datagram = Datagram(length: nat, pooled: bool, accounted: int) {
    function Bytes(): int { if pooled then BUFFER_SIZE else length }
  }

  // How far the goroutine of a connection is.
  datatype Runner = Serving | Writing(datagram: Datagram) | Ending | Removing | Draining | Dropping(datagram: Datagram) | Finished {
    function Held(): int { if Writing? || Dropping? then datagram.accounted else 0 }
  }

  // `accepted` and `taken` are the datagrams that entered and left the queue so far.
  datatype Conn = Conn(
    key: Key, queue: seq<Datagram>, closed: bool, runner: Runner, accepted: seq<Datagram>, taken: seq<Datagram>)
  {
    // The goroutine takes the first datagram.
    function Taking(writing: bool): Conn
      requires queue != []
    {
      this.(queue := queue[1..], taken := taken + [queue[0]], runner := if writing then Writing(queue[0]) else Dropping(queue[0]))
    }
  }

  function NewConn(key: Key): Conn {
    Conn(key, [], false, Serving, [], [])
  }

  datatype Handler<C> =
    | Loading(datagram: Datagram, key: Key)
    | Swapping(datagram: Datagram, key: Key, used: int)
    | Reserved(datagram: Datagram, key: Key)
    | Evicting(datagram: Datagram, conn: C, victim: Option<C>)
    | Enqueueing(datagram: Datagram, conn: C)
    | Releasing(datagram: Datagram)
    | Done
  {
    // Only a datagram that passed the reservation is accounted.
    function Held(): int { if Done? then 0 else datagram.accounted }
  }

  // What connectionsMutex protects.
  datatype Table<C(==)> = Table(connections: map<Key, C>, lru: seq<Key>)

  // ---- The critical sections.

  function MarkActive<C>(t: Table<C>, key: Key): Table<C> {
    t.(lru := if key in Members(t.lru) then MoveToBack(t.lru, key) else t.lru + [key])
  }

  function MakeRoom<C>(t: Table<C>, maxConnections: int): (Table<C>, Option<C>) {
    if maxConnections <= 0 || |t.connections| < maxConnections || t.lru == [] || t.lru[0] !in t.connections then (t, None)
    else (Table(t.connections - {t.lru[0]}, t.lru[1..]), Some(t.connections[t.lru[0]]))
  }

  // The connection for `key`, made under the name `spare` if there is none, and the one evicted for it.
  function GetOrCreate<C>(t: Table<C>, maxConnections: int, spare: C, key: Key): (Table<C>, C, Option<C>) {
    if key in t.connections then (MarkActive(t, key), t.connections[key], None)
    else
      var (t1, victim) := MakeRoom(t, maxConnections);
      (MarkActive(t1.(connections := t1.connections[key := spare]), key), spare, victim)
  }

  function RemoveConnection<C(==)>(t: Table<C>, key: Key, c: C): Table<C> {
    if key in t.connections && t.connections[key] == c then Table(t.connections - {key}, Without(t.lru, key)) else t
  }

  function MarkIfPresent<C(==)>(t: Table<C>, key: Key, c: C): Table<C> {
    if key in t.connections && t.connections[key] == c then MarkActive(t, key) else t
  }

  // enqueue, which holds sendMu throughout.
  function Enqueue(c: Conn, d: Datagram): (Conn, bool) {
    if c.closed || |c.queue| >= QUEUE_SIZE then (c, false) else (c.(queue := c.queue + [d], accepted := c.accepted + [d]), true)
  }

  // ---- The protocol.

  datatype Sys<C(==)> = Sys(
    maxBytes: int, maxConnections: int, used: int, table: Table<C>, conns: map<C, Conn>, handlers: map<nat, Handler<C>>)
  {
    function Handle(h: nat, pc: Handler<C>): Sys<C> {
      this.(handlers := handlers[h := pc])
    }

    function Put(c: C, conn: Conn): Sys<C> {
      this.(conns := conns[c := conn])
    }

    function Run(c: C, runner: Runner): Sys<C>
      requires c in conns
    {
      Put(c, conns[c].(runner := runner))
    }
  }

  datatype Action<C> =
    | Arrive(h: nat, length: nat, pooled: bool, key: Key)
    | Load(h: nat)
    | Swap(h: nat)
    | Find(h: nat, spare: C)
    | CloseVictim(h: nat)
    | Offer(h: nat)
    | Release(h: nat)
    | Mark(c: C)
    | CloseAny(c: C)
    | Take(c: C)
    | Written(c: C, ok: bool)
    | End(c: C)
    | CloseSelf(c: C)
    | Remove(c: C)
    | Drain(c: C)
    | Drop(c: C)

  ghost predicate Enabled<C>(s: Sys<C>, a: Action<C>) {
    match a
    case Arrive(h, _, _, _) => h !in s.handlers
    case Load(h) => h in s.handlers && s.handlers[h].Loading?
    case Swap(h) => h in s.handlers && s.handlers[h].Swapping?
    case Find(h, spare) => h in s.handlers && s.handlers[h].Reserved? && spare !in s.conns
    case CloseVictim(h) => h in s.handlers && s.handlers[h].Evicting?
      && (s.handlers[h].victim.Some? ==> s.handlers[h].victim.value in s.conns)
    case Offer(h) => h in s.handlers && s.handlers[h].Enqueueing? && s.handlers[h].conn in s.conns
    case Release(h) => h in s.handlers && s.handlers[h].Releasing?
    case Mark(c) => c in s.conns
    case CloseAny(c) => c in s.conns
    case Take(c) => c in s.conns && s.conns[c].runner.Serving? && s.conns[c].queue != []
    case Written(c, _) => c in s.conns && s.conns[c].runner.Writing?
    case End(c) => c in s.conns && s.conns[c].runner.Serving?
    case CloseSelf(c) => c in s.conns && s.conns[c].runner.Ending?
    case Remove(c) => c in s.conns && s.conns[c].runner.Removing?
    case Drain(c) => c in s.conns && s.conns[c].runner.Draining?
    case Drop(c) => c in s.conns && s.conns[c].runner.Dropping?
  }

  function Next<C>(s: Sys<C>, a: Action<C>): Sys<C>
    requires Enabled(s, a)
  {
    match a
    case Arrive(h, length, pooled, key) => s.Handle(h, Loading(Datagram(length, pooled, 0), key))
    case Load(h) => LoadStep(s, h)
    case Swap(h) => SwapStep(s, h)
    case Find(h, spare) =>
      var pc := s.handlers[h];
      var (table, c, victim) := GetOrCreate(s.table, s.maxConnections, spare, pc.key);
      var s' := s.(table := table).Handle(h, Evicting(pc.datagram, c, victim));
      if pc.key in s.table.connections then s' else s'.Put(spare, NewConn(pc.key))
    case CloseVictim(h) =>
      var pc := s.handlers[h];
      var s' := s.Handle(h, Enqueueing(pc.datagram, pc.conn));
      if pc.victim.Some? then s'.Put(pc.victim.value, s.conns[pc.victim.value].(closed := true)) else s'
    case Offer(h) =>
      var pc := s.handlers[h];
      var (conn, ok) := Enqueue(s.conns[pc.conn], pc.datagram);
      s.Put(pc.conn, conn).Handle(h, if ok then Done else Releasing(pc.datagram))
    case Release(h) => s.(used := s.used - s.handlers[h].datagram.accounted).Handle(h, Done)
    case Mark(c) => s.(table := MarkIfPresent(s.table, s.conns[c].key, c))
    case CloseAny(c) => s.Put(c, s.conns[c].(closed := true))
    case Take(c) => s.Put(c, s.conns[c].Taking(true))
    case Written(c, ok) =>
      s.(used := s.used - s.conns[c].runner.datagram.accounted).Run(c, if ok then Serving else Ending)
    case End(c) => s.Run(c, Ending)
    case CloseSelf(c) => s.Put(c, s.conns[c].(closed := true, runner := Removing))
    case Remove(c) => s.(table := RemoveConnection(s.table, s.conns[c].key, c)).Run(c, Draining)
    case Drain(c) =>
      if s.conns[c].queue == [] then s.Run(c, Finished)
      else s.Put(c, s.conns[c].Taking(false))
    case Drop(c) => s.(used := s.used - s.conns[c].runner.datagram.accounted).Run(c, Draining)
  }

  // reserveDatagram's loop: load, then compare and swap, then load again if somebody was faster.
  function LoadStep<C>(s: Sys<C>, h: nat): Sys<C>
    requires h in s.handlers && s.handlers[h].Loading?
  {
    var pc := s.handlers[h];
    if s.maxBytes <= 0 then s.Handle(h, Reserved(pc.datagram, pc.key))
    else if pc.datagram.Bytes() > s.maxBytes - s.used then s.Handle(h, Releasing(pc.datagram))
    else s.Handle(h, Swapping(pc.datagram, pc.key, s.used))
  }

  function SwapStep<C>(s: Sys<C>, h: nat): Sys<C>
    requires h in s.handlers && s.handlers[h].Swapping?
  {
    var pc := s.handlers[h];
    if s.used != pc.used then s.Handle(h, Loading(pc.datagram, pc.key))
    else
      var bytes := pc.datagram.Bytes();
      s.(used := s.used + bytes).Handle(h, Reserved(pc.datagram.(accounted := bytes), pc.key))
  }

  ghost predicate IsRun<C>(states: seq<Sys<C>>, actions: seq<Action<C>>) {
    && |states| == |actions| + 1
    && forall i {:trigger actions[i]} :: 0 <= i < |actions| ==>
         Enabled(states[i], actions[i]) && states[i + 1] == Next(states[i], actions[i])
  }

  function Start<C>(maxBytes: int, maxConnections: int): Sys<C> {
    Sys(maxBytes, maxConnections, 0, Table(map[], []), map[], map[])
  }

  // ---- The invariant.

  ghost function QueueBytes(q: seq<Datagram>): int {
    if q == [] then 0 else q[0].accounted + QueueBytes(q[1..])
  }

  ghost function ConnBytes<C>(conns: map<C, Conn>): map<C, int> {
    map c | c in conns :: QueueBytes(conns[c].queue) + conns[c].runner.Held()
  }

  ghost function HandlerBytes<C>(handlers: map<nat, Handler<C>>): map<nat, int> {
    map h | h in handlers :: handlers[h].Held()
  }

  // The counter is what the datagrams in queues and in somebody's hands account for, within the budget.
  ghost predicate BudgetOk<C>(s: Sys<C>) {
    && s.used == Sum(HandlerBytes(s.handlers)) + Sum(ConnBytes(s.conns))
    && 0 <= s.used && (s.maxBytes > 0 ==> s.used <= s.maxBytes)
  }

  // A datagram accounts for its own bytes once reserved, for nothing before, and never without a budget.
  ghost predicate AccountOk(d: Datagram, maxBytes: int) {
    d.accounted == if maxBytes > 0 then d.Bytes() else 0
  }

  ghost predicate HandlersOk<C>(s: Sys<C>) {
    forall h :: h in s.handlers ==> HandlerOk(s, s.handlers[h])
  }

  ghost predicate HandlerOk<C>(s: Sys<C>, pc: Handler<C>) {
    match pc
    case Loading(d, _) => d.accounted == 0
    case Swapping(d, _, used) => d.accounted == 0 && s.maxBytes > 0 && d.Bytes() <= s.maxBytes - used
    case Reserved(d, _) => AccountOk(d, s.maxBytes)
    case Evicting(d, c, victim) => AccountOk(d, s.maxBytes) && c in s.conns && (victim.Some? ==> victim.value in s.conns)
    case Enqueueing(d, c) => AccountOk(d, s.maxBytes) && c in s.conns
    case Releasing(d) => d.accounted == 0 || AccountOk(d, s.maxBytes)
    case Done => true
  }

  // A connection's queue stays within its size; it is closed once its goroutine has closed it; from then
  // on nothing is added, so when the goroutine has drained it, it is empty for good.
  ghost predicate ConnOk(c: Conn, maxBytes: int) {
    && |c.queue| <= QUEUE_SIZE && c.accepted == c.taken + c.queue
    && (forall i :: 0 <= i < |c.queue| ==> AccountOk(c.queue[i], maxBytes))
    && (c.runner.Writing? || c.runner.Dropping? ==> AccountOk(c.runner.datagram, maxBytes))
    && (c.runner.Removing? || c.runner.Draining? || c.runner.Dropping? || c.runner.Finished? ==> c.closed)
    && (c.runner.Finished? ==> c.queue == [])
  }

  ghost predicate ConnsOk<C>(s: Sys<C>) {
    forall c :: c in s.conns ==> ConnOk(s.conns[c], s.maxBytes)
  }

  // Each key of the table once in the list, under it a connection of that key whose goroutine has not
  // removed it yet.
  ghost predicate TableOk<C>(s: Sys<C>) {
    && Distinct(s.table.lru) && Members(s.table.lru) == s.table.connections.Keys
    && (s.maxConnections > 0 ==> |s.table.connections| <= s.maxConnections)
    && (forall k :: k in s.table.connections ==> EntryOk(s, k, s.table.connections[k]))
  }

  ghost predicate EntryOk<C>(s: Sys<C>, k: Key, c: C) {
    && c in s.conns && s.conns[c].key == k
    && !(s.conns[c].runner.Draining? || s.conns[c].runner.Dropping? || s.conns[c].runner.Finished?)
  }

  ghost predicate SysInv<C>(s: Sys<C>) {
    && BudgetOk(s)
    && HandlersOk(s)
    && ConnsOk(s)
    && TableOk(s)
  }

  // ---- Proofs.

  lemma HandlerSum<C>(handlers: map<nat, Handler<C>>, h: nat, pc: Handler<C>)
    ensures Sum(HandlerBytes(handlers[h := pc])) ==
              Sum(HandlerBytes(handlers)) + pc.Held() - (if h in handlers then handlers[h].Held() else 0)
  {
    assert HandlerBytes(handlers[h := pc]) == HandlerBytes(handlers)[h := pc.Held()];
    SumUpdate(HandlerBytes(handlers), h, pc.Held());
  }

  ghost function BytesOf(c: Conn): int {
    QueueBytes(c.queue) + c.runner.Held()
  }

  lemma ConnSum<C>(conns: map<C, Conn>, c: C, conn: Conn)
    ensures Sum(ConnBytes(conns[c := conn])) == Sum(ConnBytes(conns)) + BytesOf(conn) - (if c in conns then BytesOf(conns[c]) else 0)
  {
    assert ConnBytes(conns[c := conn]) == ConnBytes(conns)[c := BytesOf(conn)];
    SumUpdate(ConnBytes(conns), c, BytesOf(conn));
  }

  lemma {:induction false} QueueBytesAppend(q: seq<Datagram>, d: Datagram)
    ensures QueueBytes(q + [d]) == QueueBytes(q) + d.accounted
  {
    if q != [] {
      QueueBytesAppend(q[1..], d);
      assert (q + [d])[1..] == q[1..] + [d];
    }
  }

  lemma {:induction false} QueueBytesNonNegative(q: seq<Datagram>, maxBytes: int)
    requires forall i :: 0 <= i < |q| ==> AccountOk(q[i], maxBytes)
    ensures QueueBytes(q) >= 0
  {
    if q != [] {
      assert AccountOk(q[0], maxBytes);
      QueueBytesNonNegative(q[1..], maxBytes);
    }
  }

  // What is left in the budget is never less than nothing: a release gives back what was held.
  lemma UsedNonNegative<C>(s: Sys<C>)
    requires HandlersOk(s) && ConnsOk(s)
    ensures Sum(HandlerBytes(s.handlers)) + Sum(ConnBytes(s.conns)) >= 0
  {
    forall h | h in s.handlers ensures s.handlers[h].Held() >= 0 { assert HandlerOk(s, s.handlers[h]); }
    forall c | c in s.conns ensures BytesOf(s.conns[c]) >= 0 { QueueBytesNonNegative(s.conns[c].queue, s.maxBytes); }
    SumNonNegative(HandlerBytes(s.handlers));
    SumNonNegative(ConnBytes(s.conns));
  }

  // Other handlers keep knowing their connections.
  lemma HandlersKeep<C>(s: Sys<C>, s': Sys<C>)
    requires HandlersOk(s) && s.conns.Keys <= s'.conns.Keys && s'.maxBytes == s.maxBytes
    requires forall h :: h in s'.handlers ==> (h in s.handlers && s'.handlers[h] == s.handlers[h]) || HandlerOk(s', s'.handlers[h])
    ensures HandlersOk(s')
  {
    forall h | h in s'.handlers ensures HandlerOk(s', s'.handlers[h]) {
      if h in s.handlers { assert HandlerOk(s, s.handlers[h]); }
    }
  }

  // A handler moves without touching the connections or the counter.
  lemma HandlerMoves<C>(s: Sys<C>, h: nat, pc: Handler<C>)
    requires SysInv(s) && HandlerOk(s, pc) && pc.Held() == (if h in s.handlers then s.handlers[h].Held() else 0)
    ensures SysInv(s.Handle(h, pc))
  {
    hide HandlerOk, ConnOk, HandlerBytes, ConnBytes;
    HandlerSum(s.handlers, h, pc);
    assert HandlersOk(s.Handle(h, pc)) by {
      assert HandlerOk(s.Handle(h, pc), pc) by { HandlerOkFrame(s, s.Handle(h, pc), pc); }
      HandlersKeep(s, s.Handle(h, pc));
    }
    assert TableOk(s.Handle(h, pc)) by { TableFrame(s, s.Handle(h, pc)); }
  }

  lemma HandlerOkFrame<C>(s: Sys<C>, s': Sys<C>, pc: Handler<C>)
    requires HandlerOk(s, pc) && s.conns.Keys <= s'.conns.Keys && s'.maxBytes == s.maxBytes
    ensures HandlerOk(s', pc)
  {}

  lemma TableFrame<C>(s: Sys<C>, s': Sys<C>)
    requires TableOk(s) && s'.table == s.table && s'.maxConnections == s.maxConnections && s.conns.Keys <= s'.conns.Keys
    requires forall k :: k in s.table.connections ==> (EntryOk(s', k, s.table.connections[k])
               || (s.table.connections[k] in s.conns && s'.conns[s.table.connections[k]] == s.conns[s.table.connections[k]]))
    ensures TableOk(s')
  {
    forall k | k in s'.table.connections ensures EntryOk(s', k, s'.table.connections[k]) {
      assert EntryOk(s, k, s.table.connections[k]);
    }
  }

  // A connection, and the counter with it, moves.
  lemma ConnMoves<C>(s: Sys<C>, c: C, conn: Conn, used: int)
    requires SysInv(s) && c in s.conns && ConnOk(conn, s.maxBytes) && conn.key == s.conns[c].key
    requires used == s.used + BytesOf(conn) - BytesOf(s.conns[c]) && used <= s.used
    requires (conn.runner.Draining? || conn.runner.Dropping? || conn.runner.Finished?) ==>
               (s.conns[c].runner.Draining? || s.conns[c].runner.Dropping? || s.conns[c].runner.Finished?)
               || forall k :: k in s.table.connections ==> s.table.connections[k] != c
    ensures SysInv(s.(used := used).Put(c, conn))
  {
    hide HandlerOk, ConnOk, HandlerBytes, ConnBytes, BytesOf;
    var s' := s.(used := used).Put(c, conn);
    ConnSum(s.conns, c, conn);
    HandlersKeep(s, s');
    forall k | k in s.table.connections ensures EntryOk(s', k, s.table.connections[k]) {
      assert EntryOk(s, k, s.table.connections[k]);
    }
    TableFrame(s, s');
    UsedNonNegative(s');
  }

  // A handler wins the swap: the budget it saw is still what is used.
  lemma ReserveKeeps<C>(s: Sys<C>, h: nat)
    requires SysInv(s) && h in s.handlers && s.handlers[h].Swapping? && s.used == s.handlers[h].used
    ensures SysInv(SwapStep(s, h))
  {
    hide ConnOk, HandlerBytes, ConnBytes;
    var pc := s.handlers[h];
    var s' := SwapStep(s, h);
    assert HandlerOk(s, pc);
    HandlerSum(s.handlers, h, s'.handlers[h]);
    HandlersKeep(s, s');
    TableFrame(s, s');
  }

  lemma ReleaseKeeps<C>(s: Sys<C>, h: nat)
    requires SysInv(s) && h in s.handlers && s.handlers[h].Releasing?
    ensures SysInv(Next(s, Release(h)))
  {
    hide ConnOk, HandlerBytes, ConnBytes;
    var s' := Next(s, Release(h));
    assert HandlerOk(s, s.handlers[h]);
    HandlerSum(s.handlers, h, Done);
    HandlersKeep(s, s');
    TableFrame(s, s');
    UsedNonNegative(s');
  }

  lemma OfferKeeps<C>(s: Sys<C>, h: nat)
    requires SysInv(s) && Enabled(s, Offer(h))
    ensures SysInv(Next(s, Offer(h)))
  {
    hide BudgetOk, HandlersOk, ConnsOk, TableOk;
    var pc := s.handlers[h];
    HandlerKnown(s, h);
    var (conn, ok) := Enqueue(s.conns[pc.conn], pc.datagram);
    if ok {
      EnqueuedKeeps(s, h, conn);
    } else {
      assert s.conns[pc.conn := s.conns[pc.conn]] == s.conns;
      HandlerMoves(s, h, Releasing(pc.datagram));
    }
  }

  lemma EnqueuedBytes(c: Conn, d: Datagram, maxBytes: int)
    requires ConnOk(c, maxBytes) && AccountOk(d, maxBytes) && Enqueue(c, d).1
    ensures ConnOk(Enqueue(c, d).0, maxBytes) && BytesOf(Enqueue(c, d).0) == BytesOf(c) + d.accounted
  {
    QueueBytesAppend(c.queue, d);
  }

  // The datagram goes from the handler's hands into the queue.
  lemma EnqueuedKeeps<C>(s: Sys<C>, h: nat, conn: Conn)
    requires SysInv(s) && h in s.handlers && s.handlers[h].Enqueueing? && s.handlers[h].conn in s.conns
    requires Enqueue(s.conns[s.handlers[h].conn], s.handlers[h].datagram) == (conn, true)
    ensures SysInv(s.Put(s.handlers[h].conn, conn).Handle(h, Done))
  {
    hide ConnOk, HandlerBytes, ConnBytes, BytesOf, EntryOk, TableOk;
    var pc := s.handlers[h];
    var s' := s.Put(pc.conn, conn).Handle(h, Done);
    assert HandlerOk(s, pc);
    EnqueuedBytes(s.conns[pc.conn], pc.datagram, s.maxBytes);
    HandlerSum(s.handlers, h, Done);
    ConnSum(s.conns, pc.conn, conn);
    DoneOk(s');
    HandlersKeep(s, s');
    ConnUpdateKeepsTable(s, s', pc.conn);
  }

  lemma ConnUpdateKeepsTable<C>(s: Sys<C>, s': Sys<C>, c: C)
    requires TableOk(s) && s'.table == s.table && s'.maxConnections == s.maxConnections && c in s.conns && c in s'.conns
    requires s'.conns == s.conns[c := s'.conns[c]] && s'.conns[c].key == s.conns[c].key
    requires s'.conns[c].runner == s.conns[c].runner
    ensures TableOk(s')
  {
    forall k | k in s.table.connections ensures EntryOk(s', k, s.table.connections[k]) {
      assert EntryOk(s, k, s.table.connections[k]);
    }
  }

  lemma DoneOk<C>(s: Sys<C>)
    ensures HandlerOk(s, Done)
  {}

  // ---- The table.

  lemma MarkActiveKeeps<C>(t: Table<C>, key: Key)
    requires Distinct(t.lru) && Members(t.lru) <= t.connections.Keys <= Members(t.lru) + {key} && key in t.connections
    ensures var t' := MarkActive(t, key); Distinct(t'.lru) && Members(t'.lru) == t.connections.Keys && t'.connections == t.connections
  {
    if key in Members(t.lru) { MoveToBackMembers(t.lru, key); } else { AppendMembers(t.lru, key); }
  }

  lemma MakeRoomKeeps<C>(t: Table<C>, maxConnections: int)
    requires Distinct(t.lru) && Members(t.lru) == t.connections.Keys
    requires maxConnections > 0 ==> |t.connections| <= maxConnections
    ensures var (t', victim) := MakeRoom(t, maxConnections);
      && Distinct(t'.lru) && Members(t'.lru) == t'.connections.Keys && (maxConnections > 0 ==> |t'.connections| < maxConnections)
      && (forall k :: k in t'.connections ==> k in t.connections && t'.connections[k] == t.connections[k])
      && (victim.Some? ==> t.lru != [] && t.lru[0] in t.connections && victim.value == t.connections[t.lru[0]])
  {
    if t.lru == [] {
      assert t.connections == map[];
    } else {
      assert (t.connections - {t.lru[0]}).Keys == t.connections.Keys - {t.lru[0]};
    }
  }

  lemma TableKnown<C>(s: Sys<C>)
    requires TableOk(s)
    ensures Distinct(s.table.lru) && Members(s.table.lru) == s.table.connections.Keys
    ensures s.maxConnections > 0 ==> |s.table.connections| <= s.maxConnections
    ensures forall k :: k in s.table.connections ==> EntryOk(s, k, s.table.connections[k])
  {}

  lemma FindKeeps<C>(s: Sys<C>, h: nat, spare: C)
    requires SysInv(s) && Enabled(s, Find(h, spare))
    ensures SysInv(Next(s, Find(h, spare)))
  {
    hide BudgetOk, HandlersOk, ConnsOk, TableOk, MakeRoom, MarkActive;
    var pc := s.handlers[h];
    HandlerKnown(s, h);
    TableKnown(s);
    if pc.key in s.table.connections {
      var c := s.table.connections[pc.key];
      MarkActiveKeeps(s.table, pc.key);
      TableKeeps(s, MarkActive(s.table, pc.key));
      HandlerMoves(s.(table := MarkActive(s.table, pc.key)), h, Evicting(pc.datagram, c, None));
    } else {
      var (table, c, victim) := GetOrCreate(s.table, s.maxConnections, spare, pc.key);
      MakeRoomKeeps(s.table, s.maxConnections);
      CreateKeeps(s, spare, pc.key);
      HandlerMoves(s.(table := table).Put(spare, NewConn(pc.key)), h, Evicting(pc.datagram, c, victim));
    }
  }

  // The table changes its order or loses entries.
  lemma TableKeeps<C>(s: Sys<C>, table: Table<C>)
    requires SysInv(s) && Distinct(table.lru) && Members(table.lru) == table.connections.Keys
    requires table.connections.Keys <= s.table.connections.Keys && |table.connections| <= |s.table.connections|
    requires forall k :: k in table.connections ==> table.connections[k] == s.table.connections[k]
    ensures SysInv(s.(table := table))
  {
    hide HandlerOk, ConnOk, HandlerBytes, ConnBytes, TableOk;
    HandlersKeep(s, s.(table := table));
    TableShrinks(s, table);
  }

  lemma TableShrinks<C>(s: Sys<C>, table: Table<C>)
    requires TableOk(s) && Distinct(table.lru) && Members(table.lru) == table.connections.Keys
    requires table.connections.Keys <= s.table.connections.Keys && |table.connections| <= |s.table.connections|
    requires forall k :: k in table.connections ==> table.connections[k] == s.table.connections[k]
    ensures TableOk(s.(table := table))
  {
    hide Distinct, Members;
    forall k | k in table.connections ensures EntryOk(s.(table := table), k, table.connections[k]) {
      assert EntryOk(s, k, s.table.connections[k]);
    }
  }

  lemma CreateKeeps<C>(s: Sys<C>, spare: C, key: Key)
    requires SysInv(s) && spare !in s.conns && key !in s.table.connections
    ensures SysInv(s.(table := GetOrCreate(s.table, s.maxConnections, spare, key).0).Put(spare, NewConn(key)))
  {
    hide HandlerOk, HandlerBytes, ConnBytes, TableOk, GetOrCreate;
    var s' := s.(table := GetOrCreate(s.table, s.maxConnections, spare, key).0).Put(spare, NewConn(key));
    CreateKeepsTable(s, spare, key);
    ConnSum(s.conns, spare, NewConn(key));
    HandlersKeep(s, s');
  }

  lemma CreateKeepsTable<C>(s: Sys<C>, spare: C, key: Key)
    requires TableOk(s) && spare !in s.conns && key !in s.table.connections
    ensures TableOk(s.(table := GetOrCreate(s.table, s.maxConnections, spare, key).0).Put(spare, NewConn(key)))
  {
    hide GetOrCreate, EntryOk, Distinct, Members;
    var table := GetOrCreate(s.table, s.maxConnections, spare, key).0;
    var s' := s.(table := table).Put(spare, NewConn(key));
    CreatedTable(s.table, s.maxConnections, spare, key);
    forall k | k in table.connections ensures EntryOk(s', k, table.connections[k]) {
      if k != key { OldEntryOk(s, s', k, spare); } else { NewEntryOk(s', key, spare); }
    }
  }

  lemma CreatedTable<C>(t: Table<C>, maxConnections: int, spare: C, key: Key)
    requires Distinct(t.lru) && Members(t.lru) == t.connections.Keys && key !in t.connections
    requires maxConnections > 0 ==> |t.connections| <= maxConnections
    ensures var t' := GetOrCreate(t, maxConnections, spare, key).0;
      && Distinct(t'.lru) && Members(t'.lru) == t'.connections.Keys && (maxConnections > 0 ==> |t'.connections| <= maxConnections)
      && key in t'.connections && t'.connections[key] == spare
      && (forall k :: k in t'.connections && k != key ==> k in t.connections && t'.connections[k] == t.connections[k])
  {
    hide MarkActive, MakeRoom, Distinct, Members;
    var t1 := MakeRoom(t, maxConnections).0;
    var t2 := t1.(connections := t1.connections[key := spare]);
    MakeRoomKeeps(t, maxConnections);
    assert t2.connections.Keys == t1.connections.Keys + {key};
    MarkActiveKeeps(t2, key);
  }

  lemma OldEntryOk<C>(s: Sys<C>, s': Sys<C>, k: Key, spare: C)
    requires k in s.table.connections && EntryOk(s, k, s.table.connections[k])
    requires spare !in s.conns && spare in s'.conns && s'.conns == s.conns[spare := s'.conns[spare]]
    ensures EntryOk(s', k, s.table.connections[k])
  {}

  lemma NewEntryOk<C>(s: Sys<C>, k: Key, c: C)
    requires c in s.conns && s.conns[c] == NewConn(k)
    ensures EntryOk(s, k, c)
  {}

  lemma RemoveConnectionKeeps<C>(t: Table<C>, key: Key, c: C)
    requires Distinct(t.lru) && Members(t.lru) == t.connections.Keys
    ensures var t' := RemoveConnection(t, key, c);
      && Distinct(t'.lru) && Members(t'.lru) == t'.connections.Keys && |t'.connections| <= |t.connections|
      && t'.connections == (if key in t.connections && t.connections[key] == c then t.connections - {key} else t.connections)
  {
    if key in t.connections && t.connections[key] == c {
      WithoutMembers(t.lru, key);
      assert (t.connections - {key}).Keys == t.connections.Keys - {key};
    }
  }

  lemma RemoveKeeps<C>(s: Sys<C>, c: C)
    requires SysInv(s) && Enabled(s, Remove(c))
    ensures SysInv(Next(s, Remove(c)))
  {
    hide BudgetOk, HandlersOk, ConnsOk, TableOk, RemoveConnection, ConnOk, EntryOk, Distinct, Members;
    var table := RemoveConnection(s.table, s.conns[c].key, c);
    TableKnown(s);
    RemoveConnectionKeeps(s.table, s.conns[c].key, c);
    TableKeeps(s, table);
    ConnKnown(s, c);
    QuietStep(s.conns[c], s.maxBytes);
    NoOtherEntry(s, c);
    ConnMoves(s.(table := table), c, s.conns[c].(runner := Draining), s.used);
  }

  // A connection is in the table under its own key only.
  lemma NoOtherEntry<C>(s: Sys<C>, c: C)
    requires TableOk(s) && c in s.conns
    ensures forall k :: k in s.table.connections && s.table.connections[k] == c ==> k == s.conns[c].key
  {
    forall k | k in s.table.connections && s.table.connections[k] == c ensures k == s.conns[c].key {
      assert EntryOk(s, k, c);
    }
  }

  lemma MarkKeeps<C>(s: Sys<C>, c: C)
    requires SysInv(s) && c in s.conns
    ensures SysInv(Next(s, Mark(c)))
  {
    hide BudgetOk, HandlersOk, ConnsOk, TableOk, MarkActive, Distinct, Members;
    TableKnown(s);
    var key := s.conns[c].key;
    if key in s.table.connections && s.table.connections[key] == c {
      MarkActiveKeeps(s.table, key);
      TableKeeps(s, MarkActive(s.table, key));
    }
  }

  lemma CloseVictimKeeps<C>(s: Sys<C>, h: nat)
    requires SysInv(s) && Enabled(s, CloseVictim(h))
    ensures SysInv(Next(s, CloseVictim(h)))
  {
    hide BudgetOk, HandlersOk, ConnsOk, TableOk;
    var pc := s.handlers[h];
    HandlerKnown(s, h);
    HandlerMoves(s, h, Enqueueing(pc.datagram, pc.conn));
    if pc.victim.Some? { CloseAnyKeeps(s.Handle(h, Enqueueing(pc.datagram, pc.conn)), pc.victim.value); }
  }

  lemma CloseAnyKeeps<C>(s: Sys<C>, c: C)
    requires SysInv(s) && c in s.conns
    ensures SysInv(s.Put(c, s.conns[c].(closed := true)))
  {
    hide BudgetOk, HandlersOk, ConnsOk, TableOk;
    ConnKnown(s, c);
    ConnMoves(s, c, s.conns[c].(closed := true), s.used);
  }

  // The conditions for a connection's goroutine to go on.
  ghost predicate ConnStep(c: Conn, c': Conn, paid: int, maxBytes: int) {
    && ConnOk(c', maxBytes) && c'.key == c.key && BytesOf(c') == BytesOf(c) - paid && paid >= 0
    && (c'.runner.Draining? || c'.runner.Dropping? || c'.runner.Finished? ==> c.runner.Draining? || c.runner.Dropping?)
  }

  lemma TakeStep(c: Conn, writing: bool, maxBytes: int)
    requires ConnOk(c, maxBytes) && c.queue != [] && (if writing then c.runner.Serving? else c.runner.Draining?)
    ensures ConnStep(c, c.Taking(writing), 0, maxBytes)
  {
    var c' := c.Taking(writing);
    assert c.queue == [c.queue[0]] + c.queue[1..];
    assert c'.taken + c'.queue == c.taken + c.queue;
    assert AccountOk(c.queue[0], maxBytes);
  }

  lemma PayStep(c: Conn, runner: Runner, maxBytes: int)
    requires ConnOk(c, maxBytes) && (c.runner.Writing? || c.runner.Dropping?)
    requires if c.runner.Writing? then runner.Serving? || runner.Ending? else runner.Draining?
    ensures ConnStep(c, c.(runner := runner), c.runner.datagram.accounted, maxBytes)
  {}

  // A connection's goroutine goes on.
  lemma RunnerKeeps<C>(s: Sys<C>, a: Action<C>)
    requires SysInv(s) && Enabled(s, a) && (a.Take? || a.Written? || a.End? || a.CloseSelf? || a.Drain? || a.Drop?)
    ensures SysInv(Next(s, a))
  {
    hide BudgetOk, HandlersOk, ConnsOk, TableOk, BytesOf, AccountOk, ConnOk, Conn.Taking;
    var conn := s.conns[a.c];
    ConnKnown(s, a.c);
    match a
    case Take(c) =>
      TakeStep(conn, true, s.maxBytes);
      ConnMoves(s, c, conn.Taking(true), s.used);
    case Written(c, ok) =>
      PayStep(conn, if ok then Serving else Ending, s.maxBytes);
      ConnMoves(s, c, conn.(runner := if ok then Serving else Ending), s.used - conn.runner.datagram.accounted);
    case End(c) =>
      QuietStep(conn, s.maxBytes);
      ConnMoves(s, c, conn.(runner := Ending), s.used);
    case CloseSelf(c) =>
      QuietStep(conn, s.maxBytes);
      ConnMoves(s, c, conn.(closed := true, runner := Removing), s.used);
    case Drain(c) =>
      if conn.queue == [] {
        QuietStep(conn, s.maxBytes);
        ConnMoves(s, c, conn.(runner := Finished), s.used);
      } else {
        TakeStep(conn, false, s.maxBytes);
        ConnMoves(s, c, conn.Taking(false), s.used);
      }
    case Drop(c) =>
      PayStep(conn, Draining, s.maxBytes);
      ConnMoves(s, c, conn.(runner := Draining), s.used - conn.runner.datagram.accounted);
  }

  lemma QuietStep(c: Conn, maxBytes: int)
    requires ConnOk(c, maxBytes)
    ensures c.runner.Serving? ==> ConnStep(c, c.(runner := Ending), 0, maxBytes)
    ensures c.runner.Ending? ==> ConnStep(c, c.(closed := true, runner := Removing), 0, maxBytes)
    ensures c.runner.Removing? ==> ConnOk(c.(runner := Draining), maxBytes) && BytesOf(c.(runner := Draining)) == BytesOf(c)
    ensures c.runner.Draining? && c.queue == [] ==> ConnStep(c, c.(runner := Finished), 0, maxBytes)
  {}

  lemma ConnKnown<C>(s: Sys<C>, c: C)
    requires ConnsOk(s) && c in s.conns
    ensures ConnOk(s.conns[c], s.maxBytes)
  {}

  lemma StepKeeps<C>(s: Sys<C>, a: Action<C>)
    requires SysInv(s) && Enabled(s, a)
    ensures SysInv(Next(s, a))
  {
    hide BudgetOk, HandlersOk, ConnsOk, TableOk;
    match a
    case Arrive(h, length, pooled, key) => HandlerMoves(s, h, Loading(Datagram(length, pooled, 0), key));
    case Load(h) =>
      HandlerKnown(s, h);
      HandlerMoves(s, h, LoadStep(s, h).handlers[h]);
    case Swap(h) =>
      HandlerKnown(s, h);
      if s.used == s.handlers[h].used { ReserveKeeps(s, h); } else { HandlerMoves(s, h, SwapStep(s, h).handlers[h]); }
    case Find(h, spare) => FindKeeps(s, h, spare);
    case CloseVictim(h) => CloseVictimKeeps(s, h);
    case Offer(h) => OfferKeeps(s, h);
    case Release(h) => ReleaseKeeps(s, h);
    case Mark(c) => MarkKeeps(s, c);
    case CloseAny(c) => CloseAnyKeeps(s, c);
    case Remove(c) => RemoveKeeps(s, c);
    case Take(c) => RunnerKeeps(s, a);
    case Written(c, ok) => RunnerKeeps(s, a);
    case End(c) => RunnerKeeps(s, a);
    case CloseSelf(c) => RunnerKeeps(s, a);
    case Drain(c) => RunnerKeeps(s, a);
    case Drop(c) => RunnerKeeps(s, a);
  }

  lemma HandlerKnown<C>(s: Sys<C>, h: nat)
    requires HandlersOk(s) && h in s.handlers
    ensures HandlerOk(s, s.handlers[h])
  {}

  lemma StartOk<C>(maxBytes: int, maxConnections: int)
    ensures SysInv(Start<C>(maxBytes, maxConnections))
  {
    SumZero(HandlerBytes<C>(map[]));
    SumZero(ConnBytes<C>(map[]));
  }

  lemma {:induction false} RunKeeps<C>(states: seq<Sys<C>>, actions: seq<Action<C>>, maxBytes: int,
          maxConnections: int, j: nat)
    requires IsRun(states, actions) && states[0] == Start<C>(maxBytes, maxConnections) && j < |states|
    ensures SysInv(states[j]) && states[j].maxBytes == maxBytes && states[j].maxConnections == maxConnections
    decreases j
  {
    hide SysInv, Enabled;
    if j == 0 {
      StartOk<C>(maxBytes, maxConnections);
    } else {
      RunKeeps(states, actions, maxBytes, maxConnections, j - 1);
      var a := actions[j - 1];
      StepKeeps(states[j - 1], a);
    }
  }

  // ---- What this says about every run from the start.

  // The counter always equals what the queued datagrams and those in somebody's hands account for, and
  // stays within the budget; the list holds every key of the table exactly once, within the cap; datagrams
  // leave a queue in the order they entered it; and the queue of a finished connection is empty.
  lemma BudgetIsKept<C>(states: seq<Sys<C>>, actions: seq<Action<C>>, maxBytes: int, maxConnections: int, j: nat)
    requires IsRun(states, actions) && states[0] == Start<C>(maxBytes, maxConnections) && j < |states|
    ensures var s := states[j];
      && s.used == Sum(HandlerBytes(s.handlers)) + Sum(ConnBytes(s.conns))
      && 0 <= s.used && (maxBytes > 0 ==> s.used <= maxBytes)
      && Distinct(s.table.lru) && Members(s.table.lru) == s.table.connections.Keys
      && (maxConnections > 0 ==> |s.table.connections| <= maxConnections)
      && (forall c :: c in s.conns ==> |s.conns[c].queue| <= QUEUE_SIZE && s.conns[c].accepted == s.conns[c].taken + s.conns[c].queue)
      && (forall c :: c in s.conns && s.conns[c].runner.Finished? ==> s.conns[c].closed && s.conns[c].queue == [])
      && (forall k :: k in s.table.connections ==> EntryOk(s, k, s.table.connections[k]))
  {
    RunKeeps(states, actions, maxBytes, maxConnections, j);
    hide HandlerBytes, ConnBytes, HandlersOk;
    forall c | c in states[j].conns ensures ConnOk(states[j].conns[c], maxBytes) {}
  }

  // When every handler is done and every connection has finished, the whole budget is free again.
  lemma AllIsReturned<C>(states: seq<Sys<C>>, actions: seq<Action<C>>, maxBytes: int, maxConnections: int, j: nat)
    requires IsRun(states, actions) && states[0] == Start<C>(maxBytes, maxConnections) && j < |states|
    requires forall h :: h in states[j].handlers ==> states[j].handlers[h].Done?
    requires forall c :: c in states[j].conns ==> states[j].conns[c].runner.Finished?
    ensures states[j].used == 0
  {
    RunKeeps(states, actions, maxBytes, maxConnections, j);
    var s := states[j];
    forall c | c in s.conns ensures BytesOf(s.conns[c]) == 0 { assert ConnOk(s.conns[c], maxBytes); }
    SumZero(HandlerBytes(s.handlers));
    SumZero(ConnBytes(s.conns));
  }

  // A finished connection stays finished, with nothing in its queue, whatever happens next.
  lemma {:induction false} FinishedForGood<C>(states: seq<Sys<C>>, actions: seq<Action<C>>, maxBytes: int,
          maxConnections: int, i: nat, j: nat, c: C)
    requires IsRun(states, actions) && states[0] == Start<C>(maxBytes, maxConnections) && i <= j < |states|
    requires c in states[i].conns && states[i].conns[c].runner.Finished?
    ensures c in states[j].conns && states[j].conns[c].runner.Finished? && states[j].conns[c].queue == []
    decreases j - i
  {
    hide BudgetOk, HandlersOk, ConnsOk, TableOk;
    if i == j {
      RunKeeps(states, actions, maxBytes, maxConnections, j);
      FinishedIsEmpty(states[j], c);
    } else {
      FinishedForGood(states, actions, maxBytes, maxConnections, i, j - 1, c);
      var a := actions[j - 1];
      RunKeeps(states, actions, maxBytes, maxConnections, j - 1);
      RunKeeps(states, actions, maxBytes, maxConnections, j);
      FinishedStays(states[j - 1], a, c);
      FinishedIsEmpty(states[j], c);
    }
  }

  lemma FinishedIsEmpty<C>(s: Sys<C>, c: C)
    requires ConnsOk(s) && c in s.conns && s.conns[c].runner.Finished?
    ensures s.conns[c].queue == []
  {
    assert ConnOk(s.conns[c], s.maxBytes);
  }

  lemma FinishedStays<C>(s: Sys<C>, a: Action<C>, c: C)
    requires Enabled(s, a) && c in s.conns && s.conns[c].runner.Finished?
    ensures c in Next(s, a).conns && Next(s, a).conns[c].runner.Finished?
  {}

  // ---- Who was active when.

  // For every key, the last step at which a datagram came for it or its connection was marked active.
  ghost function Activity<C>(states: seq<Sys<C>>, actions: seq<Action<C>>, j: nat): map<Key, int>
    requires IsRun(states, actions) && j <= |actions|
  {
    if j == 0 then map[]
    else
      var was, s := Activity(states, actions, j - 1), states[j - 1];
      assert Enabled(s, actions[j - 1]);
      match actions[j - 1]
      case Find(h, _) => was[s.handlers[h].key := j]
      case Mark(c) => if Current(s, c) then was[s.conns[c].key := j] else was
      case _ => was
  }

  // The connection is the one its key has in the table.
  ghost predicate Current<C>(s: Sys<C>, c: C) {
    c in s.conns && s.conns[c].key in s.table.connections && s.table.connections[s.conns[c].key] == c
  }

  ghost predicate ByActivity(lru: seq<Key>, at: map<Key, int>, now: int) {
    && Members(lru) <= at.Keys && SortedBy(lru, at)
    && (forall k :: k in at ==> at[k] <= now)
  }

  lemma MarkedLast<C>(t: Table<C>, key: Key, at: map<Key, int>, now: int)
    requires Distinct(t.lru) && ByActivity(t.lru, at, now)
    ensures ByActivity(MarkActive(t, key).lru, at[key := now + 1], now + 1)
  {
    var at' := at[key := now + 1];
    var rest := Without(t.lru, key);
    if key in Members(t.lru) {
      WithoutMembers(t.lru, key);
      SortedByWithout(t.lru, key, at);
    } else {
      WithoutNothing(t.lru, key);
    }
    SortedByFrame(rest, at, at');
    SortedByAppend(rest, key, at');
  }

  lemma {:induction false} WithoutNothing<R>(s: seq<R>, r: R)
    requires r !in Members(s)
    ensures Without(s, r) == s
  {
    if s != [] { WithoutNothing(s[1..], r); }
  }

  lemma FindByActivity<C>(t: Table<C>, maxConnections: int, spare: C, key: Key, at: map<Key, int>, now: int)
    requires Distinct(t.lru) && Members(t.lru) == t.connections.Keys && ByActivity(t.lru, at, now)
    ensures ByActivity(GetOrCreate(t, maxConnections, spare, key).0.lru, at[key := now + 1], now + 1)
  {
    hide MarkActive;
    if key in t.connections {
      MarkedLast(t, key, at, now);
    } else {
      var t1 := MakeRoom(t, maxConnections).0;
      MarkedLast(t1.(connections := t1.connections[key := spare]), key, at, now);
    }
  }

  // In every state of every run the list is in the order of activity.
  lemma {:induction false} ListIsByActivity<C>(states: seq<Sys<C>>, actions: seq<Action<C>>, maxBytes: int,
          maxConnections: int, j: nat)
    requires IsRun(states, actions) && states[0] == Start<C>(maxBytes, maxConnections) && j <= |actions|
    ensures ByActivity(states[j].table.lru, Activity(states, actions, j), j)
    decreases j
  {
    hide BudgetOk, HandlersOk, ConnsOk, TableOk, Distinct, ByActivity;
    if j == 0 {
      assert ByActivity([], map[], 0) by { NobodyActive(); }
    } else {
      var s, a, at := states[j - 1], actions[j - 1], Activity(states, actions, j - 1);
      ListIsByActivity(states, actions, maxBytes, maxConnections, j - 1);
      RunKeeps(states, actions, maxBytes, maxConnections, j - 1);
      TableKnown(s);
      assert Enabled(s, a) && states[j] == Next(s, a);
      StepByActivity(s, a, at, j - 1);
    }
  }

  lemma NobodyActive()
    ensures ByActivity([], map[], 0)
  {}

  lemma LaterByActivity(lru: seq<Key>, at: map<Key, int>, now: int, r: Key)
    requires ByActivity(lru, at, now)
    ensures ByActivity(lru, at, now + 1) && ByActivity(Without(lru, r), at, now + 1)
  {
    SortedByWithout(lru, r, at);
  }

  lemma StepByActivity<C>(s: Sys<C>, a: Action<C>, at: map<Key, int>, now: int)
    requires Enabled(s, a) && ByActivity(s.table.lru, at, now)
    requires Distinct(s.table.lru) && Members(s.table.lru) == s.table.connections.Keys
    ensures var at' :=
        match a
        case Find(h, _) => at[s.handlers[h].key := now + 1]
        case Mark(c) => if Current(s, c) then at[s.conns[c].key := now + 1] else at
        case _ => at;
      ByActivity(Next(s, a).table.lru, at', now + 1)
  {
    hide ByActivity, Distinct, MarkActive, GetOrCreate;
    LaterByActivity(s.table.lru, at, now, "");
    match a
    case Find(h, spare) => FindByActivity(s.table, s.maxConnections, spare, s.handlers[h].key, at, now);
    case Mark(c) => MarkedLast(s.table, s.conns[c].key, at, now);
    case Remove(c) => LaterByActivity(s.table.lru, at, now, s.conns[c].key);
    case _ =>
  }

  // A connection is evicted only to make room in a full table for a peer that has none, and it is one that
  // no other connection of the table was less recently active than.
  lemma EvictsLeastActive<C>(states: seq<Sys<C>>, actions: seq<Action<C>>, maxBytes: int, maxConnections: int,
          j: nat, h: nat, spare: C)
    requires IsRun(states, actions) && states[0] == Start<C>(maxBytes, maxConnections) && j < |actions|
    requires actions[j] == Find(h, spare) && h in states[j].handlers && states[j].handlers[h].Reserved?
    requires GetOrCreate(states[j].table, maxConnections, spare, states[j].handlers[h].key).2.Some?
    ensures var s, at := states[j], Activity(states, actions, j);
      var (table, _, victim) := GetOrCreate(s.table, maxConnections, spare, s.handlers[h].key);
      && 0 < maxConnections == |s.table.connections| && s.handlers[h].key !in s.table.connections
      && victim.value in s.conns
      && var k := s.conns[victim.value].key;
         && k in s.table.connections && s.table.connections[k] == victim.value && k in at
         && (forall q :: q in s.table.connections ==> q in at && at[k] <= at[q])
         && table.connections == (s.table.connections - {k})[s.handlers[h].key := spare]
  {
    hide BudgetOk, HandlersOk, ConnsOk, TableOk, Distinct, Activity, Enabled, Next;
    RunKeeps(states, actions, maxBytes, maxConnections, j);
    ListIsByActivity(states, actions, maxBytes, maxConnections, j);
    var s := states[j];
    TableKnown(s);
    assert EntryOk(s, s.table.lru[0], s.table.connections[s.table.lru[0]]);
  }

  // A connection that is gone from the table takes nobody else's place with it.
  lemma RemovesOnlyItself<C>(t: Table<C>, key: Key, c: C)
    requires Distinct(t.lru) && Members(t.lru) == t.connections.Keys
    ensures var t' := RemoveConnection(t, key, c);
      && (t' != t <==> key in t.connections && t.connections[key] == c)
      && (t' != t ==> t'.connections == t.connections - {key} && Members(t'.lru) == Members(t.lru) - {key})
  {
    if key in t.connections { WithoutMembers(t.lru, key); }
  }

  // A datagram is taken exactly while the connection is open and its queue has room, and then it is the last.
  lemma TakenExactly(c: Conn, d: Datagram)
    ensures var (c', ok) := Enqueue(c, d);
      && (ok <==> !c.closed && |c.queue| < QUEUE_SIZE)
      && (ok ==> c' == c.(queue := c.queue + [d], accepted := c.accepted + [d])) && (!ok ==> c' == c)
  {}

  // An evicted connection is closed before the datagram that it made room for goes on.
  lemma VictimIsClosed<C>(s: Sys<C>, h: nat)
    requires Enabled(s, CloseVictim(h)) && s.handlers[h].victim.Some?
    ensures var s', c := Next(s, CloseVictim(h)), s.handlers[h].victim.value;
      s'.handlers[h].Enqueueing? && c in s'.conns && s'.conns[c] == s.conns[c].(closed := true)
  {}

  // A datagram is turned away at the budget exactly if it does not fit into what is left of it.
  lemma RefusedExactly<C>(s: Sys<C>, h: nat)
    requires h in s.handlers && s.handlers[h].Loading?
    ensures var d := s.handlers[h].datagram;
      var bytes := if d.pooled then BUFFER_SIZE else d.length;
      && (LoadStep(s, h).handlers[h].Releasing? <==> s.maxBytes > 0 && s.used + bytes > s.maxBytes)
      && LoadStep(s, h).handlers[h].datagram == d && LoadStep(s, h).used == s.used
  {}

  // ---- The forwarder's objects. Each method is one critical section, or several with nobody in between.

  class UdpConnection {
    const key: Key
    var send: seq<Datagram>
    var closed: bool
    ghost var accepted: seq<Datagram>
    ghost var taken: seq<Datagram>

    constructor (key: Key)
      ensures this.key == key && View() == NewConn(key)
    {
      this.key, send, closed, accepted, taken := key, [], false, [], [];
    }

    ghost function View(): Conn
      reads this
    {
      Conn(key, send, closed, Serving, accepted, taken)
    }

    method Offer(d: Datagram) returns (ok: bool)
      modifies this`send, this`accepted
      ensures (View(), ok) == Enqueue(old(View()), d)
    {
      if closed || |send| >= QUEUE_SIZE { return false; }
      send, accepted := send + [d], accepted + [d];
      ok := true;
    }

    method Close()
      modifies this`closed
      ensures View() == old(View()).(closed := true)
    {
      closed := true;
    }
  }

  class UdpForwarder {
    var connections: map<Key, UdpConnection>
    var lru: seq<Key>
    var queuedBytes: int
    const maxConnections: int
    const maxQueuedBytes: int

    function View(): Table<UdpConnection>
      reads this
    {
      Table(connections, lru)
    }

    ghost predicate Valid()
      reads this
    {
      && Distinct(lru) && Members(lru) == connections.Keys
      && (maxConnections > 0 ==> |connections| <= maxConnections)
    }

    constructor (maxConnections: int, maxQueuedBytes: int)
      ensures Valid() && connections == map[] && queuedBytes == 0
      ensures this.maxConnections == maxConnections && this.maxQueuedBytes == maxQueuedBytes
    {
      this.maxConnections, this.maxQueuedBytes := maxConnections, maxQueuedBytes;
      connections, lru, queuedBytes := map[], [], 0;
    }

    // reserveDatagram. With nobody in between the swap succeeds at once; the protocol above has the retries.
    method ReserveDatagram(d: Datagram) returns (ok: bool, d': Datagram)
      modifies this`queuedBytes
      ensures ok <==> maxQueuedBytes <= 0 || old(queuedBytes) + d.Bytes() <= maxQueuedBytes
      ensures d' == if ok && maxQueuedBytes > 0 then d.(accounted := d.Bytes()) else d
      ensures queuedBytes == old(queuedBytes) + if ok && maxQueuedBytes > 0 then d'.accounted else 0
    {
      if maxQueuedBytes <= 0 { return true, d; }
      var bytes := d.Bytes();
      var used := queuedBytes;
      if bytes > maxQueuedBytes - used { return false, d; }
      queuedBytes := used + bytes;
      return true, d.(accounted := bytes);
    }

    method ReleaseDatagram(d: Datagram)
      modifies this`queuedBytes
      ensures queuedBytes == old(queuedBytes) - if d.accounted > 0 then d.accounted else 0
    {
      if d.accounted > 0 { queuedBytes := queuedBytes - d.accounted; }
    }

    method MarkActiveLocked(key: Key)
      modifies this`lru
      ensures View() == MarkActive(old(View()), key)
    {
      lru := if key in Members(lru) then MoveToBack(lru, key) else lru + [key];
    }

    method MakeRoomLocked() returns (victim: Option<UdpConnection>)
      requires Valid()
      modifies this`connections, this`lru
      ensures (View(), victim) == MakeRoom(old(View()), maxConnections)
    {
      if maxConnections <= 0 || |connections| < maxConnections || lru == [] { return None; }
      var oldest := lru[0];
      victim := Some(connections[oldest]);
      connections := connections - {oldest};
      lru := lru[1..];
    }

    // The connection for `key`, now the most recently active; an evicted one is closed.
    method GetOrCreateConnection(key: Key) returns (c: UdpConnection, ghost victim: Option<UdpConnection>)
      requires Valid()
      modifies this`connections, this`lru, connections.Values`closed
      ensures Valid() && (View(), c, victim) == GetOrCreate(old(View()), maxConnections, c, key)
      ensures key in connections && connections[key] == c
      ensures if key in old(connections) then c in old(connections).Values && c == old(connections)[key]
              else fresh(c) && c.View() == NewConn(key)
      ensures victim.Some? ==> victim.value.closed
    {
      hide MakeRoom, MarkActive, Distinct, Members;
      victim := None;
      if key in connections {
        c := connections[key];
        assert c in connections.Values;
        MarkActiveKeeps(View(), key);
        MarkActiveLocked(key);
      } else {
        var evicted;
        c, evicted := CreateLocked(key);
        victim := evicted;
        if evicted.Some? { evicted.value.Close(); }
      }
    }

    method CreateLocked(key: Key) returns (c: UdpConnection, victim: Option<UdpConnection>)
      requires Valid() && key !in connections
      modifies this`connections, this`lru
      ensures Valid() && (View(), c, victim) == GetOrCreate(old(View()), maxConnections, c, key)
      ensures key in connections && connections[key] == c
      ensures fresh(c) && c.View() == NewConn(key)
      ensures victim.Some? ==> victim.value in old(connections).Values
    {
      hide MakeRoom, MarkActive, Distinct, Members;
      ghost var was := View();
      MakeRoomKeeps(was, maxConnections);
      victim := MakeRoomLocked();
      c := new UdpConnection(key);
      connections := connections[key := c];
      assert connections.Keys == MakeRoom(was, maxConnections).0.connections.Keys + {key};
      MarkActiveKeeps(View(), key);
      MarkActiveLocked(key);
    }

    method Remove(key: Key, c: UdpConnection)
      requires Valid()
      modifies this`connections, this`lru
      ensures Valid() && View() == RemoveConnection(old(View()), key, c)
    {
      RemoveConnectionKeeps(View(), key, c);
      if key in connections && connections[key] == c {
        connections := connections - {key};
        lru := Without(lru, key);
      }
    }

    method Mark(key: Key, c: UdpConnection)
      requires Valid()
      modifies this`lru
      ensures Valid() && View() == MarkIfPresent(old(View()), key, c)
    {
      if key in connections && connections[key] == c {
        MarkActiveKeeps(View(), key);
        MarkActiveLocked(key);
      }
    }

    // What waits for being sent to the peer of `key`.
    function Queued(key: Key): seq<Datagram>
      reads this, connections.Values
    {
      if key in connections then
        assert connections[key] in connections.Values;
        connections[key].send
      else []
    }

    // The datagram as it is queued.
    function Owned(d: Datagram): Datagram {
      if maxQueuedBytes > 0 then d.(accounted := d.Bytes()) else d
    }

    // handleOwned: the budget grows exactly by what the queue took, which is this datagram, at its end.
    method HandleOwned(d: Datagram, key: Key) returns (taken: bool)
      requires Valid() && d.accounted == 0
      modifies this`connections, this`lru, this`queuedBytes, connections.Values
      ensures Valid()
      ensures queuedBytes == old(queuedBytes) + if taken && maxQueuedBytes > 0 then d.Bytes() else 0
      ensures taken && maxQueuedBytes > 0 ==> queuedBytes <= maxQueuedBytes
      ensures Queued(key) == old(Queued(key)) + if taken then [Owned(d)] else []
    {
      var ok, owned := ReserveDatagram(d);
      if !ok {
        ReleaseDatagram(owned);
        return false;
      }
      taken := Deliver(owned, key);
    }

    method Deliver(owned: Datagram, key: Key) returns (taken: bool)
      requires Valid()
      modifies this`connections, this`lru, this`queuedBytes, connections.Values
      ensures Valid() && Queued(key) == old(Queued(key)) + if taken then [owned] else []
      ensures queuedBytes == old(queuedBytes) - if !taken && owned.accounted > 0 then owned.accounted else 0
    {
      hide GetOrCreate, Distinct, Members;
      var c, _ := GetOrCreateConnection(key);
      taken := c.Offer(owned);
      if !taken { ReleaseDatagram(owned); }
    }
  }
}
