// The index of IP resources: a tree over the rules sorted by start address, each node knowing the largest
// end below it, so that a search can leave out whole subtrees.
module IpResource {
  import opened Bytes

  datatype IPResource = IPResource(
    ipMin: seq<Byte>, ipMax: seq<Byte>, portMin: int, portMax: int,
    protocol: string, appID: string, nodeGroupID: string, prefersL3: bool)

  datatype Indexed = Indexed(resource: IPResource, start: Uint32, end: Uint32, order: nat)

  datatype Tree = Leaf | Node(resource: Indexed, maxEnd: Uint32, left: Tree, right: Tree)

  // What is looked for; `accept` may be left out.
  datatype Query = Query(ip: Uint32, protocol: string, port: int, preferLast: bool, accept: Option<IPResource -> bool>)

  function IPv4Uint32(ip: seq<Byte>): Option<Uint32> {
    match To4(ip)
    case None => None
    case Some(b) => Some(BigEndian32(b))
  }

  predicate HasRange(r: IPResource) {
    IPv4Uint32(r.ipMin).Some? && IPv4Uint32(r.ipMax).Some? && IPv4Uint32(r.ipMin).value <= IPv4Uint32(r.ipMax).value
  }

  // The rules with a valid range, each with its place in the original list.
  function Prepare(rs: seq<IPResource>): seq<Indexed> {
    if rs == [] then []
    else
      var n := |rs| - 1;
      var front := Prepare(rs[..n]);
      if HasRange(rs[n]) then
        front + [Indexed(rs[n], IPv4Uint32(rs[n].ipMin).value, IPv4Uint32(rs[n].ipMax).value, n)]
      else front
  }

  // sort.SliceStable by start address.
  function StableSort(s: seq<Indexed>): seq<Indexed> {
    if s == [] then [] else Insert(s[0], StableSort(s[1..]))
  }

  function Insert(x: Indexed, s: seq<Indexed>): seq<Indexed> {
    if s == [] || x.start <= s[0].start then [x] + s else [s[0]] + Insert(x, s[1..])
  }

  function Max(a: Uint32, b: Uint32): Uint32 { if a < b then b else a }

  function MaxEnd(t: Tree, otherwise: Uint32): Uint32 {
    if t.Node? then Max(otherwise, t.maxEnd) else otherwise
  }

  function Build(s: seq<Indexed>): Tree {
    if s == [] then Leaf
    else
      var middle := |s| / 2;
      var left, right := Build(s[..middle]), Build(s[middle + 1..]);
      Node(s[middle], MaxEnd(right, MaxEnd(left, s[middle].end)), left, right)
  }

  predicate Fits(r: IPResource, q: Query) {
    && (r.protocol == q.protocol || r.protocol == "all")
    && (q.protocol == "icmp" || r.portMin <= q.port <= r.portMax)
    && (q.accept.None? || q.accept.value(r))
  }

  predicate Hits(x: Indexed, q: Query) {
    x.start <= q.ip <= x.end && Fits(x.resource, q)
  }

  // node.match's update of `best`.
  function Better(best: Option<Indexed>, x: Indexed, q: Query): Option<Indexed> {
    if Hits(x, q) && (best.None? || (!q.preferLast && x.order < best.value.order) || (q.preferLast && x.order > best.value.order))
    then Some(x) else best
  }

  // The variable that node.match updates through its pointer.
  class Best {
    var value: Option<Indexed>

    constructor ()
      ensures value == None
    {
      value := None;
    }
  }

  // ---- What a search must find: the first or last rule of the original list that applies.

  predicate Applies(r: IPResource, q: Query) {
    HasRange(r) && IPv4Uint32(r.ipMin).value <= q.ip <= IPv4Uint32(r.ipMax).value && Fits(r, q)
  }

  function FirstMatch(rs: seq<IPResource>, q: Query): Option<IPResource> {
    if rs == [] then None else if Applies(rs[0], q) then Some(rs[0]) else FirstMatch(rs[1..], q)
  }

  function LastMatch(rs: seq<IPResource>, q: Query): Option<IPResource> {
    if rs == [] then None
    else if Applies(rs[|rs| - 1], q) then Some(rs[|rs| - 1])
    else LastMatch(rs[..|rs| - 1], q)
  }

  // ---- The tree holds the sorted rules, and its bounds are right.

  ghost function Elements(t: Tree): seq<Indexed> {
    if t.Leaf? then [] else Elements(t.left) + [t.resource] + Elements(t.right)
  }

  ghost predicate SortedByStart(s: seq<Indexed>) {
    forall i, j :: 0 <= i < j < |s| ==> s[i].start <= s[j].start
  }

  ghost predicate EndsBy(s: seq<Indexed>, end: int) {
    forall x :: x in s ==> x.end <= end
  }

  // No end below a node is greater than its maxEnd.
  ghost predicate Bounded(t: Tree) {
    t.Leaf? || (Bounded(t.left) && Bounded(t.right) && EndsBy(Elements(t), t.maxEnd))
  }

  lemma EndsByConcat(a: seq<Indexed>, x: Indexed, b: seq<Indexed>, end: int)
    requires EndsBy(a, end) && x.end <= end && EndsBy(b, end)
    ensures EndsBy(a + [x] + b, end)
  {}

  lemma {:induction false} BuildHolds(s: seq<Indexed>)
    ensures Elements(Build(s)) == s && Bounded(Build(s))
  {
    if s != [] {
      var middle := |s| / 2;
      BuildUnfolds(s);
      Halves(s, middle);
      hide Build, EndsBy, Max;
      BuildHolds(s[..middle]);
      BuildHolds(s[middle + 1..]);
      NodeBounded(Build(s));
    }
  }

  lemma Halves(s: seq<Indexed>, middle: nat)
    requires middle < |s|
    ensures s[..middle] + [s[middle]] + s[middle + 1..] == s
  {}

  lemma BuildUnfolds(s: seq<Indexed>)
    requires s != []
    ensures var t, middle := Build(s), |s| / 2;
      t.Node? && t.resource == s[middle] && t.left == Build(s[..middle]) && t.right == Build(s[middle + 1..])
      && t.maxEnd == MaxEnd(t.right, MaxEnd(t.left, t.resource.end))
  {}

  lemma NodeBounded(t: Tree)
    requires t.Node? && Bounded(t.left) && Bounded(t.right)
    requires t.maxEnd == MaxEnd(t.right, MaxEnd(t.left, t.resource.end))
    ensures Bounded(t)
  {
    hide EndsBy;
    EndsByMore(t.left, t.maxEnd);
    EndsByMore(t.right, t.maxEnd);
    EndsByConcat(Elements(t.left), t.resource, Elements(t.right), t.maxEnd);
  }

  lemma EndsByMore(t: Tree, end: int)
    requires Bounded(t) && (t.Node? ==> t.maxEnd <= end)
    ensures EndsBy(Elements(t), end)
  {}

  // ---- A pruned search is a pass over all elements.

  ghost function BestOf(best: Option<Indexed>, s: seq<Indexed>, q: Query): Option<Indexed>
    decreases s
  {
    if s == [] then best else BestOf(Better(best, s[0], q), s[1..], q)
  }

  lemma {:induction false} BestOfConcat(best: Option<Indexed>, a: seq<Indexed>, b: seq<Indexed>, q: Query)
    ensures BestOf(best, a + b, q) == BestOf(BestOf(best, a, q), b, q)
    decreases a
  {
    if a == [] {
      assert a + b == b;
    } else {
      BestOfConcat(Better(best, a[0], q), a[1..], b, q);
      assert (a + b)[1..] == a[1..] + b;
    }
  }

  lemma {:induction false} NothingHits(best: Option<Indexed>, s: seq<Indexed>, q: Query)
    requires forall x :: x in s ==> !Hits(x, q)
    ensures BestOf(best, s, q) == best
  {
    if s != [] { NothingHits(best, s[1..], q); }
  }

  method MatchNode(n: Tree, q: Query, best: Best)
    requires n.Node? && Bounded(n) && SortedByStart(Elements(n))
    modifies best
    ensures best.value == BestOf(old(best.value), Elements(n), q)
    decreases n
  {
    ghost var left, right := Elements(n.left), Elements(n.right);
    SplitSorted(left, n.resource, right);
    BestOfConcat(old(best.value), left + [n.resource], right, q);
    BestOfConcat(old(best.value), left, [n.resource], q);
    if n.maxEnd < q.ip {
      NothingHits(best.value, Elements(n), q);
      return;
    }
    if n.left.Node? && n.left.maxEnd >= q.ip {
      MatchNode(n.left, q, best);
    } else {
      NothingHits(best.value, left, q);
    }
    label middle:
    var resource := n.resource;
    if resource.start <= q.ip <= resource.end
      && (resource.resource.protocol == q.protocol || resource.resource.protocol == "all")
      && (q.protocol == "icmp" || resource.resource.portMin <= q.port <= resource.resource.portMax)
      && (q.accept.None? || q.accept.value(resource.resource))
      && (best.value.None? || (!q.preferLast && resource.order < best.value.value.order)
          || (q.preferLast && resource.order > best.value.value.order))
    {
      best.value := Some(resource);
    }
    if resource.start <= q.ip && n.right.Node? && n.right.maxEnd >= q.ip {
      MatchNode(n.right, q, best);
    } else {
      NothingHits(best.value, right, q);
    }
  }

  lemma SplitSorted(left: seq<Indexed>, x: Indexed, right: seq<Indexed>)
    requires SortedByStart(left + [x] + right)
    ensures SortedByStart(left) && SortedByStart(right) && forall y :: y in right ==> x.start <= y.start
  {
    var s := left + [x] + right;
    forall i, j | 0 <= i < j < |left| ensures left[i].start <= left[j].start { assert s[i].start <= s[j].start; }
    forall i, j | 0 <= i < j < |right| ensures right[i].start <= right[j].start {
      assert s[|left| + 1 + i].start <= s[|left| + 1 + j].start;
    }
    forall y | y in right ensures x.start <= y.start {
      var i :| 0 <= i < |right| && right[i] == y;
      assert s[|left|].start <= s[|left| + 1 + i].start;
    }
  }

  // The best of a sequence hits and has the least (or greatest) place; nothing hits if there is none.
  ghost predicate IsBest(best: Option<Indexed>, s: seq<Indexed>, q: Query) {
    if best.None? then forall x :: x in s ==> !Hits(x, q)
    else
      && best.value in s && Hits(best.value, q)
      && forall x :: x in s && Hits(x, q) ==> if q.preferLast then x.order <= best.value.order else best.value.order <= x.order
  }

  lemma {:induction false} BestOfIsBest(s: seq<Indexed>, done: seq<Indexed>, best: Option<Indexed>, q: Query)
    requires IsBest(best, done, q)
    ensures IsBest(BestOf(best, s, q), done + s, q)
    decreases s
  {
    if s == [] {
      assert done + s == done;
    } else {
      assert forall x :: x in done + [s[0]] <==> x in done || x == s[0];
      BestOfIsBest(s[1..], done + [s[0]], Better(best, s[0], q), q);
      assert done + s == done + [s[0]] + s[1..];
    }
  }

  // ---- Sorting and preparing.

  ghost predicate SameElements(a: seq<Indexed>, b: seq<Indexed>) {
    |a| == |b| && forall x :: x in a <==> x in b
  }

  lemma {:induction false} InsertKeeps(x: Indexed, s: seq<Indexed>)
    requires SortedByStart(s)
    ensures SortedByStart(Insert(x, s)) && SameElements(Insert(x, s), [x] + s)
  {
    if s == [] || x.start <= s[0].start {
    } else {
      InsertKeeps(x, s[1..]);
      var rest := Insert(x, s[1..]);
      assert forall y :: y in s <==> y == s[0] || y in s[1..];
      SortedCons(s[0], rest);
    }
  }

  lemma SortedCons(x: Indexed, s: seq<Indexed>)
    requires SortedByStart(s) && forall y :: y in s ==> x.start <= y.start
    ensures SortedByStart([x] + s)
  {}

  lemma {:induction false} SortKeeps(s: seq<Indexed>)
    ensures SortedByStart(StableSort(s)) && SameElements(StableSort(s), s)
  {
    if s != [] {
      SortKeeps(s[1..]);
      InsertKeeps(s[0], StableSort(s[1..]));
      assert forall y :: y in s <==> y == s[0] || y in s[1..];
    }
  }

  // The rules that start at `start`, in their order.
  function StartingAt(s: seq<Indexed>, start: Uint32): seq<Indexed> {
    if s == [] then []
    else if s[0].start == start then [s[0]] + StartingAt(s[1..], start)
    else StartingAt(s[1..], start)
  }

  lemma {:induction false} InsertIsStable(x: Indexed, s: seq<Indexed>, start: Uint32)
    ensures StartingAt(Insert(x, s), start) == StartingAt([x] + s, start)
  {
    assert ([x] + s)[1..] == s;
    if s != [] && x.start > s[0].start {
      InsertIsStable(x, s[1..], start);
      assert ([x] + s[1..])[1..] == s[1..];
      assert ([s[0]] + Insert(x, s[1..]))[1..] == Insert(x, s[1..]);
    }
  }

  // Sorting keeps the order of rules that start at the same address, and loses none.
  lemma {:induction false} SortIsStable(s: seq<Indexed>, start: Uint32)
    ensures StartingAt(StableSort(s), start) == StartingAt(s, start)
  {
    if s != [] {
      SortIsStable(s[1..], start);
      InsertIsStable(s[0], StableSort(s[1..]), start);
      assert ([s[0]] + StableSort(s[1..]))[1..] == StableSort(s[1..]);
    }
  }

  // Exactly the rules with a range, at their places.
  lemma {:induction false} PrepareHolds(rs: seq<IPResource>)
    ensures forall x :: x in Prepare(rs) <==>
              x.order < |rs| && x.resource == rs[x.order] && HasRange(x.resource)
              && x.start == IPv4Uint32(x.resource.ipMin).value && x.end == IPv4Uint32(x.resource.ipMax).value
  {
    if rs != [] { PrepareHolds(rs[..|rs| - 1]); }
  }

  lemma {:induction false} FirstMatchIs(rs: seq<IPResource>, q: Query, i: nat)
    requires i < |rs| && Applies(rs[i], q) && forall j :: 0 <= j < i ==> !Applies(rs[j], q)
    ensures FirstMatch(rs, q) == Some(rs[i])
  {
    if i > 0 { FirstMatchIs(rs[1..], q, i - 1); }
  }

  lemma {:induction false} LastMatchIs(rs: seq<IPResource>, q: Query, i: nat)
    requires i < |rs| && Applies(rs[i], q) && forall j :: i < j < |rs| ==> !Applies(rs[j], q)
    ensures LastMatch(rs, q) == Some(rs[i])
  {
    if i < |rs| - 1 { LastMatchIs(rs[..|rs| - 1], q, i); }
  }

  lemma {:induction false} NoMatch(rs: seq<IPResource>, q: Query)
    requires forall j :: 0 <= j < |rs| ==> !Applies(rs[j], q)
    ensures FirstMatch(rs, q) == None && LastMatch(rs, q) == None
  {
    if rs != [] {
      NoMatch(rs[1..], q);
      NoMatch(rs[..|rs| - 1], q);
    }
  }

  // For any order the prepared rules are in, the best one is the first (or last) match of the original list.
  lemma BestIsMatch(rs: seq<IPResource>, s: seq<Indexed>, best: Option<Indexed>, q: Query)
    requires SameElements(s, Prepare(rs)) && IsBest(best, s, q)
    ensures (if best.Some? then Some(best.value.resource) else None) == if q.preferLast then LastMatch(rs, q) else FirstMatch(rs, q)
  {
    PrepareHolds(rs);
    forall j | 0 <= j < |rs| && Applies(rs[j], q) ensures HasHit(s, q, rs[j], j) {
      var x := Indexed(rs[j], IPv4Uint32(rs[j].ipMin).value, IPv4Uint32(rs[j].ipMax).value, j);
      assert x in Prepare(rs) && Hits(x, q);
    }
    if best.None? {
      NoMatch(rs, q);
    } else {
      assert Applies(rs[best.value.order], q);
      if q.preferLast { LastMatchIs(rs, q, best.value.order); } else { FirstMatchIs(rs, q, best.value.order); }
    }
  }

  // Whatever order a sort by start address leaves equal addresses in, the tree's best rule is the first
  // (or last) one of the original list that applies.
  lemma AnySortFinds(rs: seq<IPResource>, s: seq<Indexed>, q: Query)
    requires SortedByStart(s) && SameElements(s, Prepare(rs))
    ensures Bounded(Build(s)) && Elements(Build(s)) == s
    ensures var best := BestOf(None, Elements(Build(s)), q);
      (if best.Some? then Some(best.value.resource) else None) == if q.preferLast then LastMatch(rs, q) else FirstMatch(rs, q)
  {
    BuildHolds(s);
    BestOfIsBest(s, [], None, q);
    assert [] + s == s;
    BestIsMatch(rs, s, BestOf(None, s, q), q);
  }

  ghost predicate HasHit(s: seq<Indexed>, q: Query, r: IPResource, order: nat) {
    exists x :: x in s && Hits(x, q) && x.order == order && x.resource == r
  }

  // ---- The index.

  class Index {
    const root: Tree
    ghost const resources: seq<IPResource>

    ghost predicate Valid() {
      root == Build(StableSort(Prepare(resources)))
    }

    constructor (resources: seq<IPResource>)
      ensures Valid() && this.resources == resources
    {
      var indexed: seq<Indexed> := [];
      var order := 0;
      while order < |resources|
        invariant order <= |resources| && indexed == Prepare(resources[..order])
      {
        var resource := resources[order];
        assert resources[..order + 1][..order] == resources[..order];
        var start, end := IPv4Uint32(resource.ipMin), IPv4Uint32(resource.ipMax);
        if start.Some? && end.Some? && start.value <= end.value {
          indexed := indexed + [Indexed(resource, start.value, end.value, order)];
        }
        order := order + 1;
      }
      assert resources[..order] == resources;
      root := Build(StableSort(indexed));
      this.resources := resources;
    }
  }

  // The result a lookup should have: by linear scan, for an address that is IPv4 at all.
  function Scan(rs: seq<IPResource>, destination: seq<Byte>, protocol: string, port: int,
                preferLast: bool, accept: Option<IPResource -> bool>): Option<IPResource>
  {
    match IPv4Uint32(destination)
    case None => None
    case Some(ip) =>
      var q := Query(ip, protocol, port, preferLast, accept);
      if preferLast then LastMatch(rs, q) else FirstMatch(rs, q)
  }

  // A rule is for the destination: its range holds the address, its protocol is the destination's or all,
  // its ports hold the port, where the protocol has ports, and the caller accepts it.
  predicate IsFor(r: IPResource, ip: Uint32, protocol: string, port: int, accept: Option<IPResource -> bool>) {
    && IPv4Uint32(r.ipMin).Some? && IPv4Uint32(r.ipMax).Some?
    && IPv4Uint32(r.ipMin).value <= ip && ip <= IPv4Uint32(r.ipMax).value
    && (r.protocol == "all" || r.protocol == protocol)
    && (protocol == "icmp" || (r.portMin <= port && port <= r.portMax))
    && (accept.Some? ==> accept.value(r))
  }

  // The scan finds the first rule of the list that is for the destination, or the last one if the caller
  // prefers that, and nothing exactly if there is none or the destination is no IPv4 address.
  lemma ScanMeans(rs: seq<IPResource>, destination: seq<Byte>, protocol: string, port: int, preferLast: bool,
                  accept: Option<IPResource -> bool>)
    ensures var found, ip := Scan(rs, destination, protocol, port, preferLast, accept), IPv4Uint32(destination);
      && (found.Some? <==> ip.Some? && exists i :: 0 <= i < |rs| && IsFor(rs[i], ip.value, protocol, port, accept))
      && (found.Some? ==>
            exists i :: 0 <= i < |rs| && rs[i] == found.value && IsFor(rs[i], ip.value, protocol, port, accept)
                        && forall j :: 0 <= j < |rs| && IsFor(rs[j], ip.value, protocol, port, accept) ==>
                             if preferLast then j <= i else i <= j)
  {
    var ip := IPv4Uint32(destination);
    if ip.Some? {
      var q := Query(ip.value, protocol, port, preferLast, accept);
      forall r ensures Applies(r, q) <==> IsFor(r, ip.value, protocol, port, accept) {}
      hide Applies, IsFor, IPv4Uint32;
      var first := FirstApplies(rs, q);
      var last := LastApplies(rs, q);
    }
  }

  lemma {:induction false} FirstApplies(rs: seq<IPResource>, q: Query) returns (i: nat)
    ensures FirstMatch(rs, q).Some? ==>
              i < |rs| && FirstMatch(rs, q) == Some(rs[i]) && Applies(rs[i], q)
    ensures forall j :: 0 <= j < |rs| && Applies(rs[j], q) ==> FirstMatch(rs, q).Some? && i <= j
  {
    hide Applies;
    i := 0;
    if rs != [] && !Applies(rs[0], q) {
      i := FirstApplies(rs[1..], q);
      i := i + 1;
      forall j | 0 <= j < |rs| && Applies(rs[j], q) ensures FirstMatch(rs, q).Some? && i <= j {
        assert rs[1..][j - 1] == rs[j];
      }
    }
  }

  lemma {:induction false} LastApplies(rs: seq<IPResource>, q: Query) returns (i: nat)
    ensures LastMatch(rs, q).Some? ==> i < |rs| && LastMatch(rs, q) == Some(rs[i]) && Applies(rs[i], q)
    ensures forall j :: 0 <= j < |rs| && Applies(rs[j], q) ==> LastMatch(rs, q).Some? && j <= i
  {
    hide Applies;
    i := 0;
    if rs != [] {
      var n := |rs| - 1;
      if Applies(rs[n], q) {
        i := n;
      } else {
        i := LastApplies(rs[..n], q);
        forall j | 0 <= j < |rs| && Applies(rs[j], q) ensures LastMatch(rs, q).Some? && j <= i {
          assert rs[..n][j] == rs[j];
        }
      }
    }
  }

  // Index.match, for an index or none: it finds exactly what the linear scan of the original list finds.
  method Match(i: Index?, destination: seq<Byte>, protocol: string, port: int, preferLast: bool,
          accept: Option<IPResource -> bool>)
      returns (found: Option<IPResource>)
    requires i != null ==> i.Valid()
    ensures i == null ==> found == None
    ensures i != null ==> found == Scan(i.resources, destination, protocol, port, preferLast, accept)
  {
    var ip := IPv4Uint32(destination);
    if ip.None? || i == null { return None; }
    var q := Query(ip.value, protocol, port, preferLast, accept);
    SortKeeps(Prepare(i.resources));
    AnySortFinds(i.resources, StableSort(Prepare(i.resources)), q);
    if i.root.Leaf? { return None; }
    var best := new Best();
    MatchNode(i.root, q, best);
    return if best.value.None? then None else Some(best.value.value.resource);
  }
}
