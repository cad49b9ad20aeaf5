// The pool of fake addresses: names to addresses and addresses to names through shared entries, and a
// cursor over the range. Addresses may also be given from outside, in or out of the range.
module IpPool {
  import opened Bytes

  datatype Named<T> = Named(domain: string, resource: T)

  // The pool as values: where each name is, and what each address stands for.
  datatype Pool<T> = Pool(ips: map<string, Uint32>, names: map<Uint32, Named<T>>, minIP: Uint32, maxIP: Uint32, cursor: Uint32)
  {
    predicate InRange(a: Uint32) { minIP + 2 <= a <= maxIP }

    // The name has an address of the range.
    predicate Holds(domain: string) { domain in ips && InRange(ips[domain]) }
  }

  datatype Created<T> = NotIPv4 | TooSmall | Created(pool: Pool<T>)

  function Power2(n: nat): nat { if n == 0 then 1 else 2 * Power2(n - 1) }

  // NewIPPool for the parsed network `ip/ones`, whose address has its host bits cleared.
  function NewPool<T>(ip: Option<Uint32>, ones: nat): Created<T>
    requires ones <= 32
  {
    if ip.None? then NotIPv4
    else if ones > 30 then TooSmall
    else
      var minIP := FirstOf(ip.value, ones);
      Created(Pool(map[], map[], minIP, LastOf(ip.value, ones), minIP + 2))
  }

  // The address with its host bits cleared, and the last but one of its block.
  function FirstOf(ip: Uint32, ones: nat): (a: Uint32)
    requires ones <= 30
    ensures a <= 0xffff_fffc
  {
    RangeFits(ip, ones);
    ip - ip % Power2(32 - ones)
  }

  function LastOf(ip: Uint32, ones: nat): (a: Uint32)
    requires ones <= 30
    ensures FirstOf(ip, ones) + 2 <= a <= 0xffff_fffe
  {
    RangeFits(ip, ones);
    FirstOf(ip, ones) + Power2(32 - ones) - 2
  }

  lemma {:induction false} Power2Grows(n: nat, k: nat)
    requires n <= k
    ensures Power2(n) <= Power2(k) && (n <= k ==> Power2(k) == Power2(n) * Power2(k - n))
    decreases k
  {
    if n < k {
      Power2Grows(n, k - 1);
      var p, r := Power2(n), Power2(k - 1 - n);
      assert Power2(k) == 2 * (p * r) == p * (2 * r);
      assert Power2(k - n) == 2 * r;
    }
  }

  // The last address of the range is below the top of the 32-bit range, so the cursor behind it is, too.
  lemma RangeFits(ip: Uint32, ones: nat)
    requires ones <= 30
    ensures Power2(32) == 0x1_0000_0000 && Power2(32 - ones) >= 4 && 0 <= ip - ip % Power2(32 - ones)
    ensures ip - ip % Power2(32 - ones) + Power2(32 - ones) - 2 <= 0xffff_fffe
  {
    var size := Power2(32 - ones);
    assert Power2(2) == 4 && Power2(8) == 0x100 && Power2(16) == 0x1_0000 by { Powers(); }
    assert Power2(32) == 0x1_0000_0000 by { Powers(); }
    Power2Grows(2, 32 - ones);
    Power2Grows(32 - ones, 32);
    TopOfBlock(ip, size, Power2(ones));
  }

  lemma Powers()
    ensures Power2(2) == 4 && Power2(8) == 0x100 && Power2(16) == 0x1_0000 && Power2(32) == 0x1_0000_0000
  {
    assert Power2(4) == 16;
    Power2Grows(4, 8);
    Power2Grows(8, 16);
    Power2Grows(16, 32);
  }

  lemma TopOfBlock(x: nat, size: nat, blocks: nat)
    requires size > 0 && x < size * blocks
    ensures 0 <= x - x % size && x - x % size + size <= size * blocks
  {
    var q := x / size;
    DivMod(x, size);
    if q >= blocks { MulMonotone(blocks, q, size); }
    MulMonotone(q + 1, blocks, size);
    assert (q + 1) * size == q * size + size && blocks * size == size * blocks;
  }

  lemma DivMod(x: nat, size: nat)
    requires size > 0
    ensures x == x / size * size + x % size && 0 <= x % size < size
  {}

  lemma MulMonotone(a: nat, b: nat, c: nat)
    requires a <= b
    ensures a * c <= b * c
  {}

  // ---- The operations.

  function Forget<T>(p: Pool<T>, domain: string): Pool<T> {
    if domain in p.ips then p.(ips := p.ips - {domain}, names := p.names - {p.ips[domain]}) else p
  }

  function Assign<T>(p: Pool<T>, domain: string, ip: Uint32, resource: T): Pool<T> {
    p.(ips := p.ips[domain := ip], names := p.names[ip := Named(domain, resource)])
  }

  // Neither the name nor the address belongs to anything any more.
  function Freed<T>(p: Pool<T>, ip: Uint32, domain: string): (f: Pool<T>)
    ensures f == p.(ips := f.ips, names := f.names)
  {
    var p1 := Forget(p, domain);
    if ip in p1.names then Forget(p1, p1.names[ip].domain) else p1
  }

  // A name with an address of the range keeps it; otherwise the name and the address are taken over.
  function Set<T>(p: Pool<T>, ip: Uint32, domain: string, resource: T): Pool<T> {
    if p.Holds(domain) then p.(names := p.names[p.ips[domain] := Named(domain, resource)])
    else Assign(Freed(p, ip, domain), domain, ip, resource)
  }

  // The first unmapped address from `from`, or the one behind the range.
  function FirstFree<T>(names: map<Uint32, Named<T>>, from: Uint32, maxIP: Uint32): (a: Uint32)
    requires from <= maxIP + 1 && maxIP < 0xffff_ffff
    ensures from <= a <= maxIP + 1 && (a <= maxIP ==> a !in names) && forall b: Uint32 :: from <= b < a ==> b in names
    decreases maxIP + 1 - from
  {
    if from > maxIP || from !in names then from else FirstFree(names, from + 1, maxIP)
  }

  predicate CursorInRange<T>(p: Pool<T>) {
    p.minIP + 2 <= p.cursor <= p.maxIP + 1 && p.maxIP < 0xffff_ffff
  }

  function Generate<T>(p: Pool<T>, domain: string, resource: T): (Pool<T>, Option<Uint32>)
    requires CursorInRange(p)
  {
    if p.Holds(domain) then (p, Some(p.ips[domain]))
    else
      var p1 := Forget(p, domain);
      var a := FirstFree(p1.names, p.cursor, p.maxIP);
      if a > p.maxIP then (p1.(cursor := a), None)
      else (Assign(p1.(cursor := a + 1), domain, a, resource), Some(a))
  }

  // ---- The invariant.

  // The two maps are inverse to each other.
  ghost predicate Inverse<T>(p: Pool<T>) {
    && (forall d :: d in p.ips ==> p.ips[d] in p.names && p.names[p.ips[d]].domain == d)
    && (forall a :: a in p.names ==> p.names[a].domain in p.ips && p.ips[p.names[a].domain] == a)
  }

  // Every address the cursor has passed is mapped.
  ghost predicate PassedMapped<T>(p: Pool<T>) {
    forall a: Uint32 :: p.minIP + 2 <= a < p.cursor ==> a in p.names
  }

  ghost predicate PoolInv<T>(p: Pool<T>) {
    CursorInRange(p) && Inverse(p) && PassedMapped(p)
  }

  // Same range; the cursor only advances; an address of the range that is mapped stays mapped.
  ghost predicate Advances<T>(p: Pool<T>, p': Pool<T>) {
    && p'.minIP == p.minIP && p'.maxIP == p.maxIP && p.cursor <= p'.cursor
    && forall a :: a in p.names && p.InRange(a) ==> a in p'.names
  }

  lemma ForgetKeeps<T>(p: Pool<T>, domain: string)
    requires Inverse(p)
    ensures Inverse(Forget(p, domain)) && domain !in Forget(p, domain).ips
  {}

  lemma AssignKeeps<T>(p: Pool<T>, domain: string, ip: Uint32, resource: T)
    requires Inverse(p) && domain !in p.ips && ip !in p.names
    ensures Inverse(Assign(p, domain, ip, resource))
  {}

  lemma SetKeeps<T>(p: Pool<T>, ip: Uint32, domain: string, resource: T)
    requires PoolInv(p)
    ensures PoolInv(Set(p, ip, domain, resource)) && Advances(p, Set(p, ip, domain, resource))
  {
    if !p.Holds(domain) {
      var p1 := Forget(p, domain);
      ForgetKeeps(p, domain);
      if ip in p1.names { ForgetKeeps(p1, p1.names[ip].domain); }
      AssignKeeps(Freed(p, ip, domain), domain, ip, resource);
    }
  }

  lemma GenerateKeeps<T>(p: Pool<T>, domain: string, resource: T)
    requires PoolInv(p)
    ensures var (p', ip) := Generate(p, domain, resource); PoolInv(p') && Advances(p, p')
  {
    if !p.Holds(domain) {
      var p1 := Forget(p, domain);
      ForgetKeeps(p, domain);
      var a := FirstFree(p1.names, p.cursor, p.maxIP);
      if a <= p.maxIP { AssignKeeps(p1.(cursor := a + 1), domain, a, resource); }
    }
  }

  // ---- What the results mean.

  // The address belongs to the name afterwards; it is the one the name had, or one nobody had.
  lemma GeneratedIsOwnOrFree<T>(p: Pool<T>, domain: string, resource: T)
    requires PoolInv(p)
    ensures var (p', ip) := Generate(p, domain, resource);
      ip.Some? ==>
        && p.InRange(ip.value) && domain in p'.ips && p'.ips[domain] == ip.value
        && (if p.Holds(domain) then p' == p && ip.value == p.ips[domain]
            else ip.value !in p.names && p'.names[ip.value] == Named(domain, resource))
        && (forall d :: d != domain ==> (d in p'.ips <==> d in p.ips) && (d in p.ips ==> p'.ips[d] == p.ips[d]))
  {
    if !p.Holds(domain) { ForgetKeeps(p, domain); }
  }

  // Setting an address makes it stand for the name and the resource, unless the name has one of the range,
  // which then stands for the new resource instead; no other name of the range changes but the one that
  // had the address.
  lemma SetMeans<T>(p: Pool<T>, ip: Uint32, domain: string, resource: T)
    requires PoolInv(p)
    ensures var p', a := Set(p, ip, domain, resource), if p.Holds(domain) then p.ips[domain] else ip;
      && domain in p'.ips && p'.ips[domain] == a && a in p'.names && p'.names[a] == Named(domain, resource)
      && (forall d :: d != domain && d in p.ips ==>
            (d in p'.ips && p'.ips[d] == p.ips[d] && p'.names[p.ips[d]] == p.names[p.ips[d]]) || (p.ips[d] == a && d !in p'.ips))
      && p'.cursor == p.cursor
  {}

  // The pool of a network: from the second address behind its first up to the last but one, the network's
  // first address being the one with its host bits cleared.
  lemma PoolOfNetwork<T>(ip: Uint32, ones: nat)
    requires ones <= 32
    ensures NewPool<T>(None, ones) == NotIPv4 && (NewPool<T>(Some(ip), ones) == TooSmall <==> ones > 30)
    ensures ones <= 30 ==>
              var size := Power2(32 - ones);
              NewPool<T>(Some(ip), ones).Created?
              && var p := NewPool<T>(Some(ip), ones).pool;
                 p.minIP <= ip < p.minIP + size && p.minIP % size == 0 && p.maxIP == p.minIP + size - 2
                 && p.cursor == p.minIP + 2 && p.ips == map[] && p.names == map[]
  {
    if ones <= 30 {
      var size := Power2(32 - ones);
      RangeFits(ip, ones);
      DivMod(ip, size);
      assert ip - ip % size == ip / size * size;
      Remainder(ip / size, 0, size);
    }
  }

  // Exhaustion is reported exactly when every address of the range is mapped and the name has none of
  // them; the name has then lost the address outside the range that it may have had.
  lemma ExhaustedExactly<T>(p: Pool<T>, domain: string, resource: T)
    requires PoolInv(p)
    ensures var (p', ip) := Generate(p, domain, resource);
      && (ip.None? <==> !p.Holds(domain) && forall a: Uint32 :: p.InRange(a) ==> a in p.names)
      && (ip.None? ==> domain !in p'.ips && p'.names == (if domain in p.ips then p.names - {p.ips[domain]} else p.names))
  {
    if !p.Holds(domain) {
      var p1 := Forget(p, domain);
      var a := FirstFree(p1.names, p.cursor, p.maxIP);
      if a > p.maxIP {
        forall b: Uint32 | p.InRange(b) ensures b in p.names { assert b < p.cursor || b in p1.names; }
      } else {
        assert p.InRange(a) && a !in p.names;
      }
    }
  }

  datatype Op<T> = DoSet(ip: Uint32, domain: string, resource: T) | DoGenerate(domain: string, resource: T)

  function Step<T>(p: Pool<T>, op: Op<T>): Pool<T>
    requires CursorInRange(p)
  {
    match op
    case DoSet(ip, domain, resource) => Set(p, ip, domain, resource)
    case DoGenerate(domain, resource) => Generate(p, domain, resource).0
  }

  // The address `a` is given to another name that has no address of the range yet.
  predicate Reassigns<T>(p: Pool<T>, op: Op<T>, a: Uint32, domain: string) {
    op.DoSet? && op.ip == a && op.domain != domain && !p.Holds(op.domain)
  }

  // A name loses its address of the range exactly when the address is given to another name from outside.
  lemma AddressIsKept<T>(p: Pool<T>, op: Op<T>, domain: string)
    requires PoolInv(p) && p.Holds(domain)
    ensures var p' := Step(p, op);
      (domain in p'.ips && p'.ips[domain] == p.ips[domain]) <==> !Reassigns(p, op, p.ips[domain], domain)
  {}

  ghost predicate IsRun<T>(states: seq<Pool<T>>, ops: seq<Op<T>>) {
    && |states| == |ops| + 1
    && forall i {:trigger ops[i]} :: 0 <= i < |ops| ==> CursorInRange(states[i]) && states[i + 1] == Step(states[i], ops[i])
  }

  lemma StepKeeps<T>(p: Pool<T>, op: Op<T>)
    requires PoolInv(p)
    ensures PoolInv(Step(p, op)) && Advances(p, Step(p, op))
  {
    match op
    case DoSet(ip, domain, resource) => SetKeeps(p, ip, domain, resource);
    case DoGenerate(domain, resource) => GenerateKeeps(p, domain, resource);
  }

  lemma NewPoolOk<T>(ip: Option<Uint32>, ones: nat)
    requires ones <= 32 && NewPool<T>(ip, ones).Created?
    ensures PoolInv(NewPool<T>(ip, ones).pool)
  {}

  // In every run: the maps are inverse, the cursor stays within 32 bits, every address it passed is mapped,
  // and what was mapped in the range earlier still is.
  lemma {:induction false} RunKeeps<T>(states: seq<Pool<T>>, ops: seq<Op<T>>, i: nat, j: nat)
    requires IsRun(states, ops) && PoolInv(states[0]) && i <= j < |states|
    ensures PoolInv(states[i]) && PoolInv(states[j]) && Advances(states[i], states[j])
    decreases j
  {
    hide Step, Inverse, PassedMapped;
    if j > 0 {
      RunKeeps(states, ops, 0, j - 1);
      var op := ops[j - 1];
      StepKeeps(states[j - 1], op);
      if i < j { RunKeeps(states, ops, i, j - 1); }
    }
  }

  // As long as nothing reassigns it, a name keeps its address of the range.
  lemma {:induction false} AddressIsKeptInRun<T>(states: seq<Pool<T>>, ops: seq<Op<T>>, i: nat, j: nat, domain: string)
    requires IsRun(states, ops) && PoolInv(states[0]) && i <= j < |states| && states[i].Holds(domain)
    requires forall k :: i <= k < j ==> !Reassigns(states[k], ops[k], states[i].ips[domain], domain)
    ensures domain in states[j].ips && states[j].ips[domain] == states[i].ips[domain]
    decreases j - i
  {
    hide Step, Inverse, PassedMapped;
    if i < j {
      AddressIsKeptInRun(states, ops, i, j - 1, domain);
      RunKeeps(states, ops, i, j - 1);
      var op := ops[j - 1];
      AddressIsKept(states[j - 1], op, domain);
    }
  }

  // Two names are given the same address only if it was reassigned from outside in between.
  lemma NeverTwoNames<T>(states: seq<Pool<T>>, ops: seq<Op<T>>, i: nat, j: nat)
    requires IsRun(states, ops) && PoolInv(states[0]) && i < j < |ops|
    requires ops[i].DoGenerate? && ops[j].DoGenerate? && ops[i].domain != ops[j].domain
    requires var a := Generate(states[i], ops[i].domain, ops[i].resource).1;
      a.Some? && a == Generate(states[j], ops[j].domain, ops[j].resource).1
    ensures var a := Generate(states[i], ops[i].domain, ops[i].resource).1.value;
      exists k :: i < k < j && Reassigns(states[k], ops[k], a, ops[i].domain)
  {
    hide Inverse, PassedMapped, Generate;
    var a := Generate(states[i], ops[i].domain, ops[i].resource).1.value;
    RunKeeps(states, ops, i, j);
    RunKeeps(states, ops, i, i + 1);
    GeneratedIsOwnOrFree(states[i], ops[i].domain, ops[i].resource);
    GeneratedIsOwnOrFree(states[j], ops[j].domain, ops[j].resource);
    if forall k :: i < k < j ==> !Reassigns(states[k], ops[k], a, ops[i].domain) {
      AddressIsKeptInRun(states, ops, i + 1, j, ops[i].domain);
      BothHaveIt(states[j], ops[i].domain, ops[j].domain, a, ops[j].resource);
    }
  }

  lemma BothHaveIt<T>(p: Pool<T>, d: string, e: string, a: Uint32, resource: T)
    requires PoolInv(p) && d != e && d in p.ips && p.ips[d] == a
    ensures Generate(p, e, resource).1 != Some(a)
  {
    GeneratedIsOwnOrFree(p, e, resource);
  }

  // Reassigning really does it: one address, generated for two names in turn, in the pool of a network
  // of four addresses, which has just the one.
  lemma ReassignedTwice()
    ensures NewPool<int>(Some(0xc612_0000), 30).Created?
    ensures var p := NewPool<int>(Some(0xc612_0000), 30).pool;
      && CursorInRange(p)
      && var (p1, a) := Generate(p, "first", 0);
         var p2 := Set(p1, 0xc612_0002, "second", 0);
         && CursorInRange(p2)
         && a == Some(0xc612_0002) && Generate(p2, "second", 0).1 == a && Generate(p2, "first", 0).1 == None
  {
    var p := NewPool<int>(Some(0xc612_0000), 30).pool;
    assert p == Pool(map[], map[], 0xc612_0000, 0xc612_0002, 0xc612_0002);
    assert Generate(p, "first", 0).1 == Some(0xc612_0002);
    var p1 := Generate(p, "first", 0).0;
    assert p1.ips == map["first" := 0xc612_0002] && p1.cursor == 0xc612_0003;
    var p2 := Set(p1, 0xc612_0002, "second", 0);
    assert p2.ips == map["second" := 0xc612_0002] && p2.cursor == 0xc612_0003;
  }

  // ---- The pool's objects: both maps lead to the same entries.

  class Entry<T> {
    const ip: Uint32
    const domain: string
    var resource: T

    constructor (ip: Uint32, domain: string, resource: T)
      ensures this.ip == ip && this.domain == domain && this.resource == resource
    {
      this.ip, this.domain, this.resource := ip, domain, resource;
    }
  }

  ghost function IpsOf<T>(d: map<string, Entry<T>>): map<string, Uint32> {
    map k | k in d :: d[k].ip
  }

  ghost function NamesOf<T>(a: map<Uint32, Entry<T>>): map<Uint32, Named<T>>
    reads a.Values
  {
    map k | k in a :: Named(a[k].domain, a[k].resource)
  }

  // The two maps hold the same entries, each under its own name and address.
  ghost predicate Linked<T>(d: map<string, Entry<T>>, a: map<Uint32, Entry<T>>) {
    && (forall k :: k in d ==> d[k].domain == k && d[k].ip in a && a[d[k].ip] == d[k])
    && (forall k :: k in a ==> a[k].ip == k && a[k].domain in d && d[a[k].domain] == a[k])
  }

  lemma LinkedInsert<T>(d: map<string, Entry<T>>, a: map<Uint32, Entry<T>>, e: Entry<T>)
    requires Linked(d, a) && e.domain !in d && e.ip !in a
    ensures Linked(d[e.domain := e], a[e.ip := e])
    ensures IpsOf(d[e.domain := e]) == IpsOf(d)[e.domain := e.ip]
    ensures NamesOf(a[e.ip := e]) == NamesOf(a)[e.ip := Named(e.domain, e.resource)]
  {}

  lemma LinkedRemove<T>(d: map<string, Entry<T>>, a: map<Uint32, Entry<T>>, domain: string)
    requires Linked(d, a) && domain in d
    ensures Linked(d - {domain}, a - {d[domain].ip})
    ensures IpsOf(d - {domain}) == IpsOf(d) - {domain}
    ensures NamesOf(a - {d[domain].ip}) == NamesOf(a) - {d[domain].ip}
  {}

  class IPPool<T> {
    var domainToIP: map<string, Entry<T>>
    var ipToDomain: map<Uint32, Entry<T>>
    const minIP: Uint32
    const maxIP: Uint32
    var currentIP: Uint32

    ghost function View(): Pool<T>
      reads this, ipToDomain.Values
    {
      Pool(IpsOf(domainToIP), NamesOf(ipToDomain), minIP, maxIP, currentIP)
    }

    ghost predicate Valid()
      reads this
    {
      Linked(domainToIP, ipToDomain) && minIP + 2 <= currentIP <= maxIP + 1 && maxIP < 0xffff_ffff
    }

    constructor (ip: Uint32, ones: nat)
      requires ones <= 30
      ensures Valid() && Created(View()) == NewPool<T>(Some(ip), ones)
    {
      domainToIP, ipToDomain := map[], map[];
      minIP, maxIP, currentIP := FirstOf(ip, ones), LastOf(ip, ones), FirstOf(ip, ones) + 2;
    }

    method SetIPDomain(ip: seq<Byte>, domain: string, resource: T) returns (ok: bool)
      requires Valid()
      modifies this`domainToIP, this`ipToDomain, ipToDomain.Values
      ensures Valid() && ok == To4(ip).Some?
      ensures View() == if ok then Set(old(View()), BigEndian32(To4(ip).value), domain, resource) else old(View())
    {
      var ip4 := To4(ip);
      if ip4.None? { return false; }
      var ipUint := BigEndian32(ip4.value);
      if domain in domainToIP && minIP + 2 <= domainToIP[domain].ip <= maxIP {
        Update(domain, resource);
      } else {
        Move(ipUint, domain, resource);
      }
      return true;
    }

    method Update(domain: string, resource: T)
      requires Valid() && domain in domainToIP
      modifies ipToDomain.Values
      ensures Valid()
      ensures View() == old(View()).(names := old(View()).names[old(View()).ips[domain] := Named(domain, resource)])
    {
      assert domainToIP[domain] in ipToDomain.Values;
      domainToIP[domain].resource := resource;
    }

    // The name and the address are taken from whatever they belonged to.
    method Move(ipUint: Uint32, domain: string, resource: T)
      requires Valid() && !View().Holds(domain)
      modifies this`domainToIP, this`ipToDomain
      ensures Valid() && View() == Set(old(View()), ipUint, domain, resource)
    {
      hide Linked, Freed, IpsOf, NamesOf;
      ghost var p := View();
      Detach(ipUint, domain);
      Attach(ipUint, domain, resource);
    }

    // The old entries are out, except that the name's own entry is left to be overwritten.
    method Detach(ipUint: Uint32, domain: string)
      requires Valid()
      modifies this`domainToIP, this`ipToDomain
      ensures Linked(domainToIP - {domain}, ipToDomain) && ipUint !in ipToDomain
      ensures IpsOf(domainToIP - {domain}) == Freed(old(View()), ipUint, domain).ips
      ensures NamesOf(ipToDomain) == Freed(old(View()), ipUint, domain).names
    {
      ghost var p := View();
      DropReverse(domain);
      hide Linked, IpsOf, NamesOf;
      ghost var p1 := Forget(p, domain);
      FreedIs(p, ipUint, domain);
      NamesKeys(ipToDomain);
      TakeOver(ipUint, domain);
    }

    static lemma FreedIs(p: Pool<T>, ip: Uint32, domain: string)
      ensures var p1 := Forget(p, domain);
        && (ip !in p1.names ==> Freed(p, ip, domain) == p1)
        && (ip in p1.names && p1.names[ip].domain in p1.ips && p1.ips[p1.names[ip].domain] == ip ==>
              Freed(p, ip, domain) == p1.(ips := p1.ips - {p1.names[ip].domain}, names := p1.names - {ip}))
    {}

    method TakeOver(ipUint: Uint32, ghost domain: string)
      requires Linked(domainToIP - {domain}, ipToDomain)
      modifies this`domainToIP, this`ipToDomain
      ensures Linked(domainToIP - {domain}, ipToDomain) && ipUint !in ipToDomain
      ensures ipUint !in old(ipToDomain) ==> domainToIP == old(domainToIP) && ipToDomain == old(ipToDomain)
      ensures ipUint in old(ipToDomain) ==>
                var ips, names := old(IpsOf(domainToIP - {domain})), old(NamesOf(ipToDomain));
                && ipUint in names && names[ipUint].domain in ips && ips[names[ipUint].domain] == ipUint
                && IpsOf(domainToIP - {domain}) == ips - {names[ipUint].domain} && NamesOf(ipToDomain) == names - {ipUint}
    {
      if ipUint in ipToDomain {
        var previous := ipToDomain[ipUint];
        LinkedRemove(domainToIP - {domain}, ipToDomain, previous.domain);
        assert domainToIP - {domain} - {previous.domain} == domainToIP - {previous.domain} - {domain};
        if previous.domain in domainToIP && domainToIP[previous.domain] == previous {
          domainToIP := domainToIP - {previous.domain};
        }
        ipToDomain := ipToDomain - {ipUint};
      }
    }

    method Attach(ipUint: Uint32, domain: string, resource: T)
      requires Linked(domainToIP - {domain}, ipToDomain) && ipUint !in ipToDomain
      modifies this`domainToIP, this`ipToDomain
      ensures Linked(domainToIP, ipToDomain)
      ensures IpsOf(domainToIP) == old(IpsOf(domainToIP - {domain}))[domain := ipUint]
      ensures NamesOf(ipToDomain) == old(NamesOf(ipToDomain))[ipUint := Named(domain, resource)]
    {
      hide Linked, IpsOf, NamesOf;
      var newEntry := new Entry(ipUint, domain, resource);
      LinkedInsert(domainToIP - {domain}, ipToDomain, newEntry);
      assert (domainToIP - {domain})[domain := newEntry] == domainToIP[domain := newEntry];
      domainToIP := domainToIP[domain := newEntry];
      ipToDomain := ipToDomain[ipUint := newEntry];
    }

    method DropReverse(domain: string)
      requires Valid()
      modifies this`ipToDomain
      ensures Linked(domainToIP - {domain}, ipToDomain)
      ensures IpsOf(domainToIP - {domain}) == Forget(old(View()), domain).ips
      ensures NamesOf(ipToDomain) == Forget(old(View()), domain).names
    {
      if domain in domainToIP {
        var previous := domainToIP[domain];
        LinkedRemove(domainToIP, ipToDomain, domain);
        if previous.ip in ipToDomain && ipToDomain[previous.ip] == previous { ipToDomain := ipToDomain - {previous.ip}; }
      } else {
        assert domainToIP - {domain} == domainToIP;
      }
    }

    method GenerateIP(domain: string, resource: T) returns (ip: Option<Uint32>)
      requires Valid()
      modifies this`domainToIP, this`ipToDomain, this`currentIP
      ensures Valid() && CursorInRange(old(View())) && (View(), ip) == Generate(old(View()), domain, resource)
    {
      HoldsIs(domain);
      hide Linked, IpsOf, NamesOf;
      if domain in domainToIP {
        var existing := domainToIP[domain];
        if minIP + 2 <= existing.ip <= maxIP { return Some(existing.ip); }
        DropReverse(domain);
        domainToIP := domainToIP - {domain};
      }
      ip := Allocate(domain, resource);
    }

    lemma HoldsIs(domain: string)
      ensures domain in View().ips <==> domain in domainToIP
      ensures domain in domainToIP ==> View().ips[domain] == domainToIP[domain].ip
    {}

    // The loop over the cursor, for a name without an address.
    method Allocate(domain: string, resource: T) returns (ip: Option<Uint32>)
      requires Valid() && domain !in domainToIP
      modifies this`domainToIP, this`ipToDomain, this`currentIP
      ensures Valid() && CursorInRange(old(View())) && (View(), ip) == Generate(old(View()), domain, resource)
    {
      hide Linked, IpsOf, NamesOf;
      assert domainToIP - {domain} == domainToIP;
      ghost var p := View();
      assert forall k :: k in p.names <==> k in ipToDomain by { NamesKeys(ipToDomain); }
      assert domain !in p.ips && p.ips - {domain} == p.ips by { IpsKeys(domainToIP); }
      while currentIP <= maxIP
        invariant minIP + 2 <= currentIP <= maxIP + 1 && domainToIP == old(domainToIP) && ipToDomain == old(ipToDomain)
        invariant FirstFree(p.names, p.cursor, maxIP) == FirstFree(p.names, currentIP, maxIP)
        decreases maxIP + 1 - currentIP
      {
        var newIP := currentIP;
        currentIP := currentIP + 1;
        if newIP !in ipToDomain {
          Attach(newIP, domain, resource);
          return Some(newIP);
        }
      }
      return None;
    }

    static lemma NamesKeys(a: map<Uint32, Entry<T>>)
      ensures NamesOf(a).Keys == a.Keys
    {}

    static lemma IpsKeys(d: map<string, Entry<T>>)
      ensures IpsOf(d).Keys == d.Keys
    {}

    method GetDomain(ip: seq<Byte>) returns (found: Option<Named<T>>)
      requires Valid()
      ensures var a := To4(ip);
        found == if a.Some? && BigEndian32(a.value) in View().names then Some(View().names[BigEndian32(a.value)]) else None
    {
      var ip4 := To4(ip);
      if ip4.None? || BigEndian32(ip4.value) !in ipToDomain { return None; }
      var e := ipToDomain[BigEndian32(ip4.value)];
      return Some(Named(e.domain, e.resource));
    }
  }
}
