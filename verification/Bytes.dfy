// Octets, big-endian fields and IPv4 addresses as the Go standard library reads them.
module Bytes {

  datatype Option<+T> = None | Some(value: T)

  type Byte = b: int | 0 <= b < 0x100
  type Uint16 = n: int | 0 <= n < 0x1_0000
  type Uint32 = n: int | 0 <= n < 0x1_0000_0000

  function BigEndian16(hi: Byte, lo: Byte): Uint16 {
    hi * 0x100 + lo
  }

  function BigEndian32(b: seq<Byte>): Uint32
    requires |b| == 4
  {
    b[0] as int * 0x100_0000 + b[1] as int * 0x1_0000 + b[2] as int * 0x100 + b[3] as int
  }

  function High(n: Uint16): Byte { n / 0x100 }

  function Low(n: Uint16): Byte { n % 0x100 }

  // net.IP.To4: a four-byte address, or the last four bytes of an IPv4-mapped one.
  function To4(ip: seq<Byte>): Option<seq<Byte>> {
    if |ip| == 4 then Some(ip)
    else if |ip| == 16 && (forall i :: 0 <= i < 10 ==> ip[i] == 0) && ip[10] == 0xff && ip[11] == 0xff then
      Some(ip[12..16])
    else None
  }

  // The address found is the octets themselves, or what stands behind the prefix of an IPv4-mapped address,
  // ten zero octets and two of ones (section 2.5.5.2 of RFC 4291).
  lemma WhatIsIPv4(ip: seq<Byte>, address: seq<Byte>)
    ensures To4(ip) == Some(address) <==>
              |address| == 4 && (ip == address || ip == [0, 0, 0, 0, 0, 0, 0, 0, 0, 0, 0xff, 0xff] + address)
  {
    var prefix: seq<Byte> := [0, 0, 0, 0, 0, 0, 0, 0, 0, 0, 0xff, 0xff];
    if To4(ip) == Some(address) && |ip| == 16 { assert ip == prefix + address; }
    if |address| == 4 && ip == prefix + address {
      assert ip[12..16] == address;
      assert forall i :: 0 <= i < 12 ==> ip[i] == prefix[i];
      assert ip[10] == prefix[10] && ip[11] == prefix[11];
    }
  }

  // The first octet in which two addresses differ is the smaller one in `a`.
  predicate Precedes(a: seq<Byte>, b: seq<Byte>)
    requires |a| == 4 && |b| == 4
  {
    exists i :: 0 <= i < 4 && a[..i] == b[..i] && a[i] < b[i]
  }

  // As numbers, addresses are ordered as their octets are, the first difference deciding.
  lemma AddressOrder(a: seq<Byte>, b: seq<Byte>)
    requires |a| == 4 && |b| == 4
    ensures BigEndian32(a) < BigEndian32(b) <==> Precedes(a, b)
  {}

  // Whole moduli more or less make no difference.
  lemma ModPlusMultiple(x: nat, k: nat, modulus: nat)
    requires modulus > 0
    ensures (x + k * modulus) % modulus == x % modulus
  {
    var q, r := x / modulus, x % modulus;
    assert x + k * modulus == (q + k) * modulus + r;
    Remainder(q + k, r, modulus);
  }

  lemma Remainder(q: nat, r: nat, modulus: nat)
    requires r < modulus
    ensures (q * modulus + r) % modulus == r
  {
    var n := q * modulus + r;
    var d: int := n / modulus - q;
    assert d * modulus == r - n % modulus;
    assert d >= 1 ==> d * modulus >= modulus;
    assert d <= -1 ==> d * modulus + modulus <= 0;
  }

  // Addition modulo 2^32, as on Go's uint32.
  function Add32(a: Uint32, b: int): Uint32 {
    (a + b) % 0x1_0000_0000
  }
}
