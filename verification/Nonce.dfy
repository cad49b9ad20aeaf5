// The nonce generator of the anti-MITM challenge: a multiplicative generator modulo the prime 2^31 - 1,
// whose few largest values are thrown away so that every byte is equally likely.
module Nonce {
  import opened Bytes

  const MODULUS := 2147483647
  const MULTIPLIER := 48271
  const INVERSE := 1899818559
  const REJECTION_BOUNDARY := 0x7FFFFF00

  function Next(state: nat): nat { MULTIPLIER * state % MODULUS }

  predicate InCycle(state: nat) { 1 <= state < MODULUS }

  // `value` is unsigned 64-bit, so zero minus one is the largest of them.
  function Value(state: nat): nat {
    if state == 0 then 0xFFFF_FFFF_FFFF_FFFF else state - 1
  }

  predicate Accepted(state: nat) { Value(state) < REJECTION_BOUNDARY }

  // The bytes drawn from a state, with the state left behind and the number of draws.
  function Draw(state: nat, size: nat): (seq<Byte>, nat, nat)
    requires InCycle(state)
    decreases size, if Accepted(Next(state)) then 0 else 1
  {
    StaysInCycle(state);
    RejectedOnce(state);
    var s := Next(state);
    if size == 0 then ([], state, 0)
    else if !Accepted(s) then
      var (rest, last, draws) := Draw(s, size);
      (rest, last, draws + 1)
    else
      var (rest, last, draws) := Draw(s, size - 1);
      ([Value(s) % 0x100] + rest, last, draws + 1)
  }

  lemma ModOfProduct(a: nat, b: nat)
    ensures a * (b % MODULUS) % MODULUS == a * b % MODULUS
  {
    var q := b / MODULUS;
    assert b == q * MODULUS + b % MODULUS;
    assert a * b == a * q * MODULUS + a * (b % MODULUS);
    ModPlusMultiple(a * (b % MODULUS), a * q, MODULUS);
  }

  // Multiplying by the inverse undoes a step.
  lemma StepIsInvertible(state: nat)
    requires state < MODULUS
    ensures INVERSE * Next(state) % MODULUS == state
  {
    ModOfProduct(INVERSE, MULTIPLIER * state);
    assert INVERSE * MULTIPLIER == 42704 * MODULUS + 1;
    assert INVERSE * (MULTIPLIER * state) == state + 42704 * state * MODULUS;
    ModPlusMultiple(state, 42704 * state, MODULUS);
  }

  // A state other than zero never becomes zero, and the product fits 64 bits.
  lemma StaysInCycle(state: nat)
    requires InCycle(state)
    ensures InCycle(Next(state)) && MULTIPLIER * state < 0x1_0000_0000_0000_0000
  {
    StepIsInvertible(state);
  }

  // Different states have different successors: the step permutes the cycle.
  lemma StepIsInjective(s: nat, t: nat)
    requires s < MODULUS && t < MODULUS && Next(s) == Next(t)
    ensures s == t
  {
    StepIsInvertible(s);
    StepIsInvertible(t);
  }

  // After a rejected draw the next one is accepted.
  lemma RejectedOnce(state: nat)
    requires InCycle(state)
    ensures !Accepted(Next(state)) ==> Accepted(Next(Next(state)))
  {
    StaysInCycle(state);
    if !Accepted(Next(state)) { AfterRejection(Next(state)); }
  }

  lemma AfterRejection(state: nat)
    requires InCycle(state) && !Accepted(state)
    ensures Accepted(Next(state))
  {
    var k := MODULUS - state;
    assert 1 <= k <= 254;
    assert MULTIPLIER * state == (MODULUS - MULTIPLIER * k) + (MULTIPLIER - 1) * MODULUS;
    ModPlusMultiple(MODULUS - MULTIPLIER * k, MULTIPLIER - 1, MODULUS);
  }

  // Exactly as many bytes as asked for, from between one and two draws each, and the cycle is never left.
  lemma {:induction false} DrawsAreBounded(state: nat, size: nat)
    requires InCycle(state)
    ensures var (bytes, last, draws) := Draw(state, size);
      |bytes| == size && size <= draws <= 2 * size && InCycle(last)
      && (!Accepted(Next(state)) || size == 0 || draws <= 2 * size - 1)
    decreases size, if Accepted(Next(state)) then 0 else 1
  {
    if size > 0 {
      StaysInCycle(state);
      RejectedOnce(state);
      hide Next;
      if Accepted(Next(state)) { DrawsAreBounded(Next(state), size - 1); } else { DrawsAreBounded(Next(state), size); }
    }
  }

  // One draw.
  lemma DrawUnfolds(state: nat, size: nat)
    requires InCycle(state)
    ensures InCycle(Next(state)) && Draw(state, 0) == ([], state, 0)
    ensures size > 0 ==>
              var s := Next(state);
              var (rest, last, draws) := Draw(s, if Accepted(s) then size - 1 else size);
              Draw(state, size) == (if Accepted(s) then [Value(s) % 0x100] + rest else rest, last, draws + 1)
  {
    StaysInCycle(state);
  }

  function Power(n: nat): nat { if n == 0 then 1 else MULTIPLIER * Power(n - 1) }

  // The state after `n` draws, at once.
  function StateAfter(state: nat, n: nat): nat { Power(n) * state % MODULUS }

  // What the first `n` draws give: the low byte of every value below the boundary, in order.
  function LowBytes(state: nat, n: nat): seq<Byte> {
    if n == 0 then []
    else
      var value := StateAfter(state, n) - 1;
      LowBytes(state, n - 1) + if 0 <= value < REJECTION_BOUNDARY then [value % 0x100] else []
  }

  lemma OneMore(state: nat, n: nat)
    ensures StateAfter(state, n + 1) == StateAfter(Next(state), n)
  {
    ModOfProduct(Power(n), MULTIPLIER * state);
    assert Power(n) * (MULTIPLIER * state) == Power(n + 1) * state;
  }

  lemma {:induction false} OneFirst(state: nat, n: nat)
    requires InCycle(state)
    ensures var s := Next(state);
      LowBytes(state, n + 1) == (if Accepted(s) then [Value(s) % 0x100] else []) + LowBytes(s, n)
  {
    OneMore(state, n);
    StaysInCycle(state);
    if n == 0 {
      assert StateAfter(Next(state), 0) == Next(state);
      assert LowBytes(state, 0) == LowBytes(Next(state), 0) == [];
    } else {
      OneFirst(state, n - 1);
    }
  }

  // The bytes are those of the accepted values of the multiplicative sequence, none left out and in its
  // order, and drawing stops at the last one that is needed.
  lemma {:induction false} DrawsFollowTheSequence(state: nat, size: nat)
    requires InCycle(state)
    ensures var (bytes, last, draws) := Draw(state, size);
      && bytes == LowBytes(state, draws) && last == StateAfter(state, draws)
      && (size > 0 ==> draws > 0 && 1 <= last <= REJECTION_BOUNDARY)
    decreases size, if Accepted(Next(state)) then 0 else 1
  {
    StaysInCycle(state);
    RejectedOnce(state);
    DrawUnfolds(state, size);
    hide Next, Draw, LowBytes, StateAfter;
    if size == 0 {
      NoDraws(state);
    } else {
      var s := Next(state);
      var left := if Accepted(s) then size - 1 else size;
      DrawsFollowTheSequence(s, left);
      OneFirst(state, Draw(s, left).2);
      OneMore(state, Draw(s, left).2);
      NoDraws(s);
      DrawUnfolds(s, 0);
    }
  }

  lemma NoDraws(state: nat)
    requires InCycle(state)
    ensures LowBytes(state, 0) == [] && StateAfter(state, 0) == state
  {}

  // The one state that would never end is never reached: its successor is itself, and it is rejected.
  lemma ZeroWouldNotEnd()
    ensures Next(0) == 0 && !Accepted(0) && !InCycle(0)
  {}

  // ---- Every byte is equally likely over the cycle.

  // The states whose value is below 256 * n and gives the byte `b`.
  ghost function StatesFor(b: Byte, n: nat): set<nat> {
    set s: nat | 1 <= s <= 0x100 * n && Value(s) % 0x100 == b
  }

  lemma {:induction false} OneStateInEach(b: Byte, n: nat)
    ensures |StatesFor(b, n)| == n
  {
    if n == 0 {
      assert StatesFor(b, 0) == {};
    } else {
      OneStateInEach(b, n - 1);
      NextStateFor(b, n);
    }
  }

  lemma NextStateFor(b: Byte, n: nat)
    requires n > 0
    ensures var last: nat := 0x100 * (n - 1) + b + 1; StatesFor(b, n) == StatesFor(b, n - 1) + {last} && last !in StatesFor(b, n - 1)
  {
    var last: nat := 0x100 * (n - 1) + b + 1;
    assert Value(last) % 0x100 == b;
    forall s | s in StatesFor(b, n) && s !in StatesFor(b, n - 1) ensures s == last {
      var k := Value(s) - 0x100 * (n - 1);
      assert 0 <= k < 0x100 && Value(s) % 0x100 == k;
    }
  }

  // The state that every state of the cycle comes from.
  lemma HasPredecessor(t: nat) returns (s: nat)
    requires InCycle(t)
    ensures InCycle(s) && Next(s) == t
  {
    s := INVERSE * t % MODULUS;
    ModOfProduct(MULTIPLIER, INVERSE * t);
    assert MULTIPLIER * INVERSE == 42704 * MODULUS + 1;
    assert MULTIPLIER * (INVERSE * t) == t + 42704 * t * MODULUS;
    ModPlusMultiple(t, 42704 * t, MODULUS);
    assert Next(0) == 0;
  }

  // Two sets between which the step goes back and forth are of the same size.
  lemma {:induction false} SameSize(a: set<nat>, b: set<nat>)
    requires forall s :: s in a ==> s < MODULUS && Next(s) in b
    requires forall t :: t in b ==> exists s :: s in a && Next(s) == t
    ensures |a| == |b|
    decreases a
  {
    hide Next;
    if a != {} {
      var s :| s in a;
      forall r | r in a - {s} ensures Next(r) in b - {Next(s)} {
        if Next(r) == Next(s) { StepIsInjective(r, s); }
      }
      SameSize(a - {s}, b - {Next(s)});
    }
  }

  // The states of the cycle from which the next draw is the byte `b`.
  ghost function Drawing(b: Byte): set<nat> {
    set s: nat | 1 <= s < MODULUS && Accepted(Next(s)) && Value(Next(s)) % 0x100 == b
  }

  // The same number of states draw each byte: the step permutes the cycle, and the boundary is a multiple
  // of 256.
  lemma BytesAreUniform(b: Byte)
    ensures |Drawing(b)| == REJECTION_BOUNDARY / 0x100
  {
    hide Next;
    var drawn := StatesFor(b, REJECTION_BOUNDARY / 0x100);
    OneStateInEach(b, REJECTION_BOUNDARY / 0x100);
    forall s | s in Drawing(b) ensures Next(s) in drawn { StaysInCycle(s); }
    forall t | t in drawn ensures exists s :: s in Drawing(b) && Next(s) == t {
      var s := HasPredecessor(t);
      assert s in Drawing(b);
    }
    SameSize(Drawing(b), drawn);
  }

  // ---- The generator.

  function Seed(unixSeconds: int): (s: nat)
    ensures InCycle(s)
    ensures 0 <= unixSeconds < 0x1_0000_0000_0000_0000 && unixSeconds % MODULUS != 0 ==> s == unixSeconds % MODULUS
  {
    var s := unixSeconds % 0x1_0000_0000_0000_0000 % MODULUS;
    if s == 0 then 1 else s
  }

  const DIGITS := "0123456789ABCDEF"

  // hex.EncodeToString in upper case.
  function Hex(bytes: seq<Byte>): string {
    if bytes == [] then [] else [DIGITS[bytes[0] / 16], DIGITS[bytes[0] % 16]] + Hex(bytes[1..])
  }

  // Two digits a byte, from which the bytes can be read again.
  lemma {:induction false} HexIsReadable(bytes: seq<Byte>)
    ensures |Hex(bytes)| == 2 * |bytes|
    ensures forall i :: 0 <= i < |bytes| ==>
              Hex(bytes)[2 * i] == DIGITS[bytes[i] / 16] && Hex(bytes)[2 * i + 1] == DIGITS[bytes[i] % 16]
  {
    if bytes != [] {
      HexIsReadable(bytes[1..]);
      forall i | 0 < i < |bytes|
        ensures Hex(bytes)[2 * i] == DIGITS[bytes[i] / 16] && Hex(bytes)[2 * i + 1] == DIGITS[bytes[i] % 16]
      {
        assert bytes[i] == bytes[1..][i - 1] && 2 * i - 2 == 2 * (i - 1);
      }
    }
  }

  class Generator {
    var state: nat

    constructor ()
      ensures state == 0
    {
      state := 0;
    }

    // sangforNonce: the first call takes the clock for a seed.
    method SangforNonce(unixSeconds: int) returns (nonce: string)
      requires state == 0 || InCycle(state)
      modifies this
      ensures InCycle(state) && |nonce| == 64
      ensures var (bytes, last, _) := Draw(if old(state) == 0 then Seed(unixSeconds) else old(state), 32);
        nonce == Hex(bytes) && state == last
    {
      if state == 0 {
        state := unixSeconds % 0x1_0000_0000_0000_0000 % MODULUS;
        if state == 0 { state := 1; }
      }
      var bytes := SangforNonceBytes(32);
      HexIsReadable(bytes);
      nonce := Hex(bytes);
    }

    method SangforNonceBytes(size: nat) returns (nonce: seq<Byte>)
      requires InCycle(state)
      modifies this
      ensures InCycle(state) && |nonce| == size
      ensures (nonce, state) == (Draw(old(state), size).0, Draw(old(state), size).1)
    {
      hide Next, Draw;
      nonce := [];
      DrawUnfolds(state, size);
      while |nonce| < size
        invariant |nonce| <= size && InCycle(state)
        invariant nonce + Draw(state, size - |nonce|).0 == Draw(old(state), size).0
        invariant Draw(state, size - |nonce|).1 == Draw(old(state), size).1
        decreases size - |nonce|, if Accepted(Next(state)) then 0 else 1
      {
        DrawUnfolds(state, size - |nonce|);
        RejectedOnce(state);
        state := Step(state);
        var value := Value(state);
        if value >= REJECTION_BOUNDARY { continue; }
        nonce := nonce + [value % 0x100];
      }
      DrawUnfolds(state, 0);
      assert nonce + [] == nonce;
    }

    // The multiplication is on 64 bits, where it does not overflow.
    method Step(s: nat) returns (s': nat)
      requires InCycle(s)
      ensures s' == Next(s)
    {
      StaysInCycle(s);
      s' := MULTIPLIER * s % 0x1_0000_0000_0000_0000 % MODULUS;
    }
  }
}
