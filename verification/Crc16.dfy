/** Iteration and folding over an additive state; nothing here depends on what the state is. */
module Folding {

  function Iterate<T>(f: T -> T, n: nat, x: T): T {
    if n == 0 then x else f(Iterate(f, n - 1, x))
  }

  function Fold<T, B>(step: (T, B) -> T, x: T, data: seq<B>): T {
    if data == [] then x else step(Fold(step, x, data[..|data| - 1]), data[|data| - 1])
  }

  lemma {:induction false} FoldConcat<T, B>(step: (T, B) -> T, x: T, data: seq<B>, more: seq<B>)
    ensures Fold(step, x, data + more) == Fold(step, Fold(step, x, data), more)
    decreases |more|
  {
    if more == [] {
      assert data + more == data;
    } else {
      var n := |more| - 1;
      assert (data + more)[..|data| + n] == data + more[..n];
      FoldConcat(step, x, data, more[..n]);
    }
  }

  lemma FoldTwo<T, B>(step: (T, B) -> T, x: T, b: B, c: B)
    ensures Fold(step, x, [b]) == step(x, b)
    ensures Fold(step, x, [b, c]) == step(step(x, b), c)
  {
    assert [b, c][..1] == [b] && [b][..0] == [];
  }

  lemma {:induction false} IterateAdditive<T(!new)>(f: T -> T, add: (T, T) -> T, n: nat, x: T, y: T)
    requires forall a, b {:trigger f(add(a, b))} :: f(add(a, b)) == add(f(a), f(b))
    ensures Iterate(f, n, add(x, y)) == add(Iterate(f, n, x), Iterate(f, n, y))
  {
    if n == 0 {
    } else {
      IterateAdditive(f, add, n - 1, x, y);
    }
  }

  lemma {:induction false} FoldAdditive<T(!new), B(!new)>(step: (T, B) -> T, add: (T, T) -> T, addB: (B, B) -> B, x: T,
                                          y: T, data: seq<B>, error: seq<B>, both: seq<B>)
    requires |data| == |error| == |both| && forall i :: 0 <= i < |data| ==> both[i] == addB(data[i], error[i])
    requires forall a, b, c, d {:trigger step(add(a, b), addB(c, d))} ::
             step(add(a, b), addB(c, d)) == add(step(a, c), step(b, d))
    ensures Fold(step, add(x, y), both) == add(Fold(step, x, data), Fold(step, y, error))
    decreases |data|
  {
    if data == [] {
    } else {
      var n := |data| - 1;
      FoldAdditive(step, add, addB, x, y, data[..n], error[..n], both[..n]);
    }
  }

  /** Absorbing only zeros keeps a state zero, and keeps it non-zero. */
  lemma {:induction false} FoldZeros<T(!new), B>(step: (T, B) -> T, zero: T, zeroB: B, x: T, data: seq<B>)
    requires forall a {:trigger step(a, zeroB)} :: step(a, zeroB) == zero <==> a == zero
    requires forall i :: 0 <= i < |data| ==> data[i] == zeroB
    ensures Fold(step, x, data) == zero <==> x == zero
    decreases |data|
  {
    if data == [] {
    } else {
      var n := |data| - 1;
      FoldZeros(step, zero, zeroB, x, data[..n]);
      assert data[n] == zeroB;
    }
  }

  /** If no two items in a row cancel, a sequence that is zero but for two adjacent items never folds to zero. */
  lemma FoldBurst<T(!new), B(!new)>(step: (T, B) -> T, zero: T, zeroB: B, data: seq<B>, k: nat)
    requires forall a {:trigger step(a, zeroB)} :: step(a, zeroB) == zero <==> a == zero
    requires forall b, c :: step(step(zero, b), c) == zero <==> b == zeroB && c == zeroB
    requires k < |data| && forall i :: 0 <= i < |data| && i != k && i != k + 1 ==> data[i] == zeroB
    ensures Fold(step, zero, data) == zero <==> forall i :: 0 <= i < |data| ==> data[i] == zeroB
  {
    var head := data[..k];
    FoldZeros(step, zero, zeroB, zero, head);
    if k + 1 < |data| {
      var burst, tail := [data[k], data[k + 1]], data[k + 2..];
      assert data == head + burst + tail;
      FoldConcat(step, zero, head + burst, tail);
      FoldConcat(step, zero, head, burst);
      FoldTwo(step, zero, data[k], data[k + 1]);
      FoldZeros(step, zero, zeroB, Fold(step, zero, burst), tail);
    } else {
      assert data == head + [data[k]];
      FoldConcat(step, zero, head, [data[k]]);
      FoldTwo(step, zero, data[k], zeroB);
      assert step(step(zero, data[k]), zeroB) == zero <==> data[k] == zeroB;
    }
  }
}

/** The CRC stored in the tag layout. The service runs the loop on a 32-bit register that is masked only at the end;
    the reference is the 16-bit register of CRC-16/CCITT-FALSE. */
module Crc16 {
  import opened Folding

  type Byte = bv8

  // ----- the reference register -----

  function Shift(r: bv16): bv16 {
    if r & 0x8000 != 0 then (r << 1) ^ 0x1021 else r << 1
  }

  function Shift8(r: bv16): bv16 {
    Iterate(Shift, 8, r)
  }

  function Absorb(r: bv16, b: Byte): bv16 {
    Shift8(r ^ ((b as bv16) << 8))
  }

  function Register(r: bv16, data: seq<Byte>): bv16 {
    Fold(Absorb, r, data)
  }

  function Crc(data: seq<Byte>): bv16 {
    Register(0xFFFF, data)
  }

  // ----- the service's register -----

  function Low(c: bv32): bv16 {
    (c & 0xFFFF) as bv16
  }

  lemma LowOfShift(c: bv32)
    ensures Low(c << 1) == Low(c) << 1
    ensures c & 0x8000 != 0 <==> Low(c) & 0x8000 != 0
  {
  }

  lemma LowOfXor(c: bv32, d: bv32)
    ensures Low(c ^ d) == Low(c) ^ Low(d)
  {
  }

  /** One turn of the inner loop on the unmasked register is one shift of the 16-bit register. */
  lemma WideShiftIsShift(c: bv32)
    ensures Low(if c & 0x8000 != 0 then (c << 1) ^ 0x1021 else c << 1) == Shift(Low(c))
  {
    LowOfShift(c);
    if c & 0x8000 != 0 {
      LowOfXor(c << 1, 0x1021);
    }
  }

  lemma LowOfByte(b: Byte)
    ensures Low((b as bv32) << 8) == (b as bv16) << 8
  {
  }

  lemma RegisterStep(data: seq<Byte>, k: nat)
    requires k < |data|
    ensures Register(0xFFFF, data[..k + 1]) == Iterate(Shift, 8, Register(0xFFFF, data[..k]) ^ ((data[k] as bv16) << 8))
  {
    assert data[..k + 1][..k] == data[..k];
  }

  /** `crc16`: for every byte sequence the 32-bit loop yields the 16-bit CRC. */
  method ComputeCrc16(data: seq<Byte>) returns (r: bv32)
    ensures r <= 0xFFFF
    ensures r as bv16 == Crc(data)
  {
    var crc: bv32 := 0xFFFF;
    for k := 0 to |data|
      invariant Low(crc) == Register(0xFFFF, data[..k])
    {
      RegisterStep(data, k);
      LowOfXor(crc, (data[k] as bv32) << 8);
      LowOfByte(data[k]);
      crc := crc ^ ((data[k] as bv32) << 8);
      ghost var r0 := Low(crc);
      for i := 0 to 8
        invariant Low(crc) == Iterate(Shift, i, r0)
      {
        WideShiftIsShift(crc);
        crc := if crc & 0x8000 != 0 then (crc << 1) ^ 0x1021 else crc << 1;
      }
    }
    assert data[..|data|] == data;
    r := crc & 0xFFFF;
  }

  // ----- the check value -----

  lemma EightShifts(r: bv16)
    ensures Shift8(r) == Shift(Shift(Shift(Shift(Shift(Shift(Shift(Shift(r))))))))
  {
    assert Iterate(Shift, 4, r) == Shift(Shift(Shift(Shift(r))));
    assert Iterate(Shift, 6, r) == Shift(Shift(Iterate(Shift, 4, r)));
    assert Iterate(Shift, 8, r) == Shift(Shift(Iterate(Shift, 6, r)));
  }

  lemma FirstDigits()
    ensures Absorb(0xFFFF, 0x31) == 0xC782 && Absorb(0xC782, 0x32) == 0x3DBA && Absorb(0x3DBA, 0x33) == 0x5BCE
    ensures Absorb(0x5BCE, 0x34) == 0x5349 && Absorb(0x5349, 0x35) == 0x4560
  {
    EightShifts(0xFFFF ^ 0x3100);
    EightShifts(0xC782 ^ 0x3200);
    EightShifts(0x3DBA ^ 0x3300);
    EightShifts(0x5BCE ^ 0x3400);
    EightShifts(0x5349 ^ 0x3500);
  }

  lemma LastDigits()
    ensures Absorb(0x4560, 0x36) == 0x2EF4 && Absorb(0x2EF4, 0x37) == 0x7718
    ensures Absorb(0x7718, 0x38) == 0xA12B && Absorb(0xA12B, 0x39) == 0x29B1
  {
    EightShifts(0x4560 ^ 0x3600);
    EightShifts(0x2EF4 ^ 0x3700);
    EightShifts(0x7718 ^ 0x3800);
    EightShifts(0xA12B ^ 0x3900);
  }

  /** The register after the k-th byte, given what each byte turns it into. */
  lemma {:induction false} RegisterFollows(data: seq<Byte>, trace: seq<bv16>)
    requires |trace| == |data| + 1 && trace[0] == 0xFFFF
    requires forall i :: 0 <= i < |data| ==> Absorb(trace[i], data[i]) == trace[i + 1]
    ensures Crc(data) == trace[|data|]
  {
    if data == [] {
    } else {
      RegisterFollows(data[..|data| - 1], trace[..|data|]);
    }
  }

  /** The check value of CRC-16/CCITT-FALSE: the digits one to nine give 0x29B1. */
  lemma CheckValue()
    ensures Crc([0x31, 0x32, 0x33, 0x34, 0x35, 0x36, 0x37, 0x38, 0x39]) == 0x29B1
  {
    FirstDigits();
    LastDigits();
    RegisterFollows([0x31, 0x32, 0x33, 0x34, 0x35, 0x36, 0x37, 0x38, 0x39],
                    [0xFFFF, 0xC782, 0x3DBA, 0x5BCE, 0x5349, 0x4560, 0x2EF4, 0x7718, 0xA12B, 0x29B1]);
  }

  // ----- algebra of the register -----

  function Xor16(a: bv16, b: bv16): bv16 {
    a ^ b
  }

  function Xor8(a: Byte, b: Byte): Byte {
    a ^ b
  }

  lemma TopBitOfXor(a: bv16, b: bv16)
    ensures (a ^ b) & 0x8000 != 0 <==> ((a & 0x8000 != 0) != (b & 0x8000 != 0))
  {
  }

  lemma ShiftedXor(a: bv16, b: bv16)
    ensures (a ^ b) << 1 == (a << 1) ^ (b << 1)
    ensures ((a ^ b) << 1) ^ 0x1021 == ((a << 1) ^ 0x1021) ^ (b << 1)
    ensures (a ^ b) << 1 == ((a << 1) ^ 0x1021) ^ ((b << 1) ^ 0x1021)
  {
  }

  lemma ShiftAdditiveTopClear(a: bv16, b: bv16)
    requires a & 0x8000 == 0 && b & 0x8000 == 0
    ensures Shift(a ^ b) == Shift(a) ^ Shift(b)
  {
    TopBitOfXor(a, b);
    ShiftedXor(a, b);
  }

  lemma ShiftAdditiveTopMixed(a: bv16, b: bv16)
    requires a & 0x8000 != 0 && b & 0x8000 == 0
    ensures Shift(a ^ b) == Shift(a) ^ Shift(b)
  {
    TopBitOfXor(a, b);
    ShiftedXor(a, b);
  }

  lemma ShiftAdditiveTopSet(a: bv16, b: bv16)
    requires a & 0x8000 != 0 && b & 0x8000 != 0
    ensures Shift(a ^ b) == Shift(a) ^ Shift(b)
  {
    TopBitOfXor(a, b);
    ShiftedXor(a, b);
  }

  lemma {:induction false} ShiftAdditive(a: bv16, b: bv16)
    ensures Shift(Xor16(a, b)) == Xor16(Shift(a), Shift(b))
  {
    if a & 0x8000 != 0 {
      if b & 0x8000 != 0 {
        ShiftAdditiveTopSet(a, b);
      } else {
        ShiftAdditiveTopMixed(a, b);
      }
    } else {
      if b & 0x8000 != 0 {
        assert a ^ b == b ^ a;
        ShiftAdditiveTopMixed(b, a);
      } else {
        ShiftAdditiveTopClear(a, b);
      }
    }
  }

  lemma {:induction false} Shift8Additive(a: bv16, b: bv16)
    ensures Shift8(Xor16(a, b)) == Xor16(Shift8(a), Shift8(b))
  {
    forall x, y ensures Shift(Xor16(x, y)) == Xor16(Shift(x), Shift(y)) {
      ShiftAdditive(x, y);
    }
    IterateAdditive(Shift, Xor16, 8, a, b);
  }

  lemma ShiftZero(a: bv16)
    ensures Shift(a) == 0 <==> a == 0
  {
  }

  /** Eight shifts lose nothing: only the zero register becomes zero. */
  lemma Shift8Zero(a: bv16)
    ensures Shift8(a) == 0 <==> a == 0
  {
    ShiftZero(a);
    ShiftZero(Iterate(Shift, 1, a));
    ShiftZero(Iterate(Shift, 2, a));
    ShiftZero(Iterate(Shift, 3, a));
    ShiftZero(Iterate(Shift, 4, a));
    ShiftZero(Iterate(Shift, 5, a));
    ShiftZero(Iterate(Shift, 6, a));
    ShiftZero(Iterate(Shift, 7, a));
  }

  lemma TopClearAfter(a: bv16)
    requires a <= 0xFF
    ensures Shift(a) == a << 1 && Shift(a << 1) == a << 2 && Shift(a << 2) == a << 3 && Shift(a << 3) == a << 4
    ensures Shift(a << 4) == a << 5 && Shift(a << 5) == a << 6 && Shift(a << 6) == a << 7 && Shift(a << 7) == a << 8
  {
  }

  /** A register whose upper byte is clear only moves up. */
  lemma Shift8OfLowByte(a: bv16)
    requires a <= 0xFF
    ensures Shift8(a) == a << 8
  {
    TopClearAfter(a);
    assert Iterate(Shift, 1, a) == a << 1;
    assert Iterate(Shift, 2, a) == a << 2;
    assert Iterate(Shift, 3, a) == a << 3;
    assert Iterate(Shift, 4, a) == a << 4;
    assert Iterate(Shift, 5, a) == a << 5;
    assert Iterate(Shift, 6, a) == a << 6;
    assert Iterate(Shift, 7, a) == a << 7;
  }

  lemma RaisedXor(r: bv16, s: bv16, b: Byte, c: Byte)
    ensures (r ^ s) ^ (((b ^ c) as bv16) << 8) == (r ^ ((b as bv16) << 8)) ^ (s ^ ((c as bv16) << 8))
  {
  }

  lemma {:induction false} AbsorbAdditive(r: bv16, s: bv16, b: Byte, c: Byte)
    ensures Absorb(Xor16(r, s), Xor8(b, c)) == Xor16(Absorb(r, b), Absorb(s, c))
  {
    RaisedXor(r, s, b, c);
    Shift8Additive(r ^ ((b as bv16) << 8), s ^ ((c as bv16) << 8));
  }

  lemma AbsorbZero(r: bv16)
    ensures Absorb(r, 0) == 0 <==> r == 0
  {
    assert r ^ ((0 as bv16) << 8) == r;
    Shift8Zero(r);
  }

  // ----- the stored CRC -----

  function HighByte(r: bv16): Byte {
    (r >> 8) as Byte
  }

  function LowByte(r: bv16): Byte {
    (r & 0xFF) as Byte
  }

  /** `writeUInt16BE`: the CRC directly after the data it covers, high byte first. */
  function Sealed(data: seq<Byte>): seq<Byte> {
    data + [HighByte(Crc(data)), LowByte(Crc(data))]
  }

  lemma BytesOfRegister(r: bv16)
    ensures r ^ ((HighByte(r) as bv16) << 8) == r & 0xFF
    ensures ((r & 0xFF) << 8) ^ ((LowByte(r) as bv16) << 8) == 0
  {
  }

  lemma AbsorbingItselfClears(r: bv16)
    ensures Absorb(Absorb(r, HighByte(r)), LowByte(r)) == 0
  {
    BytesOfRegister(r);
    Shift8OfLowByte(r & 0xFF);
    assert Absorb(r, HighByte(r)) == (r & 0xFF) << 8;
    Shift8Zero(0);
  }

  /** For data of any length, the CRC over the data followed by its own CRC is zero. */
  lemma SealedBlockChecks(data: seq<Byte>)
    ensures Crc(Sealed(data)) == 0
  {
    var r := Crc(data);
    FoldConcat(Absorb, 0xFFFF, data, [HighByte(r), LowByte(r)]);
    FoldTwo(Absorb, r, HighByte(r), LowByte(r));
    AbsorbingItselfClears(r);
  }

  // ----- error detection -----

  lemma UpperLowerDisjoint(b: Byte, c: Byte)
    ensures ((b as bv16) << 8) ^ (c as bv16) == 0 <==> b == 0 && c == 0
    ensures c as bv16 <= 0xFF
    ensures (0 as bv16) ^ ((b as bv16) << 8) == (b as bv16) << 8
  {
  }

  lemma AbsorbFromZero(b: Byte)
    ensures Absorb(0, b) == Shift8((b as bv16) << 8)
  {
    UpperLowerDisjoint(b, b);
  }

  lemma AbsorbAsShift(x: bv16, c: Byte)
    ensures Absorb(x, c) == Shift8(Xor16(x, Shift8(c as bv16)))
  {
    UpperLowerDisjoint(c, c);
    Shift8OfLowByte(c as bv16);
  }

  lemma {:induction false} AbsorbTwo(b: Byte, c: Byte)
    ensures Absorb(Absorb(0, b), c) == Shift8(Shift8(Xor16((b as bv16) << 8, c as bv16)))
  {
    AbsorbFromZero(b);
    AbsorbAsShift(Absorb(0, b), c);
    Shift8Additive((b as bv16) << 8, c as bv16);
  }

  /** Two error bytes in a row never cancel in the register. */
  lemma ShortBurstSeen(b: Byte, c: Byte)
    ensures Absorb(Absorb(0, b), c) == 0 <==> b == 0 && c == 0
  {
    var both := Xor16((b as bv16) << 8, c as bv16);
    AbsorbTwo(b, c);
    Shift8Zero(Shift8(both));
    Shift8Zero(both);
    UpperLowerDisjoint(b, c);
  }

  /** A single error pattern of at most two adjacent bytes, anywhere, leaves a non-zero register. */
  lemma BurstSeen(error: seq<Byte>, k: nat)
    requires k < |error| && forall i :: 0 <= i < |error| && i != k && i != k + 1 ==> error[i] == 0
    ensures Register(0, error) == 0 <==> forall i :: 0 <= i < |error| ==> error[i] == 0
  {
    forall r ensures Absorb(r, 0) == 0 <==> r == 0 {
      AbsorbZero(r);
    }
    forall b, c ensures Absorb(Absorb(0, b), c) == 0 <==> b == 0 && c == 0 {
      ShortBurstSeen(b, c);
    }
    FoldBurst(Absorb, 0, 0, error, k);
  }

  function XorAll(data: seq<Byte>, error: seq<Byte>): (r: seq<Byte>)
    requires |data| == |error|
    ensures |r| == |data| && forall i :: 0 <= i < |r| ==> r[i] == Xor8(data[i], error[i])
  {
    seq(|data|, i requires 0 <= i < |data| => Xor8(data[i], error[i]))
  }

  lemma RegisterAdditive(r: bv16, s: bv16, data: seq<Byte>, error: seq<Byte>)
    requires |data| == |error|
    ensures Register(Xor16(r, s), XorAll(data, error)) == Xor16(Register(r, data), Register(s, error))
  {
    forall a, b, c, d ensures Absorb(Xor16(a, b), Xor8(c, d)) == Xor16(Absorb(a, c), Absorb(b, d)) {
      AbsorbAdditive(a, b, c, d);
    }
    FoldAdditive(Absorb, Xor16, Xor8, r, s, data, error, XorAll(data, error));
  }

  lemma XorTwice(x: Byte, y: Byte)
    ensures Xor8(x, Xor8(x, y)) == y
    ensures Xor8(x, y) == 0 <==> x == y
  {
  }

  /** Any change confined to one byte or to two adjacent bytes of a sealed block, its CRC bytes included, is
      detected. */
  lemma ShortErrorsAreDetected(data: seq<Byte>, received: seq<Byte>, k: nat)
    requires |received| == |Sealed(data)| && k < |received|
    requires forall i :: 0 <= i < |received| && i != k && i != k + 1 ==> received[i] == Sealed(data)[i]
    ensures Crc(received) == 0 <==> received == Sealed(data)
  {
    var sent := Sealed(data);
    SealedBlockChecks(data);
    var error := XorAll(sent, received);
    forall i | 0 <= i < |sent|
      ensures error[i] == 0 <==> sent[i] == received[i]
      ensures Xor8(sent[i], error[i]) == received[i]
    {
      XorTwice(sent[i], received[i]);
    }
    BurstSeen(error, k);
    assert XorAll(sent, error) == received;
    RegisterAdditive(0xFFFF, 0, sent, error);
  }
}
