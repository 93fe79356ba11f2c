/** The checksum of Redis Cluster keys: CRC16 with polynomial 0x1021 and initial value 0, by division. */
module Crc16 {
  type Byte = bv8

  // ---- The checksum, one bit and one byte at a time.

  /** Addition of polynomials over the field of two elements, which is subtraction as well. */
  function Plus(a: bv16, b: bv16): bv16 { a ^ b }

  function Left(c: bv16): bv16 { c << 1 }

  /** What a step of the division subtracts. */
  function Carry(c: bv16): bv16 { if c & 0x8000 != 0 then 0x1021 else 0 }

  /** One step of the division: the leading bit is shifted out, and if it was set the polynomial is
      subtracted. */
  function Shift(c: bv16): bv16 { Plus(Left(c), Carry(c)) }

  function Shift8(c: bv16): bv16 {
    Shift(Shift(Shift(Shift(Shift(Shift(Shift(Shift(c))))))))
  }

  /** The checksum register after one more byte. */
  function Feed(c: bv16, b: Byte): bv16 { Shift8(Plus(c, High(b))) }

  /** A byte in the upper half of the register. */
  function High(b: Byte): bv16 { (b as bv16) << 8 }

  /** The checksum by bit-by-bit division. */
  function Crc(s: seq<Byte>): bv16 {
    if s == [] then 0 else Feed(Crc(s[..|s| - 1]), s[|s| - 1])
  }

  // ---- Polynomials over the field of two elements, highest power first.

  type Bits = seq<bool>

  /** The first coefficients of d with those of a shorter polynomial subtracted. */
  function Minus(d: Bits, p: Bits): (r: Bits)
    requires |p| <= |d|
    ensures |r| == |d| && forall i :: 0 <= i < |d| ==> r[i] == (d[i] != (i < |p| && p[i]))
  {
    seq(|d|, i requires 0 <= i < |d| => d[i] != (i < |p| && p[i]))
  }

  /** The divisor: x to the 16th, 12th and 5th power and 1. */
  function Divisor(): (p: Bits)
    ensures |p| == 17
  {
    [true] + RegisterBits(0x1021)
  }

  /** Schoolbook division: while the dividend is longer than a remainder, the divisor is subtracted from
      its leading end if it goes in. */
  function Remainder(d: Bits): (r: Bits)
    requires |d| >= 16
    ensures |r| == 16
    decreases |d|
  {
    if |d| == 16 then d else Remainder((if d[0] then Minus(d, Divisor()) else d)[1..])
  }

  function Zeros(n: nat): (z: Bits)
    ensures |z| == n && forall i :: 0 <= i < n ==> !z[i]
  {
    seq(n, _ => false)
  }

  /** Coefficient i of the register, highest power first. */
  predicate Bit(c: bv16, i: nat)
    requires i < 16
  {
    match i
    case 0 => c & 0x8000 != 0
    case 1 => c & 0x4000 != 0
    case 2 => c & 0x2000 != 0
    case 3 => c & 0x1000 != 0
    case 4 => c & 0x0800 != 0
    case 5 => c & 0x0400 != 0
    case 6 => c & 0x0200 != 0
    case 7 => c & 0x0100 != 0
    case 8 => c & 0x0080 != 0
    case 9 => c & 0x0040 != 0
    case 10 => c & 0x0020 != 0
    case 11 => c & 0x0010 != 0
    case 12 => c & 0x0008 != 0
    case 13 => c & 0x0004 != 0
    case 14 => c & 0x0002 != 0
    case _ => c & 0x0001 != 0
  }

  /** The register as a polynomial. */
  function RegisterBits(c: bv16): (r: Bits)
    ensures |r| == 16
  {
    seq(16, i requires 0 <= i < 16 => Bit(c, i))
  }

  /** Coefficient i of a byte. */
  predicate ByteBit(b: Byte, i: nat)
    requires i < 8
  {
    match i
    case 0 => b & 0x80 != 0
    case 1 => b & 0x40 != 0
    case 2 => b & 0x20 != 0
    case 3 => b & 0x10 != 0
    case 4 => b & 0x08 != 0
    case 5 => b & 0x04 != 0
    case 6 => b & 0x02 != 0
    case _ => b & 0x01 != 0
  }

  function ByteBits(b: Byte): (r: Bits)
    ensures |r| == 8
  {
    seq(8, i requires 0 <= i < 8 => ByteBit(b, i))
  }

  /** The message as a polynomial. */
  function MessageBits(s: seq<Byte>): (r: Bits)
    ensures |r| == 8 * |s|
  {
    if s == [] then [] else MessageBits(s[..|s| - 1]) + ByteBits(s[|s| - 1])
  }

  // ---- The operations on registers are those on polynomials.

  lemma PlusBit(c: bv16, d: bv16, i: nat)
    requires i < 16
    ensures Bit(Plus(c, d), i) == (Bit(c, i) != Bit(d, i))
  {
    if i == 0 {} else if i == 1 {} else if i == 2 {} else if i == 3 {} else if i == 4 {} else if i == 5 {}
    else if i == 6 {} else if i == 7 {} else if i == 8 {} else if i == 9 {} else if i == 10 {} else if i == 11 {}
    else if i == 12 {} else if i == 13 {} else if i == 14 {}
  }

  lemma PlusBits(c: bv16, d: bv16)
    ensures RegisterBits(Plus(c, d)) == Minus(RegisterBits(c), RegisterBits(d))
  {
    hide Bit, Plus;
    forall i | 0 <= i < 16 ensures Bit(Plus(c, d), i) == (Bit(c, i) != Bit(d, i)) {
      PlusBit(c, d, i);
    }
  }

  lemma LeftBit(c: bv16, i: nat)
    requires i < 16
    ensures Bit(Left(c), i) == (i < 15 && Bit(c, i + 1))
  {
    if i == 0 {} else if i == 1 {} else if i == 2 {} else if i == 3 {} else if i == 4 {} else if i == 5 {}
    else if i == 6 {} else if i == 7 {} else if i == 8 {} else if i == 9 {} else if i == 10 {} else if i == 11 {}
    else if i == 12 {} else if i == 13 {} else if i == 14 {}
  }

  lemma LeftBits(c: bv16)
    ensures RegisterBits(Left(c)) == RegisterBits(c)[1..] + [false]
  {
    hide Bit, Left;
    forall i | 0 <= i < 16 ensures Bit(Left(c), i) == (i < 15 && Bit(c, i + 1)) {
      LeftBit(c, i);
    }
  }

  lemma ZeroBit(i: nat)
    requires i < 16
    ensures !Bit(0, i)
  {
    if i == 0 {} else if i == 1 {} else if i == 2 {} else if i == 3 {} else if i == 4 {} else if i == 5 {}
    else if i == 6 {} else if i == 7 {} else if i == 8 {} else if i == 9 {} else if i == 10 {} else if i == 11 {}
    else if i == 12 {} else if i == 13 {} else if i == 14 {}
  }

  lemma ZeroBits()
    ensures RegisterBits(0) == Zeros(16)
  {
    hide Bit;
    forall i | 0 <= i < 16 ensures !Bit(0, i) {
      ZeroBit(i);
    }
  }

  lemma CarryBits(c: bv16)
    ensures RegisterBits(Carry(c)) == if RegisterBits(c)[0] then RegisterBits(0x1021) else Zeros(16)
  {
    ZeroBits();
  }

  lemma HighBit(b: Byte, i: nat)
    requires i < 16
    ensures Bit(High(b), i) == (i < 8 && ByteBit(b, i))
  {
    if i == 0 {} else if i == 1 {} else if i == 2 {} else if i == 3 {} else if i == 4 {} else if i == 5 {}
    else if i == 6 {} else if i == 7 {} else if i == 8 {} else if i == 9 {} else if i == 10 {} else if i == 11 {}
    else if i == 12 {} else if i == 13 {} else if i == 14 {}
  }

  lemma HighBits(b: Byte)
    ensures RegisterBits(High(b)) == ByteBits(b) + Zeros(8)
  {
    hide Bit, ByteBit, High;
    forall i | 0 <= i < 16 ensures Bit(High(b), i) == (i < 8 && ByteBit(b, i)) {
      HighBit(b, i);
    }
  }

  // ---- A register is determined by its coefficients.

  lemma NoBits(c: bv16)
    requires !Bit(c, 0) && !Bit(c, 1) && !Bit(c, 2) && !Bit(c, 3)
    requires !Bit(c, 4) && !Bit(c, 5) && !Bit(c, 6) && !Bit(c, 7)
    requires !Bit(c, 8) && !Bit(c, 9) && !Bit(c, 10) && !Bit(c, 11) && !Bit(c, 12) && !Bit(c, 13) && !Bit(c, 14)
    requires !Bit(c, 15)
    ensures c == 0
  {
  }

  lemma NoDifference(c: bv16, d: bv16)
    requires Plus(c, d) == 0
    ensures c == d
  {
  }

  lemma RegisterInjective(c: bv16, d: bv16)
    requires RegisterBits(c) == RegisterBits(d)
    ensures c == d
  {
    hide Bit, Plus;
    forall i | 0 <= i < 16 ensures !Bit(Plus(c, d), i) {
      assert RegisterBits(c)[i] == RegisterBits(d)[i];
      PlusBit(c, d, i);
    }
    NoBits(Plus(c, d));
    NoDifference(c, d);
  }

  // ---- The checksum is the remainder of the division.

  /** One step of the register is one step of the division. */
  lemma ShiftDivides(c: bv16, rest: Bits)
    requires |rest| >= 16
    ensures Remainder(Minus(Zeros(1) + rest, RegisterBits(c))) == Remainder(Minus(rest, RegisterBits(Shift(c))))
  {
    hide Plus, Left, Carry, RegisterBits;
    PlusBits(Left(c), Carry(c));
    LeftBits(c);
    CarryBits(c);
    var d := Minus(Zeros(1) + rest, RegisterBits(c));
    assert (if d[0] then Minus(d, Divisor()) else d)[1..] == Minus(rest, RegisterBits(Shift(c)));
  }

  function Shifts(c: bv16, n: nat): bv16
    decreases n
  {
    if n == 0 then c else Shifts(Shift(c), n - 1)
  }

  lemma {:induction false} ShiftsDivide(c: bv16, n: nat, rest: Bits)
    requires |rest| >= 16
    ensures Remainder(Minus(Zeros(n) + rest, RegisterBits(c))) == Remainder(Minus(rest, RegisterBits(Shifts(c, n))))
    decreases n
  {
    hide Shift, Remainder, RegisterBits;
    if n == 0 {
      assert Zeros(0) + rest == rest;
    } else {
      assert Zeros(n) + rest == Zeros(1) + (Zeros(n - 1) + rest);
      ShiftDivides(c, Zeros(n - 1) + rest);
      ShiftsDivide(Shift(c), n - 1, rest);
    }
  }

  lemma Shift8Is(c: bv16)
    ensures Shift8(c) == Shifts(c, 8)
  {
    hide Shift;
    var c2 := Shift(Shift(c));
    var c4 := Shift(Shift(c2));
    var c6 := Shift(Shift(c4));
    assert Shifts(c, 8) == Shifts(c2, 6);
    assert Shifts(c2, 6) == Shifts(c4, 4);
    assert Shifts(c4, 4) == Shifts(c6, 2);
    assert Shifts(c6, 2) == Shifts(Shift(Shift(c6)), 0);
  }

  lemma FeedDivides(c: bv16, b: Byte, rest: Bits)
    requires |rest| >= 16
    ensures Remainder(Minus(ByteBits(b) + rest, RegisterBits(c))) == Remainder(Minus(rest, RegisterBits(Feed(c, b))))
  {
    hide Shift8, Shifts, Plus, High, Remainder, RegisterBits, ByteBits;
    var x := Plus(c, High(b));
    PlusBits(c, High(b));
    HighBits(b);
    assert Minus(ByteBits(b) + rest, RegisterBits(c)) == Minus(Zeros(8) + rest, RegisterBits(x));
    ShiftsDivide(x, 8, rest);
    Shift8Is(x);
  }

  lemma {:induction false} MessageDivides(s: seq<Byte>, rest: Bits)
    requires |rest| >= 16
    ensures Remainder(MessageBits(s) + rest) == Remainder(Minus(rest, RegisterBits(Crc(s))))
  {
    hide Feed, Remainder, RegisterBits, ByteBits;
    if s == [] {
      ZeroBits();
      assert MessageBits(s) + rest == rest == Minus(rest, RegisterBits(0));
    } else {
      var n := |s| - 1;
      assert MessageBits(s) + rest == MessageBits(s[..n]) + (ByteBits(s[n]) + rest);
      MessageDivides(s[..n], ByteBits(s[n]) + rest);
      FeedDivides(Crc(s[..n]), s[n], rest);
    }
  }

  /** The checksum is what remains of the message, moved up by 16 powers, divided by the polynomial. */
  lemma CrcIsRemainder(s: seq<Byte>)
    ensures RegisterBits(Crc(s)) == Remainder(MessageBits(s) + Zeros(16))
  {
    hide Crc, RegisterBits, MessageBits;
    MessageDivides(s, Zeros(16));
    assert Minus(Zeros(16), RegisterBits(Crc(s))) == RegisterBits(Crc(s));
  }

  // ---- The checksum is linear.

  function Xor(a: seq<Byte>, b: seq<Byte>): (r: seq<Byte>)
    requires |a| == |b|
    ensures |r| == |a|
  {
    seq(|a|, i requires 0 <= i < |a| => a[i] ^ b[i])
  }

  lemma {:induction false} RemainderLinear(d: Bits, e: Bits)
    requires |d| == |e| >= 16
    ensures Remainder(Minus(d, e)) == Minus(Remainder(d), Remainder(e))
    decreases |d|
  {
    hide Divisor;
    if |d| > 16 {
      var f := Minus(d, e);
      var d' := (if d[0] then Minus(d, Divisor()) else d)[1..];
      var e' := (if e[0] then Minus(e, Divisor()) else e)[1..];
      RemainderLinear(d', e');
      assert (if f[0] then Minus(f, Divisor()) else f)[1..] == Minus(d', e');
    }
  }

  lemma ByteBitLinear(a: Byte, b: Byte, i: nat)
    requires i < 8
    ensures ByteBit(a ^ b, i) == (ByteBit(a, i) != ByteBit(b, i))
  {
    if i == 0 {} else if i == 1 {} else if i == 2 {} else if i == 3 {} else if i == 4 {} else if i == 5 {}
    else if i == 6 {}
  }

  lemma ByteBitsLinear(a: Byte, b: Byte)
    ensures ByteBits(a ^ b) == Minus(ByteBits(a), ByteBits(b))
  {
    hide ByteBit;
    forall i | 0 <= i < 8 ensures ByteBit(a ^ b, i) == (ByteBit(a, i) != ByteBit(b, i)) {
      ByteBitLinear(a, b, i);
    }
  }

  lemma XorLast(a: seq<Byte>, b: seq<Byte>, n: nat)
    requires |a| == |b| == n + 1
    ensures Xor(a, b)[..n] == Xor(a[..n], b[..n]) && Xor(a, b)[n] == a[n] ^ b[n]
  {
  }

  lemma MinusAppend(a: Bits, b: Bits, c: Bits, d: Bits)
    requires |a| == |b| && |c| == |d|
    ensures Minus(a + c, b + d) == Minus(a, b) + Minus(c, d)
  {
  }

  lemma {:induction false} MessageBitsLinear(a: seq<Byte>, b: seq<Byte>)
    requires |a| == |b|
    ensures MessageBits(Xor(a, b)) == Minus(MessageBits(a), MessageBits(b))
  {
    hide ByteBits, Xor, Minus;
    if a != [] {
      var n := |a| - 1;
      MessageBitsLinear(a[..n], b[..n]);
      XorLast(a, b, n);
      ByteBitsLinear(a[n], b[n]);
      MinusAppend(MessageBits(a[..n]), MessageBits(b[..n]), ByteBits(a[n]), ByteBits(b[n]));
    }
  }

  /** Linearity under exclusive or of messages of equal length. */
  lemma CrcLinear(a: seq<Byte>, b: seq<Byte>)
    requires |a| == |b|
    ensures Crc(Xor(a, b)) == Plus(Crc(a), Crc(b))
  {
    hide Crc, Plus, RegisterBits, MessageBits, Remainder, Xor, Minus;
    CrcIsRemainder(a);
    CrcIsRemainder(b);
    CrcIsRemainder(Xor(a, b));
    MessageBitsLinear(a, b);
    MinusAppend(MessageBits(a), MessageBits(b), Zeros(16), Zeros(16));
    assert Minus(Zeros(16), Zeros(16)) == Zeros(16);
    RemainderLinear(MessageBits(a) + Zeros(16), MessageBits(b) + Zeros(16));
    PlusBits(Crc(a), Crc(b));
    RegisterInjective(Crc(Xor(a, b)), Plus(Crc(a), Crc(b)));
  }
}
