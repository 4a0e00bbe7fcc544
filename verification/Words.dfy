/**
 * The numbers that machine words stand for, and what shifting and masking does to them.
 * Facts about bits alone are kept apart from facts about numbers.
 */
module Words {

  function Half(w: bv32): bv32 {
    w >> 1
  }

  function LastBit(w: bv32): nat {
    if w & 1 == 1 then 1 else 0
  }

  /** The number a word stands for, bit by bit. */
  function Nat(w: bv32): nat
    decreases w
  {
    if w == 0 then 0 else Nat(Half(w)) * 2 + LastBit(w)
  }

  // ----- halves

  lemma NatHalf(w: bv32)
    ensures Nat(w) == Nat(Half(w)) * 2 + LastBit(w) && LastBit(w) < 2
  {
  }

  lemma HalfIsLess(w: bv32)
    requires w != 0
    ensures Half(w) < w
    ensures LastBit(w) == 0 ==> Half(w) != 0
  {
  }

  lemma {:induction false} ZeroExactly(w: bv32)
    ensures Nat(w) == 0 <==> w == 0
    decreases w
  {
    if w != 0 {
      HalfIsLess(w);
      hide Half, LastBit;
      ZeroExactly(Half(w));
    }
  }

  // ----- bounds

  lemma NatQuarter(w: bv32)
    ensures Nat(w) <= Nat(Half(Half(w))) * 4 + 3
  {
    hide Half, LastBit, Nat;
    NatHalf(w);
    NatHalf(Half(w));
  }

  function Quarter(w: bv32): bv32 {
    Half(Half(w))
  }

  lemma SmallQuarters(w: bv32)
    ensures w < 64 ==> Quarter(Quarter(Quarter(w))) == 0
    ensures w < 256 ==> Quarter(Quarter(Quarter(Quarter(w)))) == 0
  {
  }

  lemma QuarterBound(w: bv32)
    ensures Nat(w) <= Nat(Quarter(w)) * 4 + 3
  {
    NatQuarter(w);
  }

  lemma NatBelow(w: bv32)
    ensures w < 64 ==> Nat(w) < 64
    ensures w < 256 ==> Nat(w) < 256
  {
    hide Nat, Quarter;
    SmallQuarters(w);
    var q1, q2, q3 := Quarter(w), Quarter(Quarter(w)), Quarter(Quarter(Quarter(w)));
    QuarterBound(w);
    QuarterBound(q1);
    QuarterBound(q2);
    QuarterBound(q3);
    ZeroExactly(0);
  }

  lemma QuarterAtLeast(w: bv32)
    ensures Nat(w) >= Nat(Quarter(w)) * 4
  {
    hide LastBit, Nat;
    NatHalf(w);
    NatHalf(Half(w));
  }

  lemma LargeQuarters(w: bv32)
    ensures w >= 64 ==> Quarter(Quarter(Quarter(w))) != 0
    ensures w >= 256 ==> Quarter(Quarter(Quarter(Quarter(w)))) != 0
  {
  }

  lemma NatAtLeast(w: bv32)
    ensures w >= 64 ==> Nat(w) >= 64
    ensures w >= 256 ==> Nat(w) >= 256
  {
    hide Nat, Quarter;
    LargeQuarters(w);
    var q1, q2, q3 := Quarter(w), Quarter(Quarter(w)), Quarter(Quarter(Quarter(w)));
    QuarterAtLeast(w);
    QuarterAtLeast(q1);
    QuarterAtLeast(q2);
    QuarterAtLeast(q3);
    ZeroExactly(q3);
    ZeroExactly(Quarter(q3));
  }

  // ----- shifts

  lemma UpAndDown(w: bv32)
    requires w < 0x8000_0000
    ensures Half(w << 1) == w && LastBit(w << 1) == 0
  {
  }

  lemma NatDouble(w: bv32, d: bv32)
    requires w < 0x8000_0000 && d == w << 1
    ensures Nat(d) == Nat(w) * 2
  {
    hide Half, LastBit, Nat;
    UpAndDown(w);
    NatHalf(d);
  }

  lemma TwoShifts(w: bv32)
    requires w < 0x4000_0000
    ensures (w << 1) << 1 == w << 2 && w < 0x8000_0000 && w << 1 < 0x8000_0000
  {
  }

  lemma NatTimes4(w: bv32, q: bv32)
    requires w < 0x4000_0000 && q == w << 2
    ensures Nat(q) == Nat(w) * 4
  {
    hide Nat;
    TwoShifts(w);
    NatDouble(w, w << 1);
    NatDouble(w << 1, q);
  }

  lemma FourShifts(w: bv32)
    requires w < 0x1000_0000
    ensures (w << 2) << 2 == w << 4 && w < 0x4000_0000 && w << 2 < 0x4000_0000
  {
  }

  lemma NatTimes16(w: bv32, q: bv32)
    requires w < 0x1000_0000 && q == w << 4
    ensures Nat(q) == Nat(w) * 16
  {
    hide Nat;
    FourShifts(w);
    NatTimes4(w, w << 2);
    NatTimes4(w << 2, q);
  }

  lemma SixShifts(w: bv32)
    requires w < 0x400_0000
    ensures (w << 4) << 2 == w << 6 && w < 0x1000_0000 && w << 4 < 0x4000_0000
  {
  }

  lemma NatTimes64(w: bv32, q: bv32)
    requires w < 0x400_0000 && q == w << 6
    ensures Nat(q) == Nat(w) * 64
  {
    hide Nat;
    SixShifts(w);
    NatTimes16(w, w << 4);
    NatTimes4(w << 4, q);
  }

  lemma EightShifts(w: bv32)
    requires w < 0x100_0000
    ensures (w << 4) << 4 == w << 8 && w < 0x1000_0000 && w << 4 < 0x1000_0000
  {
  }

  lemma NatTimes256(w: bv32, q: bv32)
    requires w < 0x100_0000 && q == w << 8
    ensures Nat(q) == Nat(w) * 256
  {
    hide Nat;
    EightShifts(w);
    NatTimes16(w, w << 4);
    NatTimes16(w << 4, q);
  }

  // ----- words that share no bits

  predicate Apart(a: bv32, b: bv32) {
    a & b == 0
  }

  function Or(a: bv32, b: bv32): bv32 {
    a | b
  }

  lemma PartsApart(a: bv32, b: bv32)
    requires Apart(a, b)
    ensures Apart(Half(a), Half(b)) && Half(Or(a, b)) == Or(Half(a), Half(b))
    ensures LastBit(Or(a, b)) == LastBit(a) + LastBit(b)
    ensures Or(a, b) == 0 ==> a == 0 && b == 0
  {
  }

  /** Words that share no bits are added by putting them together. */
  lemma {:induction false} NatOr(a: bv32, b: bv32)
    requires Apart(a, b)
    ensures Nat(Or(a, b)) == Nat(a) + Nat(b)
    decreases Or(a, b)
  {
    hide Half, LastBit, Nat, Apart, Or;
    PartsApart(a, b);
    if Or(a, b) == 0 {
      ZeroExactly(0);
    } else {
      HalfIsLess(Or(a, b));
      NatOr(Half(a), Half(b));
      NatHalf(a);
      NatHalf(b);
      NatHalf(Or(a, b));
    }
  }

  // ----- words for bytes

  /** The word for a byte. */
  function Word(x: nat): bv32
    requires x < 256
  {
    if x == 0 then 0 else Or(Word(x / 2) << 1, if x % 2 == 1 then 1 else 0)
  }

  lemma EvenApart(w: bv32)
    ensures Apart(w << 1, 1) && Apart(w << 1, 0)
  {
  }

  lemma NatOne()
    ensures Nat(1) == 1 && Nat(0) == 0
  {
    NatHalf(1);
  }

  /** A word for a byte stands for it. */
  lemma {:induction false} WordIs(x: nat)
    requires x < 256
    ensures Nat(Word(x)) == x && Word(x) < 256 && (x < 64 ==> Word(x) < 64)
  {
    hide Nat, Or, Apart;
    NatOne();
    if x != 0 {
      var h := Word(x / 2);
      WordIs(x / 2);
      NatDouble(h, h << 1);
      EvenApart(h);
      NatOr(h << 1, if x % 2 == 1 then 1 else 0);
    }
    NatAtLeast(Word(x));
  }

  lemma PushedApart(high: bv32, low: bv32)
    ensures low < 64 ==> Apart(high << 6, low)
    ensures low < 256 ==> Apart(high << 8, low)
  {
  }

  lemma NatPush64(high: bv32, low: bv32, w: bv32)
    requires high < 0x400_0000 && low < 64 && w == (high << 6) | low
    ensures Nat(w) == Nat(high) * 64 + Nat(low)
  {
    hide Nat, Apart;
    var moved := high << 6;
    assert Nat(moved) == Nat(high) * 64 by { NatTimes64(high, moved); }
    assert Apart(moved, low) by { PushedApart(high, low); }
    NatOr(moved, low);
  }

  lemma NatPush256(high: bv32, low: bv32, w: bv32)
    requires high < 0x100_0000 && low < 256 && w == (high << 8) | low
    ensures Nat(w) == Nat(high) * 256 + Nat(low)
  {
    hide Nat, Apart;
    var moved := high << 8;
    assert Nat(moved) == Nat(high) * 256 by { NatTimes256(high, moved); }
    assert Apart(moved, low) by { PushedApart(high, low); }
    NatOr(moved, low);
  }

  // ----- three bytes and four sextets in a word

  lemma BytesShifted(b0: bv32, b1: bv32, b2: bv32)
    requires b0 < 256 && b1 < 256 && b2 < 256
    ensures (b0 << 16) | (b1 << 8) | b2 == (((b0 << 8) | b1) << 8) | b2
    ensures (b0 << 8) | b1 < 0x1_0000
    ensures (b0 << 16) | (b1 << 8) | b2 < 0x100_0000
  {
  }

  lemma SextetsShifted(d0: bv32, d1: bv32, d2: bv32, d3: bv32)
    requires d0 < 64 && d1 < 64 && d2 < 64 && d3 < 64
    ensures (d0 << 18) | (d1 << 12) | (d2 << 6) | d3 == ((((d0 << 12) | (d1 << 6)) | d2) << 6) | d3
    ensures (d0 << 12) | (d1 << 6) | d2 == (((d0 << 6) | d1) << 6) | d2
    ensures (d0 << 6) | d1 < 0x1000 && (d0 << 12) | (d1 << 6) | d2 < 0x4_0000
    ensures (d0 << 18) | (d1 << 12) | (d2 << 6) | d3 < 0x100_0000
  {
  }

  /** Packed bytes are the digits of their word in base 256. */
  lemma PackedBytes(b0: bv32, b1: bv32, b2: bv32, n: bv32)
    requires b0 < 256 && b1 < 256 && b2 < 256 && n == (b0 << 16) | (b1 << 8) | b2
    ensures n < 0x100_0000 && Nat(n) == (Nat(b0) * 256 + Nat(b1)) * 256 + Nat(b2)
  {
    hide Nat;
    BytesShifted(b0, b1, b2);
    NatPush256(b0, b1, (b0 << 8) | b1);
    NatPush256((b0 << 8) | b1, b2, n);
  }

  lemma ThreeSextets(d0: bv32, d1: bv32, d2: bv32, w: bv32)
    requires d0 < 64 && d1 < 64 && d2 < 64 && w == (d0 << 12) | (d1 << 6) | d2
    ensures w < 0x4_0000 && Nat(w) == (Nat(d0) * 64 + Nat(d1)) * 64 + Nat(d2)
  {
    hide Nat;
    SextetsShifted(d0, d1, d2, 0);
    NatPush64(d0, d1, (d0 << 6) | d1);
    NatPush64((d0 << 6) | d1, d2, w);
  }

  /** Packed sextets are the digits of their word in base 64. */
  lemma PackedSextets(d0: bv32, d1: bv32, d2: bv32, d3: bv32, n: bv32)
    requires d0 < 64 && d1 < 64 && d2 < 64 && d3 < 64 && n == (d0 << 18) | (d1 << 12) | (d2 << 6) | d3
    ensures n < 0x100_0000 && Nat(n) == ((Nat(d0) * 64 + Nat(d1)) * 64 + Nat(d2)) * 64 + Nat(d3)
  {
    hide Nat;
    SextetsShifted(d0, d1, d2, d3);
    var w := (d0 << 12) | (d1 << 6) | d2;
    ThreeSextets(d0, d1, d2, w);
    NatPush64(w, d3, n);
  }

  lemma SextetsPacked(n: bv32)
    requires n < 0x100_0000
    ensures (((n >> 18) & 0x3F) << 18) | (((n >> 12) & 0x3F) << 12) | (((n >> 6) & 0x3F) << 6) | (n & 0x3F) == n
    ensures (n >> 18) & 0x3F < 64 && (n >> 12) & 0x3F < 64 && (n >> 6) & 0x3F < 64 && n & 0x3F < 64
  {
  }

  lemma BytesPacked(n: bv32)
    requires n < 0x100_0000
    ensures (((n >> 16) & 0xFF) << 16) | (((n >> 8) & 0xFF) << 8) | (n & 0xFF) == n
    ensures (n >> 16) & 0xFF < 256 && (n >> 8) & 0xFF < 256 && n & 0xFF < 256
  {
  }

  /** What shifting and masking takes out of a word are its digits in base 64. */
  lemma SextetsOf(n: bv32)
    requires n < 0x100_0000
    ensures var d0, d1, d2, d3 := Nat((n >> 18) & 0x3F), Nat((n >> 12) & 0x3F), Nat((n >> 6) & 0x3F), Nat(n & 0x3F);
            && d0 < 64 && d1 < 64 && d2 < 64 && d3 < 64
            && Nat(n) == ((d0 * 64 + d1) * 64 + d2) * 64 + d3
  {
    hide Nat;
    SextetsPacked(n);
    PackedSextets((n >> 18) & 0x3F, (n >> 12) & 0x3F, (n >> 6) & 0x3F, n & 0x3F, n);
    NatBelow((n >> 18) & 0x3F);
    NatBelow((n >> 12) & 0x3F);
    NatBelow((n >> 6) & 0x3F);
    NatBelow(n & 0x3F);
  }

  /** What shifting and masking takes out of a word are its digits in base 256. */
  lemma BytesOf(n: bv32)
    requires n < 0x100_0000
    ensures var b0, b1, b2 := Nat((n >> 16) & 0xFF), Nat((n >> 8) & 0xFF), Nat(n & 0xFF);
            && b0 < 256 && b1 < 256 && b2 < 256
            && Nat(n) == (b0 * 256 + b1) * 256 + b2
  {
    hide Nat;
    BytesPacked(n);
    PackedBytes((n >> 16) & 0xFF, (n >> 8) & 0xFF, n & 0xFF, n);
    NatBelow((n >> 16) & 0xFF);
    NatBelow((n >> 8) & 0xFF);
    NatBelow(n & 0xFF);
  }
}
