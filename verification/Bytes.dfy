/** Bytes, and sequences of digits read as numbers, the most significant digit first. */
module Bytes {

  type Byte = x: int | 0 <= x < 0x100

  function Num(base: nat, digits: seq<nat>): nat {
    if digits == [] then 0 else Num(base, digits[..|digits| - 1]) * base + digits[|digits| - 1]
  }

  predicate Digits(base: nat, digits: seq<nat>) {
    forall i :: 0 <= i < |digits| ==> digits[i] < base
  }

  lemma NumPush(base: nat, digits: seq<nat>, d: nat)
    ensures Num(base, digits + [d]) == Num(base, digits) * base + d
  {
    assert (digits + [d])[..|digits|] == digits;
  }

  lemma NumPush2(base: nat, digits: seq<nat>, a: nat, b: nat)
    ensures Num(base, digits + [a, b]) == (Num(base, digits) * base + a) * base + b
  {
    hide Num;
    NumPush(base, digits, a);
    NumPush(base, digits + [a], b);
    assert digits + [a] + [b] == digits + [a, b];
  }

  lemma NumPush3(base: nat, digits: seq<nat>, a: nat, b: nat, c: nat)
    ensures Num(base, digits + [a, b, c]) == ((Num(base, digits) * base + a) * base + b) * base + c
  {
    hide Num;
    NumPush2(base, digits, a, b);
    NumPush(base, digits + [a, b], c);
    assert digits + [a, b] + [c] == digits + [a, b, c];
  }

  lemma NumPush4(base: nat, digits: seq<nat>, a: nat, b: nat, c: nat, d: nat)
    ensures Num(base, digits + [a, b, c, d]) == (((Num(base, digits) * base + a) * base + b) * base + c) * base + d
  {
    hide Num;
    NumPush3(base, digits, a, b, c);
    NumPush(base, digits + [a, b, c], d);
    assert digits + [a, b, c] + [d] == digits + [a, b, c, d];
  }

  lemma DivisionIsUnique(base: nat, a: nat, b: nat, x: nat, y: nat)
    requires x < base && y < base && a * base + x == b * base + y
    ensures a == b && x == y
  {
    if a < b { NextMultiple(base, a, b); }
    if b < a { NextMultiple(base, b, a); }
  }

  lemma NextMultiple(base: nat, a: nat, b: nat)
    requires a < b
    ensures a * base + base <= b * base
  {
    assert (a + 1) * base <= b * base;
  }

  /** A number has one representation with a given number of digits. */
  lemma {:induction false} NumIsInjective(base: nat, a: seq<nat>, b: seq<nat>)
    requires Digits(base, a) && Digits(base, b) && |a| == |b| && Num(base, a) == Num(base, b)
    ensures a == b
  {
    if a != [] {
      var n := |a| - 1;
      DivisionIsUnique(base, Num(base, a[..n]), Num(base, b[..n]), a[n], b[n]);
      NumIsInjective(base, a[..n], b[..n]);
      assert a == a[..n] + [a[n]] && b == b[..n] + [b[n]];
    }
  }
}
