/** UTF-8 text (section 3 of RFC 3629): characters as bytes, and where one ends and the next begins. */
module Utf8 {
  import opened Bytes

  /** A Unicode scalar value. */
  type Scalar = x: int | 0 <= x < 0xD800 || 0xE000 <= x < 0x11_0000

  /** A byte that continues a character. */
  predicate Continues(b: Byte) {
    0x80 <= b < 0xC0
  }

  function Encode(c: Scalar): seq<Byte> {
    if c < 0x80 then [c]
    else if c < 0x800 then [0xC0 + c / 0x40, 0x80 + c % 0x40]
    else if c < 0x1_0000 then [0xE0 + c / 0x1000, 0x80 + c / 0x40 % 0x40, 0x80 + c % 0x40]
    else [0xF0 + c / 0x4_0000, 0x80 + c / 0x1000 % 0x40, 0x80 + c / 0x40 % 0x40, 0x80 + c % 0x40]
  }

  /** How many bytes the character has that starts with `lead`. */
  function Width(lead: Byte): nat {
    if lead < 0x80 then 1 else if lead < 0xE0 then 2 else if lead < 0xF0 then 3 else 4
  }

  lemma EncodeShape(c: Scalar)
    ensures var e := Encode(c);
            && 1 <= |e| == Width(e[0]) && !Continues(e[0])
            && forall i :: 0 < i < |e| ==> Continues(e[i])
  {
  }

  /** A byte less the marker it carries. */
  function Payload(b: Byte, marker: int): int {
    b as int - marker
  }

  /** What a character's bytes stand for. */
  function Decode(e: seq<Byte>): int {
    if |e| == 1 then e[0]
    else if |e| == 2 then Payload(e[0], 0xC0) * 0x40 + Payload(e[1], 0x80)
    else if |e| == 3 then Payload(e[0], 0xE0) * 0x1000 + Payload(e[1], 0x80) * 0x40 + Payload(e[2], 0x80)
    else if |e| == 4 then
      Payload(e[0], 0xF0) * 0x4_0000 + Payload(e[1], 0x80) * 0x1000 + Payload(e[2], 0x80) * 0x40 + Payload(e[3], 0x80)
    else 0
  }

  /** A number is its last six bits and the rest. */
  lemma SixBits(n: nat)
    ensures n == n / 0x40 * 0x40 + n % 0x40 && n / 0x40 / 0x40 == n / 0x1000 && n / 0x1000 / 0x40 == n / 0x4_0000
  {
  }

  lemma DecodeEncode(c: Scalar)
    ensures Decode(Encode(c)) == c
  {
    SixBits(c);
    if 0x800 <= c {
      SixBits(c / 0x40);
    }
    if 0x1_0000 <= c {
      SixBits(c / 0x1000);
    }
  }

  function Text(chars: seq<Scalar>): seq<Byte> {
    if chars == [] then [] else Text(chars[..|chars| - 1]) + Encode(chars[|chars| - 1])
  }

  /** The byte at which character `k` starts. */
  function Offset(chars: seq<Scalar>, k: nat): nat
    requires k <= |chars|
  {
    |Text(chars[..k])|
  }

  lemma {:induction false} TextConcat(a: seq<Scalar>, b: seq<Scalar>)
    ensures Text(a + b) == Text(a) + Text(b)
  {
    hide Encode;
    if b == [] {
      assert a + b == a;
    } else {
      TextConcat(a, b[..|b| - 1]);
      assert (a + b)[..|a + b| - 1] == a + b[..|b| - 1];
    }
  }

  lemma TextSplit(chars: seq<Scalar>, k: nat)
    requires k <= |chars|
    ensures Text(chars) == Text(chars[..k]) + Text(chars[k..])
  {
    hide Text;
    TextConcat(chars[..k], chars[k..]);
    assert chars[..k] + chars[k..] == chars;
  }

  lemma TextOne(c: Scalar)
    ensures Text([c]) == Encode(c)
  {
    assert [c][..0] == [];
  }

  /** The bytes around character `k`. */
  lemma TextAround(chars: seq<Scalar>, k: nat)
    requires k < |chars|
    ensures Text(chars) == Text(chars[..k]) + Encode(chars[k]) + Text(chars[k + 1..])
    ensures Offset(chars, k + 1) == Offset(chars, k) + |Encode(chars[k])|
  {
    hide Encode;
    TextSplit(chars, k + 1);
    assert chars[..k + 1] == chars[..k] + [chars[k]];
    TextConcat(chars[..k], [chars[k]]);
    TextOne(chars[k]);
    hide Text;
  }

  /** The bytes of a text determine its characters. */
  lemma {:induction false} TextInjective(a: seq<Scalar>, b: seq<Scalar>)
    requires Text(a) == Text(b)
    ensures a == b
  {
    assert Text([]) == [];
    hide Text, Decode, Width;
    if a != [] { FirstChar(a); }
    if b != [] { FirstChar(b); }
    if a != [] && b != [] {
      TextInjective(a[1..], b[1..]);
      assert a == [a[0]] + a[1..] && b == [b[0]] + b[1..];
    }
  }

  /** The first byte says how long the first character is, and its bytes say which it is. */
  lemma FirstChar(a: seq<Scalar>)
    requires a != []
    ensures var t := Text(a);
            && t != [] && Width(t[0]) <= |t| && a[0] == Decode(t[..Width(t[0])])
            && Text(a[1..]) == t[Width(t[0])..]
  {
    hide Encode, Decode, Width, Continues, Text;
    TextConcat([a[0]], a[1..]);
    assert a == [a[0]] + a[1..];
    TextOne(a[0]);
    EncodeShape(a[0]);
    DecodeEncode(a[0]);
    Halves(Encode(a[0]), Text(a[1..]));
  }

  lemma Halves(a: seq<Byte>, b: seq<Byte>)
    ensures (a + b)[..|a|] == a && (a + b)[|a|..] == b
  {
  }

  /** `p` is where a character starts, or the end: `str::is_char_boundary`. */
  predicate Boundary(bytes: seq<Byte>, p: nat) {
    p <= |bytes| && (p == |bytes| || !Continues(bytes[p]))
  }

  lemma OffsetIsBoundary(chars: seq<Scalar>, k: nat)
    requires k <= |chars|
    ensures Boundary(Text(chars), Offset(chars, k))
  {
    if k == |chars| {
      assert chars[..k] == chars;
    } else {
      hide Encode;
      TextAround(chars, k);
      EncodeShape(chars[k]);
    }
  }

  lemma {:induction false} BoundaryIsOffset(chars: seq<Scalar>, p: nat) returns (k: nat)
    requires Boundary(Text(chars), p)
    ensures k <= |chars| && p == Offset(chars, k)
  {
    hide Encode;
    if p == |Text(chars)| {
      k := |chars|;
      assert chars[..k] == chars;
    } else {
      var n := |chars| - 1;
      TextAround(chars, n);
      EncodeShape(chars[n]);
      assert forall i :: Offset(chars, n) < i < |Text(chars)| ==>
          Text(chars)[i] == Encode(chars[n])[i - Offset(chars, n)];
      k := BoundaryIsOffset(chars[..n], p);
      assert chars[..n][..k] == chars[..k];
    }
  }

  lemma {:induction false} OffsetsGrow(chars: seq<Scalar>, i: nat, j: nat)
    requires i < j <= |chars|
    ensures Offset(chars, i) < Offset(chars, j)
    decreases j
  {
    hide Encode;
    TextAround(chars, j - 1);
    EncodeShape(chars[j - 1]);
    if i < j - 1 { OffsetsGrow(chars, i, j - 1); }
  }

  /** The last place before `p` that does not continue a character. */
  function Before(bytes: seq<Byte>, p: nat): (q: nat)
    requires 0 < p <= |bytes|
    ensures q < p && (q > 0 ==> !Continues(bytes[q])) && forall i :: q < i < p ==> Continues(bytes[i])
  {
    if p == 1 || !Continues(bytes[p - 1]) then p - 1 else Before(bytes, p - 1)
  }

  lemma BeforeIs(bytes: seq<Byte>, q: nat, p: nat)
    requires q < p <= |bytes| && !Continues(bytes[q]) && forall i :: q < i < p ==> Continues(bytes[i])
    ensures Before(bytes, p) == q
  {
    hide Before;
  }

  /** Where a character of a text lies. */
  lemma CharacterAt(bytes: seq<Byte>, front: seq<Byte>, e: seq<Byte>, back: seq<Byte>, i: nat)
    requires bytes == front + e + back && |front| <= i < |front| + |e|
    ensures i < |bytes| && bytes[i] == e[i - |front|]
  {
  }

  lemma BeforeIsPrevious(chars: seq<Scalar>, k: nat)
    requires 0 < k <= |chars|
    ensures 0 < Offset(chars, k) <= |Text(chars)| && Before(Text(chars), Offset(chars, k)) == Offset(chars, k - 1)
  {
    hide Encode, Text, Before, Continues, Width;
    TextAround(chars, k - 1);
    EncodeShape(chars[k - 1]);
    var t, a, b := Text(chars), Offset(chars, k - 1), Offset(chars, k);
    forall i | a <= i < b ensures i < |t| && t[i] == Encode(chars[k - 1])[i - a] {
      CharacterAt(t, Text(chars[..k - 1]), Encode(chars[k - 1]), Text(chars[k..]), i);
    }
    BeforeIs(t, a, b);
  }

  lemma WidthIsNext(chars: seq<Scalar>, k: nat)
    requires k < |chars|
    ensures Offset(chars, k) < |Text(chars)|
    ensures Offset(chars, k) + Width(Text(chars)[Offset(chars, k)]) == Offset(chars, k + 1) <= |Text(chars)|
  {
    hide Encode;
    TextAround(chars, k);
    EncodeShape(chars[k]);
  }
}
