/** The base64 codec for stored event payloads (section 4 of RFC 4648), on ASCII bytes. */
module Base64 {
  import opened Bytes
  import opened Options
  import opened Words

  const UPPER := "ABCDEFGHIJKLMNOPQRSTUVWXYZ"
  const LOWER := "abcdefghijklmnopqrstuvwxyz"
  const REST := "0123456789+/"
  const CHARS := UPPER + LOWER + REST

  const PAD: Byte := '=' as int

  // ----- the alphabet

  /** Table 1 of RFC 4648. */
  function Letter(d: nat): Byte
    requires d < 64
  {
    if d < 26 then 'A' as int + d
    else if d < 52 then 'a' as int + (d - 26)
    else if d < 62 then '0' as int + (d - 52)
    else if d == 62 then '+' as int
    else '/' as int
  }

  lemma UpperIs(d: nat)
    requires d < 26
    ensures |UPPER| == 26 && UPPER[d] as int == 'A' as int + d
  {
    match d
    case 0 => case 1 => case 2 => case 3 => case 4 => case 5 => case 6 => case 7 => case 8 =>
    case 9 => case 10 => case 11 => case 12 => case 13 => case 14 => case 15 => case 16 => case 17 =>
    case 18 => case 19 => case 20 => case 21 => case 22 => case 23 => case 24 => case 25 =>
  }

  lemma LowerIs(d: nat)
    requires d < 26
    ensures |LOWER| == 26 && LOWER[d] as int == 'a' as int + d
  {
    match d
    case 0 => case 1 => case 2 => case 3 => case 4 => case 5 => case 6 => case 7 => case 8 =>
    case 9 => case 10 => case 11 => case 12 => case 13 => case 14 => case 15 => case 16 => case 17 =>
    case 18 => case 19 => case 20 => case 21 => case 22 => case 23 => case 24 => case 25 =>
  }

  lemma RestIs(d: nat)
    requires d < 12
    ensures |REST| == 12 && REST[d] as int == Letter(52 + d)
  {
    match d
    case 0 => case 1 => case 2 => case 3 => case 4 => case 5 => case 6 => case 7 => case 8 =>
    case 9 => case 10 => case 11 =>
  }

  lemma CharsAreLetters(d: nat)
    requires d < 64
    ensures |CHARS| == 64 && CHARS[d] as int == Letter(d)
  {
    if d < 26 { UpperIs(d); } else if d < 52 { LowerIs(d - 26); } else { RestIs(d - 52); }
  }

  lemma LetterInjective(a: nat, b: nat)
    requires a < 64 && b < 64 && Letter(a) == Letter(b)
    ensures a == b
  {
  }

  /** `b` is a letter of the alphabet. */
  ghost predicate InAlphabet(b: Byte) {
    exists d :: 0 <= d < 64 && Letter(d) == b
  }

  function Letters(digits: seq<nat>): (text: seq<Byte>)
    requires Digits(64, digits)
    ensures |text| == |digits|
  {
    seq(|digits|, i requires 0 <= i < |digits| => Letter(digits[i]))
  }

  // ----- what an encoding is

  /** The bits of the last letter that encode nothing, as a factor. */
  function Slack(bytes: nat): nat {
    if bytes % 3 == 1 then 16 else if bytes % 3 == 2 then 4 else 1
  }

  function Padding(bytes: nat): seq<Byte> {
    if bytes % 3 == 1 then [PAD, PAD] else if bytes % 3 == 2 then [PAD] else []
  }

  /** The data's bits, with zero bits added to fill the last letter, six at a time. */
  predicate Sextets(data: seq<Byte>, digits: seq<nat>) {
    && Digits(64, digits) && |digits| == (8 * |data| + 5) / 6
    && Num(64, digits) == Num(256, data) * Slack(|data|)
  }

  predicate Encodes(data: seq<Byte>, digits: seq<nat>, text: seq<Byte>) {
    Sextets(data, digits) && text == Letters(digits) + Padding(|data|)
  }

  /** `text` is the base64 form of `data`. */
  ghost predicate IsEncoding(data: seq<Byte>, text: seq<Byte>) {
    exists digits :: Encodes(data, digits, text)
  }

  lemma SextetsUnique(data: seq<Byte>, a: seq<nat>, b: seq<nat>)
    requires Sextets(data, a) && Sextets(data, b)
    ensures a == b
  {
    NumIsInjective(64, a, b);
  }

  /** There is one base64 form, and padding makes its length a multiple of four. */
  lemma OneEncoding(data: seq<Byte>, a: seq<Byte>, b: seq<Byte>)
    requires IsEncoding(data, a) && IsEncoding(data, b)
    ensures a == b && |a| == 4 * ((|data| + 2) / 3)
  {
    hide Sextets, Letters;
    var x :| Encodes(data, x, a);
    var y :| Encodes(data, y, b);
    SextetsUnique(data, x, y);
    EncodedLength(data, x, a);
  }

  lemma EncodedLength(data: seq<Byte>, digits: seq<nat>, text: seq<Byte>)
    requires Encodes(data, digits, text)
    ensures |text| == 4 * ((|data| + 2) / 3)
  {
    hide Num;
    var q := |data| / 3;
    assert |data| == 3 * q + |data| % 3;
  }

  lemma LettersPush(digits: seq<nat>, more: seq<nat>)
    requires Digits(64, digits) && Digits(64, more)
    ensures Digits(64, digits + more) && Letters(digits + more) == Letters(digits) + Letters(more)
  {
  }

  // ----- encoding

  /** The digits of whole chunks. */
  predicate Whole(data: seq<Byte>, digits: seq<nat>) {
    |data| % 3 == 0 && 3 * |digits| == 4 * |data| && Digits(64, digits) && Num(64, digits) == Num(256, data)
  }

  lemma WholeIsSextets(data: seq<Byte>, digits: seq<nat>)
    requires Whole(data, digits)
    ensures Sextets(data, digits)
  {
    hide Num;
  }

  /** The four digits of three bytes. */
  function Quad(n: nat): (q: seq<nat>)
    requires n < 0x100_0000
    ensures |q| == 4
  {
    [n / 0x4_0000, n / 0x1000 % 64, n / 64 % 64, n % 64]
  }

  lemma QuadIs(n: nat)
    requires n < 0x100_0000
    ensures var q := Quad(n); Digits(64, q) && ((q[0] * 64 + q[1]) * 64 + q[2]) * 64 + q[3] == n
  {
    assert n / 64 == n / 0x1000 * 64 + n / 64 % 64;
    assert n / 0x1000 == n / 0x4_0000 * 64 + n / 0x1000 % 64;
  }

  lemma EncodeThree(data: seq<Byte>, digits: seq<nat>, b0: Byte, b1: Byte, b2: Byte)
    requires Whole(data, digits)
    ensures var n := b0 * 0x1_0000 + b1 * 0x100 + b2; Whole(data + [b0, b1, b2], digits + Quad(n))
  {
    hide Num;
    var n := b0 * 0x1_0000 + b1 * 0x100 + b2;
    var q := Quad(n);
    QuadIs(n);
    NumPush4(64, digits, q[0], q[1], q[2], q[3]);
    NumPush3(256, data, b0, b1, b2);
  }

  /** With zero bytes at the end, the last digits say nothing. */
  lemma QuadEnds(b0: Byte, b1: Byte)
    ensures var q := Quad(b0 * 0x1_0000 + b1 * 0x100);
            && q[3] == 0 && (q[0] * 64 + q[1]) * 64 + q[2] == (b0 * 256 + b1) * 4
            && (b1 == 0 ==> q[2] == 0 && q[0] * 64 + q[1] == b0 * 16)
  {
    var n := b0 * 0x1_0000 + b1 * 0x100;
    QuadIs(n);
    assert n == 64 * (b0 * 1024 + b1 * 4);
    if b1 == 0 { assert n == 4096 * (b0 * 16); }
  }

  lemma EncodeTwo(data: seq<Byte>, digits: seq<nat>, b0: Byte, b1: Byte)
    requires Whole(data, digits)
    ensures var n := b0 * 0x1_0000 + b1 * 0x100; Sextets(data + [b0, b1], digits + Quad(n)[..3])
  {
    hide Num, Slack;
    var n := b0 * 0x1_0000 + b1 * 0x100;
    QuadIs(n);
    QuadEnds(b0, b1);
    hide Quad;
    var q := Quad(n);
    assert q[..3] == [q[0], q[1], q[2]];
    NumPush3(64, digits, q[0], q[1], q[2]);
    NumPush2(256, data, b0, b1);
    LastChunk(|data|, |digits|);
  }

  lemma EncodeOne(data: seq<Byte>, digits: seq<nat>, b0: Byte)
    requires Whole(data, digits)
    ensures var n := b0 * 0x1_0000; Sextets(data + [b0], digits + Quad(n)[..2])
  {
    hide Num, Slack;
    var n := b0 * 0x1_0000;
    QuadIs(n);
    QuadEnds(b0, 0);
    hide Quad;
    var q := Quad(n);
    assert q[..2] == [q[0], q[1]];
    NumPush2(64, digits, q[0], q[1]);
    NumPush(256, data, b0);
    LastChunk(|data|, |digits|);
  }

  lemma LastChunk(bytes: nat, digits: nat)
    requires bytes % 3 == 0 && 3 * digits == 4 * bytes
    ensures digits + 2 == (8 * (bytes + 1) + 5) / 6 && Slack(bytes + 1) == 16
    ensures digits + 3 == (8 * (bytes + 2) + 5) / 6 && Slack(bytes + 2) == 4
  {
  }

  function CharAt(d: nat): (b: Byte)
    requires d < 64
    ensures b == Letter(d)
  {
    CharsAreLetters(d);
    CHARS[d] as int
  }

  lemma ChunkOf(data: seq<Byte>, i: nat, len: nat)
    requires i + len <= |data| && 1 <= len <= 3
    ensures data[..i + len] == data[..i] + data[i..i + len]
    ensures len == 1 ==> data[i..i + len] == [data[i]]
    ensures len == 2 ==> data[i..i + len] == [data[i], data[i + 1]]
    ensures len == 3 ==> data[i..i + len] == [data[i], data[i + 1], data[i + 2]]
  {
  }

  /** What a chunk of one, two or three bytes adds. */
  lemma EncodeChunk(data: seq<Byte>, digits: seq<nat>, b0: Byte, b1: Byte, b2: Byte, len: nat)
    requires Whole(data, digits) && 1 <= len <= 3 && (len < 3 ==> b2 == 0) && (len < 2 ==> b1 == 0)
    ensures var n := b0 * 0x1_0000 + b1 * 0x100 + b2;
            && Digits(64, Quad(n)) && Sextets(data + [b0, b1, b2][..len], digits + Quad(n)[..len + 1])
            && (len == 3 ==> Whole(data + [b0, b1, b2][..len], digits + Quad(n)[..len + 1]))
  {
    hide Num, Sextets, Whole;
    var n := b0 * 0x1_0000 + b1 * 0x100 + b2;
    QuadIs(n);
    hide Quad;
    if len == 3 {
      EncodeThree(data, digits, b0, b1, b2);
      WholeIsSextets(data + [b0, b1, b2], digits + Quad(n));
      assert Quad(n)[..4] == Quad(n) && [b0, b1, b2][..3] == [b0, b1, b2];
    } else if len == 2 {
      EncodeTwo(data, digits, b0, b1);
      assert [b0, b1, b2][..2] == [b0, b1];
    } else {
      EncodeOne(data, digits, b0);
      assert [b0, b1, b2][..1] == [b0];
    }
  }

  lemma QuadUnique(n: nat, d0: nat, d1: nat, d2: nat, d3: nat)
    requires d0 < 64 && d1 < 64 && d2 < 64 && d3 < 64 && n == ((d0 * 64 + d1) * 64 + d2) * 64 + d3
    ensures n < 0x100_0000 && Quad(n) == [d0, d1, d2, d3]
  {
    assert n / 64 == (d0 * 64 + d1) * 64 + d2;
    assert n / 0x1000 == d0 * 64 + d1;
  }

  /** What shifts and masks take out of a word. */
  function TakeSextets(n: bv32): seq<nat> {
    [Nat((n >> 18) & 0x3F), Nat((n >> 12) & 0x3F), Nat((n >> 6) & 0x3F), Nat(n & 0x3F)]
  }

  /** The word that three words for bytes are packed into. */
  predicate Packs(n: bv32, w0: bv32, w1: bv32, w2: bv32) {
    n == (w0 << 16) | (w1 << 8) | w2
  }

  lemma PacksBytes(n: bv32, w0: bv32, w1: bv32, w2: bv32)
    requires w0 < 256 && w1 < 256 && w2 < 256 && Packs(n, w0, w1, w2)
    ensures n < 0x100_0000 && Nat(n) == (Nat(w0) * 256 + Nat(w1)) * 256 + Nat(w2)
  {
    hide Nat;
    PackedBytes(w0, w1, w2, n);
  }

  lemma PackedIs(b0: nat, b1: nat, b2: nat, n: bv32)
    requires b0 < 256 && b1 < 256 && b2 < 256 && Packs(n, Word(b0), Word(b1), Word(b2))
    ensures n < 0x100_0000 && Nat(n) == b0 * 0x1_0000 + b1 * 0x100 + b2
  {
    hide Nat, Word, Packs;
    WordIs(b0);
    WordIs(b1);
    WordIs(b2);
    PacksBytes(n, Word(b0), Word(b1), Word(b2));
  }

  lemma TakenIs(n: bv32)
    requires n < 0x100_0000
    ensures Nat(n) < 0x100_0000 && TakeSextets(n) == Quad(Nat(n))
  {
    hide Nat, Quad;
    SextetsOf(n);
    QuadUnique(Nat(n), Nat((n >> 18) & 0x3F), Nat((n >> 12) & 0x3F), Nat((n >> 6) & 0x3F), Nat(n & 0x3F));
  }

  /** The digits that shifts and masks take out of three packed bytes. */
  lemma SextetsOfPacked(b0: nat, b1: nat, b2: nat, n: bv32)
    requires b0 < 256 && b1 < 256 && b2 < 256 && Packs(n, Word(b0), Word(b1), Word(b2))
    ensures TakeSextets(n) == Quad(b0 * 0x1_0000 + b1 * 0x100 + b2)
  {
    hide Nat, Word, Quad, TakeSextets, Packs;
    PackedIs(b0, b1, b2, n);
    TakenIs(n);
  }

  lemma FourCharacters(d: seq<nat>, len: nat)
    requires |d| == 4 && Digits(64, d) && 1 <= len <= 3
    ensures Letters(d[..len + 1]) + Padding(len)
         == [Letter(d[0]), Letter(d[1]), if len > 1 then Letter(d[2]) else PAD, if len > 2 then Letter(d[3]) else PAD]
  {
    hide Letter;
  }

  /** The four characters for a chunk of `len` bytes. */
  method ChunkText(b0: int, b1: int, b2: int, len: nat) returns (text: seq<Byte>)
    requires 0 <= b0 < 256 && 0 <= b1 < 256 && 0 <= b2 < 256 && 1 <= len <= 3
    ensures var n := b0 * 0x1_0000 + b1 * 0x100 + b2;
            Digits(64, Quad(n)) && text == Letters(Quad(n)[..len + 1]) + Padding(len)
  {
    hide Letter, Letters, Padding, Word, Quad, TakeSextets;
    var n := (Word(b0) << 16) | (Word(b1) << 8) | Word(b2);
    SextetsOfPacked(b0, b1, b2, n);
    QuadIs(b0 * 0x1_0000 + b1 * 0x100 + b2);
    var d := TakeSextets(n);
    FourCharacters(d, len);
    text := [CharAt(d[0]), CharAt(d[1])];
    text := text + [if len > 1 then CharAt(d[2]) else PAD];
    text := text + [if len > 2 then CharAt(d[3]) else PAD];
  }

  /** A further chunk of the encoding. */
  lemma EncodesMore(data: seq<Byte>, digits: seq<nat>, text: seq<Byte>, more: seq<Byte>, ds: seq<nat>, chunk: seq<Byte>)
    requires Encodes(data, digits, text) && |data| % 3 == 0 && Digits(64, ds)
    requires Sextets(data + more, digits + ds) && 1 <= |more| <= 3 && chunk == Letters(ds) + Padding(|more|)
    ensures Encodes(data + more, digits + ds, text + chunk)
  {
    hide Num, Slack, Letters;
    LettersPush(digits, ds);
    assert Padding(|data|) == [] && Padding(|data + more|) == Padding(|more|);
    assert text + chunk == Letters(digits) + Letters(ds) + Padding(|more|);
  }

  /** `base64_encode` */
  method Encode(data: seq<Byte>) returns (text: seq<Byte>)
    ensures IsEncoding(data, text)
  {
    hide Num, Quad, Whole, Letters;
    text := [];
    ghost var digits: seq<nat> := [];
    var i := 0;
    WholeNone();
    WholeIsSextets([], []);
    while i < |data|
      invariant 0 <= i <= |data|
      invariant i == |data| || i % 3 == 0
      invariant i % 3 == 0 ==> Whole(data[..i], digits)
      invariant Encodes(data[..i], digits, text)
    {
      hide Encodes, Sextets;
      var len := if |data| - i < 3 then |data| - i else 3;
      var b0 := data[i];
      var b1 := if len > 1 then data[i + 1] else 0;
      var b2 := if len > 2 then data[i + 2] else 0;
      var chunk := ChunkText(b0, b1, b2, len);
      ghost var ds := Quad(b0 as int * 0x1_0000 + b1 as int * 0x100 + b2)[..len + 1];
      EncodeChunk(data[..i], digits, b0, b1, b2, len);
      ChunkOf(data, i, len);
      assert [b0, b1, b2][..len] == data[i..i + len];
      EncodesMore(data[..i], digits, text, data[i..i + len], ds, chunk);
      text, digits := text + chunk, digits + ds;
      i := i + len;
    }
    assert data[..|data|] == data;
  }

  lemma WholeNone()
    ensures Whole([], [])
  {
  }

  // ----- decoding

  datatype Result = Ok(data: seq<Byte>) | BadLength | BadChar(b: Byte)

  /** `trim_end_matches('=')` */
  function Trimmed(input: seq<Byte>): seq<Byte> {
    if input != [] && input[|input| - 1] == PAD then Trimmed(input[..|input| - 1]) else input
  }

  /** The data is what the digits stand for, without the last digit's unused bits. */
  predicate Fits(digits: seq<nat>, data: seq<Byte>) {
    && Digits(64, digits) && |data| == 3 * |digits| / 4
    && Num(256, data) == Num(64, digits) / Slack(|data|)
  }

  /** `b` is the first byte that is not a letter. */
  ghost predicate FirstBad(text: seq<Byte>, b: Byte) {
    exists i :: 0 <= i < |text| && text[i] == b && !InAlphabet(b) && forall j :: 0 <= j < i ==> InAlphabet(text[j])
  }

  ghost predicate Decodes(input: seq<Byte>, digits: seq<nat>, r: Result) {
    var text := Trimmed(input);
    match r
    case BadLength => |text| % 4 == 1
    case BadChar(b) => |text| % 4 != 1 && FirstBad(text, b)
    case Ok(data) => |text| % 4 != 1 && Fits(digits, data) && text == Letters(digits)
  }

  /** `r` is what decoding the input gives. */
  ghost predicate IsDecoding(input: seq<Byte>, r: Result) {
    exists digits :: Decodes(input, digits, r)
  }

  /** The table gives each letter its digit and everything else 255. */
  ghost predicate IsTable(table: seq<Byte>) {
    && |table| == 128
    && forall b :: 0 <= b < 128 ==> if table[b] == 255 then !InAlphabet(b) else table[b] < 64 && Letter(table[b]) == b
  }

  method DecodeTable() returns (table: seq<Byte>)
    ensures IsTable(table)
  {
    table := seq(128, _ => 255);
    var i := 0;
    while i < 64
      invariant 0 <= i <= 64 && |table| == 128
      invariant forall d :: 0 <= d < i ==> table[Letter(d)] == d
      invariant forall b :: 0 <= b < 128 ==> table[b] == 255 || (table[b] < i && Letter(table[b]) == b)
    {
      forall d | 0 <= d < i && Letter(d) == Letter(i) ensures false { LetterInjective(d, i); }
      table := table[CharAt(i) := i];
      i := i + 1;
    }
  }

  /** Digits in the places of a 24-bit word, from the top. */
  function Collected(ds: seq<nat>): nat
    requires |ds| <= 4
  {
    (if |ds| > 0 then ds[0] * 0x4_0000 else 0) + (if |ds| > 1 then ds[1] * 0x1000 else 0)
    + (if |ds| > 2 then ds[2] * 64 else 0) + if |ds| > 3 then ds[3] else 0
  }

  /** The bytes of a word. */
  function Triple(n: nat): (t: seq<Byte>)
    ensures |t| == 3
  {
    [n / 0x1_0000 % 256, n / 256 % 256, n % 256]
  }

  lemma TripleIs(n: nat)
    requires n < 0x100_0000
    ensures var t := Triple(n); (t[0] as int * 256 + t[1]) * 256 + t[2] == n
  {
    assert n / 256 == n / 0x1_0000 * 256 + n / 256 % 256;
  }

  lemma DecodeFour(data: seq<Byte>, digits: seq<nat>, ds: seq<nat>)
    requires Whole(data, digits) && Digits(64, ds) && |ds| == 4
    ensures Whole(data + Triple(Collected(ds)), digits + ds)
  {
    hide Num;
    var n := Collected(ds);
    assert n < 0x100_0000;
    TripleIs(n);
    var t := Triple(n);
    assert ds == [ds[0], ds[1], ds[2], ds[3]] && t == [t[0], t[1], t[2]];
    NumPush4(64, digits, ds[0], ds[1], ds[2], ds[3]);
    NumPush3(256, data, t[0], t[1], t[2]);
    hide Triple;
  }

  lemma WholeFits(data: seq<Byte>, digits: seq<nat>)
    requires Whole(data, digits)
    ensures Fits(digits, data)
  {
    hide Num;
  }

  lemma LastLetters(bytes: nat, digits: nat)
    requires bytes % 3 == 0 && 3 * digits == 4 * bytes
    ensures bytes + 1 == 3 * (digits + 2) / 4 && Slack(bytes + 1) == 16
    ensures bytes + 2 == 3 * (digits + 3) / 4 && Slack(bytes + 2) == 4
  {
  }

  lemma TopBytes(m: nat)
    requires m < 0x4_0000
    ensures var t := Triple(m * 64); t[0] as int * 256 + t[1] == m / 4
    ensures m < 0x1000 ==> Triple(m * 0x1000)[0] == m / 16
  {
    var n := m * 64;
    assert n / 0x100 == m / 4;
    assert n / 0x1_0000 == m / 4 / 256 < 256;
  }

  lemma DecodeThree(data: seq<Byte>, digits: seq<nat>, ds: seq<nat>)
    requires Whole(data, digits) && Digits(64, ds) && |ds| == 3
    ensures Fits(digits + ds, data + Triple(Collected(ds))[..2])
  {
    hide Num, Slack, Triple;
    var m := (ds[0] * 64 + ds[1]) * 64 + ds[2];
    assert Collected(ds) == m * 64;
    hide Collected;
    TopBytes(m);
    var t := Triple(m * 64);
    assert ds == [ds[0], ds[1], ds[2]] && t[..2] == [t[0], t[1]];
    NumPush3(64, digits, ds[0], ds[1], ds[2]);
    NumPush2(256, data, t[0], t[1]);
    LastLetters(|data|, |digits|);
  }

  lemma DecodeTwo(data: seq<Byte>, digits: seq<nat>, ds: seq<nat>)
    requires Whole(data, digits) && Digits(64, ds) && |ds| == 2
    ensures Fits(digits + ds, data + Triple(Collected(ds))[..1])
  {
    hide Num, Slack, Triple;
    var m := ds[0] * 64 + ds[1];
    assert Collected(ds) == m * 0x1000;
    hide Collected;
    TopBytes(m);
    var t := Triple(m * 0x1000);
    assert ds == [ds[0], ds[1]] && t[..1] == [t[0]];
    NumPush2(64, digits, ds[0], ds[1]);
    NumPush(256, data, t[0]);
    LastLetters(|data|, |digits|);
  }

  lemma DecodeChunk(data: seq<Byte>, digits: seq<nat>, ds: seq<nat>)
    requires Whole(data, digits) && Digits(64, ds) && 2 <= |ds| <= 4
    ensures Fits(digits + ds, data + Triple(Collected(ds))[..|ds| - 1])
    ensures |ds| == 4 ==> Whole(data + Triple(Collected(ds))[..|ds| - 1], digits + ds)
  {
    hide Num, Fits, Whole, Collected, Triple;
    if |ds| == 4 {
      DecodeFour(data, digits, ds);
      WholeFits(data + Triple(Collected(ds)), digits + ds);
      assert Triple(Collected(ds))[..3] == Triple(Collected(ds));
    } else if |ds| == 3 {
      DecodeThree(data, digits, ds);
    } else {
      DecodeTwo(data, digits, ds);
    }
  }

  /** A digit in its place: a shift by `18 - 6 * i`. */
  function Shifted(w: bv32, i: nat): bv32
    requires i < 4
  {
    if i == 0 then w << 18 else if i == 1 then w << 12 else if i == 2 then w << 6 else w
  }

  /** The word that `|=` accumulates from a chunk's digits. */
  function Accumulated(ds: seq<nat>): bv32
    requires Digits(64, ds) && |ds| <= 4
  {
    if ds == [] then 0
    else var k := |ds| - 1; Accumulated(ds[..k]) | Shifted(Word(ds[k]), k)
  }

  lemma AccumulateMore(ds: seq<nat>, d: nat)
    requires Digits(64, ds) && d < 64 && |ds| < 4
    ensures Digits(64, ds + [d]) && Accumulated(ds + [d]) == Accumulated(ds) | Shifted(Word(d), |ds|)
  {
    hide Word, Shifted;
    assert (ds + [d])[..|ds|] == ds;
  }

  lemma FromNothing(w: bv32)
    ensures 0 | (w << 18) == w << 18
  {
  }

  lemma WithNothing(a: bv32, b: bv32, c: bv32)
    ensures a == a | (0 as bv32 << 12) | (0 as bv32 << 6) | 0
    ensures a | b == a | b | (0 as bv32 << 6) | 0
    ensures a | b | c == a | b | c | 0
  {
  }

  lemma WordOfDigit(d: nat)
    requires d < 64
    ensures Word(d) < 64 && Nat(Word(d)) == d
  {
    hide Nat, Word;
    WordIs(d);
  }

  lemma Accumulated1(ds: seq<nat>)
    requires Digits(64, ds) && 1 <= |ds| <= 4
    ensures Accumulated(ds[..1]) == Word(ds[0]) << 18
  {
    hide Word;
    AccumulateMore([], ds[0]);
    assert ds[..1] == [] + [ds[0]];
    FromNothing(Word(ds[0]));
  }

  lemma Accumulated2(ds: seq<nat>)
    requires Digits(64, ds) && 2 <= |ds| <= 4
    ensures Accumulated(ds[..2]) == (Word(ds[0]) << 18) | (Word(ds[1]) << 12)
  {
    hide Word, Accumulated;
    Accumulated1(ds);
    AccumulateMore(ds[..1], ds[1]);
    assert ds[..2] == ds[..1] + [ds[1]];
  }

  lemma Accumulated3(ds: seq<nat>)
    requires Digits(64, ds) && 3 <= |ds| <= 4
    ensures Accumulated(ds[..3]) == (Word(ds[0]) << 18) | (Word(ds[1]) << 12) | (Word(ds[2]) << 6)
  {
    hide Word, Accumulated;
    Accumulated2(ds);
    AccumulateMore(ds[..2], ds[2]);
    assert ds[..3] == ds[..2] + [ds[2]];
  }

  lemma Accumulated4(ds: seq<nat>)
    requires Digits(64, ds) && |ds| == 4
    ensures Accumulated(ds) == (Word(ds[0]) << 18) | (Word(ds[1]) << 12) | (Word(ds[2]) << 6) | Word(ds[3])
  {
    hide Word, Accumulated;
    Accumulated3(ds);
    AccumulateMore(ds[..3], ds[3]);
    assert ds == ds[..3] + [ds[3]];
  }

  lemma AccumulatedTwo(ds: seq<nat>, n: bv32)
    requires Digits(64, ds) && |ds| == 2 && n == Accumulated(ds)
    ensures n < 0x100_0000 && Nat(n) == ((ds[0] * 64 + ds[1]) * 64 + 0) * 64 + 0
  {
    hide Nat, Word, Accumulated;
    NatOne();
    WordOfDigit(ds[0]);
    WordOfDigit(ds[1]);
    Accumulated2(ds);
    assert ds[..2] == ds;
    var w0, w1 := Word(ds[0]), Word(ds[1]);
    WithNothing(w0 << 18, w1 << 12, 0);
    PackedSextets(w0, w1, 0, 0, n);
  }

  lemma AccumulatedThree(ds: seq<nat>, n: bv32)
    requires Digits(64, ds) && |ds| == 3 && n == Accumulated(ds)
    ensures n < 0x100_0000 && Nat(n) == ((ds[0] * 64 + ds[1]) * 64 + ds[2]) * 64 + 0
  {
    hide Nat, Word, Accumulated;
    NatOne();
    WordOfDigit(ds[0]);
    WordOfDigit(ds[1]);
    WordOfDigit(ds[2]);
    Accumulated3(ds);
    assert ds[..3] == ds;
    var w0, w1, w2 := Word(ds[0]), Word(ds[1]), Word(ds[2]);
    WithNothing(w0 << 18, w1 << 12, w2 << 6);
    PackedSextets(w0, w1, w2, 0, n);
  }

  lemma AccumulatedFour(ds: seq<nat>, n: bv32)
    requires Digits(64, ds) && |ds| == 4 && n == Accumulated(ds)
    ensures n < 0x100_0000 && Nat(n) == ((ds[0] * 64 + ds[1]) * 64 + ds[2]) * 64 + ds[3]
  {
    hide Nat, Word, Accumulated;
    WordOfDigit(ds[0]);
    WordOfDigit(ds[1]);
    WordOfDigit(ds[2]);
    WordOfDigit(ds[3]);
    Accumulated4(ds);
    PackedSextets(Word(ds[0]), Word(ds[1]), Word(ds[2]), Word(ds[3]), n);
  }

  /** The accumulated word stands for what its digits add up to. */
  lemma AccumulatedIs(ds: seq<nat>, n: bv32)
    requires Digits(64, ds) && 2 <= |ds| <= 4 && n == Accumulated(ds)
    ensures n < 0x100_0000 && Nat(n) == Collected(ds)
  {
    hide Nat, Word, Accumulated;
    if |ds| == 2 {
      AccumulatedTwo(ds, n);
    } else if |ds| == 3 {
      AccumulatedThree(ds, n);
    } else {
      AccumulatedFour(ds, n);
    }
  }

  /** The digits of a chunk, collected in a word; or the first byte of it that is not a letter. */
  method Collect(table: seq<Byte>, chunk: seq<Byte>) returns (n: bv32, bad: Option<Byte>, ghost ds: seq<nat>)
    requires IsTable(table) && |chunk| <= 4
    ensures bad.Some? ==> FirstBad(chunk, bad.value)
    ensures bad.None? ==> Digits(64, ds) && chunk == Letters(ds) && n == Accumulated(ds)
  {
    hide Accumulated, Shifted, Word, Nat;
    n, ds, bad := 0, [], None;
    AccumulatedNone();
    for i := 0 to |chunk|
      invariant |ds| == i && Digits(64, ds) && chunk[..i] == Letters(ds) && n == Accumulated(ds)
    {
      var b := chunk[i];
      forall j | 0 <= j < i ensures InAlphabet(chunk[j]) { assert chunk[j] == chunk[..i][j] == Letter(ds[j]); }
      if b >= 128 || table[b] == 255 {
        BeyondAscii();
        bad := Some(b);
        return;
      }
      AccumulateMore(ds, table[b]);
      LettersPush(ds, [table[b]]);
      assert Letters([table[b]]) == [b] && chunk[..i + 1] == chunk[..i] + [b];
      n := n | Shifted(Word(table[b]), i);
      ds := ds + [table[b]];
    }
    assert chunk[..|chunk|] == chunk;
  }

  lemma AccumulatedNone()
    ensures Accumulated([]) == 0
  {
  }

  lemma TripleUnique(n: nat, b0: nat, b1: nat, b2: nat)
    requires b0 < 256 && b1 < 256 && b2 < 256 && n == (b0 * 256 + b1) * 256 + b2
    ensures Triple(n) == [b0, b1, b2]
  {
    assert n / 256 == b0 * 256 + b1;
    assert n / 0x1_0000 == b0;
  }

  /** What shifts and masks take out of a word, a byte at a time. */
  function TakeBytes(n: bv32): seq<nat> {
    [Nat((n >> 16) & 0xFF), Nat((n >> 8) & 0xFF), Nat(n & 0xFF)]
  }

  lemma TakenBytes(n: bv32)
    requires n < 0x100_0000
    ensures TakeBytes(n) == Triple(Nat(n))
  {
    hide Nat, Triple;
    BytesOf(n);
    TripleUnique(Nat(n), Nat((n >> 16) & 0xFF), Nat((n >> 8) & 0xFF), Nat(n & 0xFF));
  }

  /** The bytes of a word that `letters` letters stand for. */
  method WordBytes(n: bv32, letters: nat) returns (data: seq<Byte>)
    requires n < 0x100_0000 && 2 <= letters <= 4
    ensures data == Triple(Nat(n))[..letters - 1]
  {
    hide Nat, Triple, TakeBytes;
    TakenBytes(n);
    var b := TakeBytes(n);
    data := [b[0]];
    if letters > 2 {
      data := data + [b[1]];
    }
    if letters > 3 {
      data := data + [b[2]];
    }
    assert data == Triple(Nat(n))[..letters - 1];
  }

  lemma BeyondAscii()
    ensures forall b: Byte :: b >= 128 ==> !InAlphabet(b)
  {
  }

  /** `base64_decode` */
  method Decode(input: seq<Byte>) returns (r: Result)
    ensures IsDecoding(input, r)
  {
    hide Num, Whole, Fits, Letters, FirstBad, IsTable, Collected, Triple, Nat, Accumulated;
    var table := DecodeTable();
    ghost var digits: seq<nat> := [];
    var text := Trimmed(input);
    if |text| % 4 == 1 {
      assert Decodes(input, [], BadLength);
      return BadLength;
    }
    var data: seq<Byte> := [];
    var i := 0;
    WholeNone();
    WholeFits([], []);
    LettersNone();
    while i < |text|
      invariant 0 <= i <= |text| && (i == |text| || i % 4 == 0)
      invariant i % 4 == 0 ==> Whole(data, digits)
      invariant Digits(64, digits) && Fits(digits, data) && text[..i] == Letters(digits)
    {
      var len := if |text| - i < 4 then |text| - i else 4;
      var chunk := text[i..i + len];
      ghost var ds;
      var n, bad;
      n, bad, ds := Collect(table, chunk);
      if bad.Some? {
        BadInChunk(text, digits, i, len, bad.value);
        assert Decodes(input, [], BadChar(bad.value));
        return BadChar(bad.value);
      }
      AccumulatedIs(ds, n);
      DecodeChunk(data, digits, ds);
      LettersPush(digits, ds);
      assert text[..i + len] == text[..i] + chunk;
      var bytes := WordBytes(n, len);
      data := data + bytes;
      digits := digits + ds;
      i := i + len;
    }
    assert text[..|text|] == text;
    r := Ok(data);
    assert Decodes(input, digits, r);
  }

  lemma LettersNone()
    ensures Letters([]) == []
  {
  }

  lemma BadInChunk(text: seq<Byte>, digits: seq<nat>, i: nat, len: nat, b: Byte)
    requires i + len <= |text| && Digits(64, digits) && text[..i] == Letters(digits) && FirstBad(text[i..i + len], b)
    ensures FirstBad(text, b)
  {
    var chunk := text[i..i + len];
    var k :| 0 <= k < |chunk| && chunk[k] == b && !InAlphabet(b) && forall j :: 0 <= j < k ==> InAlphabet(chunk[j]);
    forall j | 0 <= j < i + k ensures InAlphabet(text[j]) {
      if j < i {
        assert text[j] == text[..i][j] == Letter(digits[j]);
      } else {
        assert text[j] == chunk[j - i];
      }
    }
  }

  // ----- round trips

  lemma {:induction false} TrimPadding(text: seq<Byte>, padding: nat)
    requires text == [] || text[|text| - 1] != PAD
    ensures Trimmed(text + seq(padding, _ => PAD)) == text
  {
    var padded := text + seq(padding, _ => PAD);
    if padding == 0 {
      assert padded == text;
    } else {
      TrimPadding(text, padding - 1);
      assert padded[..|padded| - 1] == text + seq(padding - 1, _ => PAD);
    }
  }

  lemma TrimEncoded(data: seq<Byte>, digits: seq<nat>, text: seq<Byte>)
    requires Encodes(data, digits, text)
    ensures Trimmed(text) == Letters(digits)
  {
    hide Num, Slack, Trimmed;
    var padding := Padding(|data|);
    assert padding == seq(|padding|, _ => PAD);
    TrimPadding(Letters(digits), |padding|);
  }

  lemma EncodedCounts(bytes: nat)
    ensures var letters := (8 * bytes + 5) / 6; letters % 4 != 1 && 3 * letters / 4 == bytes
  {
    var q := bytes / 3;
    assert bytes == 3 * q || bytes == 3 * q + 1 || bytes == 3 * q + 2;
  }

  /** Every letter is in the alphabet, so the first bad byte is not among them. */
  lemma LettersAreGood(digits: seq<nat>, b: Byte)
    requires Digits(64, digits)
    ensures !FirstBad(Letters(digits), b)
  {
  }

  /** Decoding an encoding gives the data back, for all data. */
  lemma RoundTrip(data: seq<Byte>, text: seq<Byte>, r: Result)
    requires IsEncoding(data, text) && IsDecoding(text, r)
    ensures r == Ok(data)
  {
    hide Num, Trimmed, FirstBad;
    var digits :| Encodes(data, digits, text);
    var others :| Decodes(text, others, r);
    TrimEncoded(data, digits, text);
    EncodedCounts(|data|);
    if r.BadChar? { LettersAreGood(digits, r.b); }
    assert r.Ok?;
    SameLetters(digits, others);
    NumIsInjective(256, r.data, data);
  }

  lemma SameLetters(a: seq<nat>, b: seq<nat>)
    requires Digits(64, a) && Digits(64, b) && Letters(a) == Letters(b)
    ensures a == b
  {
    assert |a| == |Letters(a)| == |b|;
    forall i | 0 <= i < |a| ensures a[i] == b[i] {
      assert Letters(a)[i] == Letters(b)[i];
      LetterInjective(a[i], b[i]);
    }
  }

  /** The digits with the unused bits of the last one set to zero. */
  function Canonical(digits: seq<nat>): seq<nat> {
    if digits == [] then []
    else
      var n := |digits| - 1;
      digits[..n] + [digits[n] - digits[n] % Slack(3 * |digits| / 4)]
  }

  /** An accepted string encodes again to its padded form, with the unused bits of its last letter zero. */
  lemma EncodeDecoded(input: seq<Byte>, data: seq<Byte>, text: seq<Byte>) returns (digits: seq<nat>)
    requires IsDecoding(input, Ok(data)) && IsEncoding(data, text)
    ensures |data| == 3 * |Trimmed(input)| / 4
    ensures Digits(64, digits) && Trimmed(input) == Letters(digits) && Digits(64, Canonical(digits))
    ensures text == Letters(Canonical(digits)) + Padding(|data|)
  {
    hide Num, Trimmed;
    digits :| Decodes(input, digits, Ok(data));
    var again :| Encodes(data, again, text);
    CanonicalIs(digits, data);
    SextetsUnique(data, again, Canonical(digits));
  }

  lemma CanonicalIs(digits: seq<nat>, data: seq<Byte>)
    requires Fits(digits, data) && |digits| % 4 != 1
    ensures Sextets(data, Canonical(digits))
  {
    DecodedCounts(|digits|);
    if digits != [] {
      var n, s := |digits| - 1, Slack(|data|);
      var front, last := digits[..n], digits[n];
      NumPush(64, front, last - last % s);
      assert Num(64, digits) == Num(64, front) * 64 + last;
      hide Num;
      RoundDown(Num(64, front), last, s);
    }
  }

  lemma RoundDown(a: nat, last: nat, s: nat)
    requires s == 16 || s == 4 || s == 1
    ensures (a * 64 + last) / s * s == a * 64 + (last - last % s)
  {
    if s == 16 {
      assert (a * 64 + last) / 16 == a * 4 + last / 16;
    } else if s == 4 {
      assert (a * 64 + last) / 4 == a * 16 + last / 4;
    }
  }

  lemma DecodedCounts(letters: nat)
    requires letters % 4 != 1
    ensures var bytes := 3 * letters / 4; (8 * bytes + 5) / 6 == letters
  {
    var q := letters / 4;
    assert letters == 4 * q || letters == 4 * q + 2 || letters == 4 * q + 3;
    assert 3 * letters / 4 == if letters == 4 * q then 3 * q else if letters == 4 * q + 2 then 3 * q + 1 else 3 * q + 2;
  }

  /** Exactly the strings of letters, padding aside, whose length can be one are accepted. */
  lemma AcceptedExactly(input: seq<Byte>, r: Result)
    requires IsDecoding(input, r)
    ensures r.Ok? <==> |Trimmed(input)| % 4 != 1 && forall i :: 0 <= i < |Trimmed(input)| ==> InAlphabet(Trimmed(input)[i])
  {
    hide Num, Trimmed;
    var digits :| Decodes(input, digits, r);
    if r.Ok? {
      forall i | 0 <= i < |Trimmed(input)| ensures InAlphabet(Trimmed(input)[i]) {
        assert Trimmed(input)[i] == Letter(digits[i]);
      }
    }
  }
}
