/** The input line's word wrapping: where `compute_word_wrap_breaks` starts each new line. */
module WordWrap {

  newtype U16 = x: int | 0 <= x < 0x1_0000

  /** A character as the wrapper sees it: its display width, its UTF-8 length, and whether it is whitespace. */
  datatype Glyph = Glyph(width: nat, bytes: nat, blank: bool)

  /** A position in the text, by character and by byte. */
  datatype Mark = Mark(index: nat, offset: nat)

  datatype Token = Token(start: Mark, end: Mark, width: U16, blank: bool)

  /** Display width of the characters from `a` up to, but not including, `b`. */
  function Span(text: seq<Glyph>, a: nat, b: nat): nat
    requires a <= b <= |text|
    decreases b
  {
    if a == b then 0 else Span(text, a, b - 1) + text[b - 1].width
  }

  /** Byte offset of the character with index `k`. */
  function Offset(text: seq<Glyph>, k: nat): nat
    requires k <= |text|
  {
    if k == 0 then 0 else Offset(text, k - 1) + text[k - 1].bytes
  }

  predicate Encoded(text: seq<Glyph>) {
    forall k :: 0 <= k < |text| ==> text[k].bytes >= 1
  }

  /** The widths of the whole text can be added up in 16 bits. */
  predicate Measurable(text: seq<Glyph>) {
    Span(text, 0, |text|) < 0x1_0000
  }

  lemma {:induction false} SpanSplit(text: seq<Glyph>, a: nat, b: nat, c: nat)
    requires a <= b <= c <= |text|
    ensures Span(text, a, c) == Span(text, a, b) + Span(text, b, c)
    decreases c
  {
    if b < c {
      SpanSplit(text, a, b, c - 1);
    }
  }

  lemma SpanWithin(text: seq<Glyph>, a: nat, b: nat)
    requires a <= b <= |text|
    ensures Span(text, a, b) <= Span(text, 0, |text|)
  {
    SpanSplit(text, 0, a, b);
    SpanSplit(text, 0, b, |text|);
  }

  lemma {:induction false} OffsetIncreases(text: seq<Glyph>, a: nat, b: nat)
    requires Encoded(text) && a < b <= |text|
    ensures Offset(text, a) < Offset(text, b)
    decreases b
  {
    if a < b - 1 {
      OffsetIncreases(text, a, b - 1);
    }
  }

  // ----- runs of whitespace and words

  /** End of the run of equally blank characters that contains `k`. */
  function RunEnd(text: seq<Glyph>, k: nat): (e: nat)
    requires k < |text|
    ensures k < e <= |text|
    ensures forall j :: k <= j < e ==> text[j].blank == text[k].blank
    ensures e < |text| ==> text[e].blank != text[k].blank
    decreases |text| - k
  {
    if k + 1 < |text| && text[k + 1].blank == text[k].blank then RunEnd(text, k + 1) else k + 1
  }

  /** Start of the run of equally blank characters that contains `k`. */
  function RunStart(text: seq<Glyph>, k: nat): (s: nat)
    requires k < |text|
    ensures s <= k
    ensures forall j :: s <= j <= k ==> text[j].blank == text[k].blank
    ensures s > 0 ==> text[s - 1].blank != text[k].blank
  {
    if k > 0 && text[k - 1].blank == text[k].blank then RunStart(text, k - 1) else k
  }

  // ----- what a line break is

  /**
   * A break inside a run of whitespace: the first whitespace character is consumed by the line
   * it ends, the rest indents the next line, and the word after it would not have fitted.
   */
  predicate BlankCut(text: seq<Glyph>, max: nat, a: nat, b: nat) {
    && 0 < b < |text| && text[b].blank && text[b - 1].blank
    && RunStart(text, b) == b - 1
    && a <= b - 1 && Span(text, a, b - 1) > 0
    && RunEnd(text, b) < |text|
    && Span(text, b - 1, RunEnd(text, b)) > 1
    && Span(text, a, RunEnd(text, RunEnd(text, b))) > max
  }

  /**
   * A break before a word that would not have fitted. Whitespace of more than one character
   * before the word is split by a BlankCut instead, unless the line has nothing before it.
   */
  predicate WordCut(text: seq<Glyph>, max: nat, a: nat, b: nat) {
    && 0 < b < |text| && !text[b].blank && text[b - 1].blank
    && a < b && Span(text, a, b) > 0
    && Span(text, a, RunEnd(text, b)) > max
    && var s := RunStart(text, b - 1);
       b - s <= 1 || Span(text, s, b) <= 1 || a >= s || Span(text, a, s) == 0
  }

  /**
   * A break inside a word that is wider than a whole line; the word has the line to itself
   * and the character after the break would not have fitted.
   */
  predicate GlyphCut(text: seq<Glyph>, max: nat, a: nat, b: nat) {
    && a <= b < |text| && !text[b].blank
    && Span(text, RunStart(text, b), RunEnd(text, b)) > max
    && (a >= RunStart(text, b) || Span(text, a, RunStart(text, b)) == 0)
    && Span(text, a, b + 1) > max
    && (if b == RunStart(text, b) then text[b].width > max else a < b)
  }

  /** `b` is a break that may end the line that starts at `a`. */
  predicate Cut(text: seq<Glyph>, max: nat, a: nat, b: nat) {
    BlankCut(text, max, a, b) || WordCut(text, max, a, b) || GlyphCut(text, max, a, b)
  }

  /** Where line `k` starts: at the beginning for line 0, otherwise at the break before it. */
  function LineStart(cuts: seq<nat>, k: nat): nat
    requires k <= |cuts|
  {
    if k == 0 then 0 else cuts[k - 1]
  }

  function LineEnd(text: seq<Glyph>, cuts: seq<nat>, k: nat): nat
    requires k <= |cuts|
  {
    if k == |cuts| then |text| else cuts[k]
  }

  /** Every break is one that its line calls for. */
  predicate Wrapped(text: seq<Glyph>, max: nat, cuts: seq<nat>) {
    forall k :: 0 <= k < |cuts| ==> Cut(text, max, LineStart(cuts, k), cuts[k])
  }

  /** The end of the line from `a` to `b` once its trailing whitespace is dropped. */
  function Trimmed(text: seq<Glyph>, a: nat, b: nat): (f: nat)
    requires a <= b <= |text|
    ensures a <= f <= b
    ensures f > a ==> !text[f - 1].blank
    ensures forall j :: f <= j < b ==> text[j].blank
    decreases b
  {
    if a == b || !text[b - 1].blank then b else Trimmed(text, a, b - 1)
  }

  predicate LineFits(text: seq<Glyph>, max: nat, a: nat, b: nat) {
    a <= b <= |text| && Span(text, a, Trimmed(text, a, b)) <= max
  }

  predicate LinesFit(text: seq<Glyph>, max: nat, cuts: seq<nat>) {
    forall k :: 0 <= k <= |cuts| ==> LineFits(text, max, LineStart(cuts, k), LineEnd(text, cuts, k))
  }

  /** The line fits, or it is a single character that is wider than a line. */
  predicate LineOk(text: seq<Glyph>, max: nat, a: nat, b: nat) {
    && a <= b <= |text|
    && var f := Trimmed(text, a, b);
       Span(text, a, f) <= max || (f == a + 1 && text[a].width > max)
  }

  predicate LinesOk(text: seq<Glyph>, max: nat, cuts: seq<nat>) {
    forall k :: 0 <= k <= |cuts| ==> LineOk(text, max, LineStart(cuts, k), LineEnd(text, cuts, k))
  }

  /** A word that starts at `k` with a character wider than a line. */
  predicate WideStart(text: seq<Glyph>, max: nat, k: nat) {
    k < |text| && !text[k].blank && text[k].width > max && (k == 0 || text[k - 1].blank)
  }

  predicate MarkAt(text: seq<Glyph>, cuts: seq<nat>, k: nat, j: nat) {
    j < |cuts| && cuts[j] == k <= |text| && LineStart(cuts, j) <= k && Span(text, LineStart(cuts, j), k) == 0
  }

  /** Before each such word comes a line that shows nothing. */
  ghost predicate Marked(text: seq<Glyph>, max: nat, cuts: seq<nat>, p: nat) {
    forall k :: 0 <= k < p && WideStart(text, max, k) ==> exists j: nat :: MarkAt(text, cuts, k, j)
  }

  /** An empty line comes only after a line that shows something. */
  predicate NoExcess(text: seq<Glyph>, cuts: seq<nat>) {
    forall j :: 0 <= j < |cuts| - 1 && cuts[j + 1] == cuts[j] ==> Shows(text, LineStart(cuts, j), cuts[j])
  }

  predicate Shows(text: seq<Glyph>, a: nat, b: nat) {
    a <= b <= |text| && Span(text, a, b) > 0
  }

  /** Every break has a reason, every line that can fit does, and no line is empty without need. */
  ghost predicate WellWrapped(text: seq<Glyph>, max: nat, cuts: seq<nat>) {
    Wrapped(text, max, cuts) && LinesOk(text, max, cuts) && Marked(text, max, cuts, |text|) && NoExcess(text, cuts)
  }

  /** No character of any word is wider than a whole line. */
  predicate Narrow(text: seq<Glyph>, max: nat) {
    forall k :: 0 <= k < |text| && !text[k].blank ==> text[k].width <= max
  }

  /** The byte offsets of a sequence of breaks. */
  predicate AtOffsets(text: seq<Glyph>, cuts: seq<nat>, breaks: seq<nat>) {
    && |breaks| == |cuts|
    && forall k :: 0 <= k < |cuts| ==> cuts[k] <= |text| && breaks[k] == Offset(text, cuts[k])
  }

  // ----- splitting into tokens

  predicate TokenAt(text: seq<Glyph>, t: Token) {
    && t.start.index < t.end.index <= |text|
    && t.start.offset == Offset(text, t.start.index)
    && t.end.offset == Offset(text, t.end.index)
    && t.width as int == Span(text, t.start.index, t.end.index)
    && forall k :: t.start.index <= k < t.end.index ==> text[k].blank == t.blank
  }

  /** The tokens tile the text from its start up to `end`, whitespace and words taking turns. */
  predicate Tiles(text: seq<Glyph>, tokens: seq<Token>, end: nat) {
    && (tokens == [] ==> end == 0)
    && (tokens != [] ==> tokens[0].start.index == 0 && tokens[|tokens| - 1].end.index == end)
    && (forall k :: 0 <= k < |tokens| ==> TokenAt(text, tokens[k]))
    && (forall k :: 0 <= k < |tokens| - 1 ==> tokens[k].end == tokens[k + 1].start)
    && (forall k :: 0 <= k < |tokens| - 1 ==> tokens[k].blank != tokens[k + 1].blank)
  }

  /** The last token still being read: it starts where the finished ones end. */
  datatype Open = Open(start: Mark, width: U16, blank: bool)

  predicate OpenAt(text: seq<Glyph>, tokens: seq<Token>, open: Open, i: nat)
    requires 0 < i <= |text|
  {
    && open.start.index < i
    && open.start.offset == Offset(text, open.start.index)
    && open.width as int == Span(text, open.start.index, i)
    && (forall k :: open.start.index <= k < i ==> text[k].blank == open.blank)
    && Tiles(text, tokens, open.start.index)
    && (tokens != [] ==> tokens[|tokens| - 1].end == open.start && tokens[|tokens| - 1].blank != open.blank)
  }

  lemma CloseToken(text: seq<Glyph>, tokens: seq<Token>, open: Open, i: nat)
    requires 0 < i <= |text| && OpenAt(text, tokens, open, i)
    ensures Tiles(text, tokens + [Token(open.start, Mark(i, Offset(text, i)), open.width, open.blank)], i)
  {
  }

  method Tokenize(text: seq<Glyph>) returns (tokens: seq<Token>)
    requires Measurable(text)
    ensures Tiles(text, tokens, |text|)
  {
    tokens := [];
    if text == [] { return; }
    SpanWithin(text, 0, 1);
    var open := Open(Mark(0, 0), text[0].width as U16, text[0].blank);
    var offset := text[0].bytes;
    for i := 1 to |text|
      invariant offset == Offset(text, i)
      invariant OpenAt(text, tokens, open, i)
    {
      SpanWithin(text, i, i + 1);
      SpanWithin(text, open.start.index, i + 1);
      var width := text[i].width as U16;
      if open.blank == text[i].blank {
        open := open.(width := open.width + width);
      } else {
        CloseToken(text, tokens, open, i);
        tokens := tokens + [Token(open.start, Mark(i, offset), open.width, open.blank)];
        open := Open(Mark(i, offset), width, text[i].blank);
      }
      offset := offset + text[i].bytes;
    }
    CloseToken(text, tokens, open, |text|);
    tokens := tokens + [Token(open.start, Mark(|text|, offset), open.width, open.blank)];
  }

  // ----- wrapping

  lemma {:induction false} RunIs(text: seq<Glyph>, s: nat, k: nat, e: nat)
    requires s <= k < e <= |text|
    requires forall j :: s <= j < e ==> text[j].blank == text[k].blank
    requires s == 0 || text[s - 1].blank != text[k].blank
    requires e == |text| || text[e].blank != text[k].blank
    ensures RunStart(text, k) == s && RunEnd(text, k) == e
  {
  }

  lemma TokenRun(text: seq<Glyph>, tokens: seq<Token>, i: nat, k: nat)
    requires Tiles(text, tokens, |text|) && i < |tokens|
    requires tokens[i].start.index <= k < tokens[i].end.index
    ensures RunStart(text, k) == tokens[i].start.index && RunEnd(text, k) == tokens[i].end.index
  {
    var t := tokens[i];
    if i > 0 { assert TokenAt(text, tokens[i - 1]); }
    if i + 1 < |tokens| { assert TokenAt(text, tokens[i + 1]); }
    RunIs(text, t.start.index, k, t.end.index);
  }

  lemma {:induction false} TrimmedBlanks(text: seq<Glyph>, a: nat, s: nat, b: nat)
    requires a <= s <= b <= |text|
    requires forall j :: s <= j < b ==> text[j].blank
    ensures Trimmed(text, a, b) == Trimmed(text, a, s)
  {
    if s < b {
      TrimmedBlanks(text, a, s, b - 1);
    }
  }

  lemma ShortLineFits(text: seq<Glyph>, max: nat, a: nat, b: nat)
    requires a <= b <= |text| && Span(text, a, b) <= max
    ensures LineFits(text, max, a, b) && LineOk(text, max, a, b)
  {
    SpanSplit(text, a, Trimmed(text, a, b), b);
  }

  /** The line before the last break shows something if that break is at `p`. */
  predicate Entered(text: seq<Glyph>, cuts: seq<nat>, p: nat) {
    cuts != [] && cuts[|cuts| - 1] == p ==> Shows(text, LineStart(cuts, |cuts| - 1), p)
  }

  ghost predicate LinesBefore(text: seq<Glyph>, max: nat, cuts: seq<nat>) {
    forall k :: 0 <= k < |cuts| ==> LineOk(text, max, LineStart(cuts, k), cuts[k])
  }

  /** The text is wrapped up to `p`. */
  ghost predicate WrappedTo(text: seq<Glyph>, max: nat, cuts: seq<nat>, p: nat) {
    && LineStart(cuts, |cuts|) <= p <= |text|
    && Wrapped(text, max, cuts) && LinesBefore(text, max, cuts) && LineOk(text, max, LineStart(cuts, |cuts|), p)
    && Marked(text, max, cuts, p) && NoExcess(text, cuts) && Entered(text, cuts, p)
  }

  /** A break at `b`, where only a word that starts there may be too wide. */
  lemma BreakAt(text: seq<Glyph>, max: nat, cuts: seq<nat>, b: nat, p: nat)
    requires WrappedTo(text, max, cuts, b)
    requires Cut(text, max, LineStart(cuts, |cuts|), b)
    requires b <= p <= |text| && LineOk(text, max, b, p)
    requires forall k :: b <= k < p && WideStart(text, max, k) ==>
               k == b && Span(text, LineStart(cuts, |cuts|), b) == 0
    requires p == b ==> Span(text, LineStart(cuts, |cuts|), b) > 0
    ensures WrappedTo(text, max, cuts + [b], p)
  {
    hide Cut, LineOk, WideStart, Span, Wrapped, LinesBefore, Marked, NoExcess;
    var more := cuts + [b];
    StartsStay(cuts, b);
    MarksStay(text, max, cuts, b, p);
    LinesStay(text, max, cuts, b);
    ShowsStay(text, cuts, b);
  }

  lemma StartsStay(cuts: seq<nat>, b: nat)
    ensures var more := cuts + [b];
            && (forall k :: 0 <= k <= |cuts| ==> LineStart(more, k) == LineStart(cuts, k))
            && LineStart(more, |more|) == b
  {
  }

  lemma LinesStay(text: seq<Glyph>, max: nat, cuts: seq<nat>, b: nat)
    requires Wrapped(text, max, cuts) && LinesBefore(text, max, cuts)
    requires Cut(text, max, LineStart(cuts, |cuts|), b) && LineOk(text, max, LineStart(cuts, |cuts|), b)
    ensures Wrapped(text, max, cuts + [b]) && LinesBefore(text, max, cuts + [b])
  {
    hide Cut, LineOk;
    StartsStay(cuts, b);
    hide LineStart;
  }

  lemma ShowsStay(text: seq<Glyph>, cuts: seq<nat>, b: nat)
    requires NoExcess(text, cuts) && Entered(text, cuts, b)
    ensures NoExcess(text, cuts + [b])
  {
    hide Shows;
    StartsStay(cuts, b);
    hide LineStart;
  }

  lemma MarksStay(text: seq<Glyph>, max: nat, cuts: seq<nat>, b: nat, p: nat)
    requires Marked(text, max, cuts, b) && LineStart(cuts, |cuts|) <= b <= p <= |text|
    requires forall k :: b <= k < p && WideStart(text, max, k) ==>
               k == b && Span(text, LineStart(cuts, |cuts|), b) == 0
    ensures Marked(text, max, cuts + [b], p)
  {
    hide WideStart, Span;
    var more := cuts + [b];
    forall k | 0 <= k < p && WideStart(text, max, k) ensures exists j: nat :: MarkAt(text, more, k, j) {
      if k < b {
        var j: nat :| MarkAt(text, cuts, k, j);
        assert LineStart(more, j) == LineStart(cuts, j);
        assert MarkAt(text, more, k, j);
      } else {
        assert LineStart(more, |cuts|) == LineStart(cuts, |cuts|);
        assert MarkAt(text, more, k, |cuts|);
      }
    }
  }

  lemma ExtendBlanks(text: seq<Glyph>, max: nat, cuts: seq<nat>, s: nat, b: nat)
    requires WrappedTo(text, max, cuts, s) && s <= b <= |text|
    requires forall j :: s <= j < b ==> text[j].blank
    ensures WrappedTo(text, max, cuts, b)
  {
    TrimmedBlanks(text, LineStart(cuts, |cuts|), s, b);
    hide MarkAt, Cut;
  }

  lemma ExtendShort(text: seq<Glyph>, max: nat, cuts: seq<nat>, s: nat, b: nat)
    requires WrappedTo(text, max, cuts, s) && s <= b <= |text|
    requires Span(text, LineStart(cuts, |cuts|), b) <= max
    ensures WrappedTo(text, max, cuts, b)
  {
    hide MarkAt, Cut, LineOk, WideStart, Span, NoExcess, Wrapped, LinesBefore, Shows;
    var a := LineStart(cuts, |cuts|);
    ShortLineFits(text, max, a, b);
    ShortIsNotWide(text, max, a, b);
  }

  lemma ShortIsNotWide(text: seq<Glyph>, max: nat, a: nat, b: nat)
    requires a <= b <= |text| && Span(text, a, b) <= max
    ensures forall k :: a <= k < b ==> !WideStart(text, max, k)
  {
    forall k | a <= k < b ensures text[k].width <= max {
      SpanSplit(text, a, k + 1, b);
    }
  }

  method Measure(text: seq<Glyph>, a: nat, b: nat) returns (w: U16)
    requires Measurable(text) && a <= b <= |text|
    ensures w as int == Span(text, a, b)
  {
    w := 0;
    for i := a to b
      invariant w as int == Span(text, a, i)
    {
      SpanWithin(text, a, i + 1);
      w := w + text[i].width as U16;
    }
  }

  /**
   * `BreakLongWord` has reached character `i` of the word `start..end`, which is wider than a
   * line: nothing but the word shows on the current line, of which `w` is taken.
   */
  ghost predicate InLongWord(text: seq<Glyph>, max: nat, cuts: seq<nat>, start: nat, end: nat, i: nat, w: nat) {
    && start <= i <= end <= |text| && LineStart(cuts, |cuts|) <= i
    && WrappedTo(text, max, cuts, i)
    && w == Span(text, LineStart(cuts, |cuts|), i)
    && (LineStart(cuts, |cuts|) >= start || Span(text, LineStart(cuts, |cuts|), start) == 0)
    && (i > start ==> LineStart(cuts, |cuts|) < i)
  }

  predicate LongWord(text: seq<Glyph>, max: nat, start: nat, end: nat) {
    && start < end <= |text|
    && (forall k :: start <= k < end ==> !text[k].blank && RunStart(text, k) == start && RunEnd(text, k) == end)
    && Span(text, start, end) > max
  }

  lemma OneGlyphOk(text: seq<Glyph>, max: nat, i: nat)
    requires i < |text| && !text[i].blank
    ensures LineOk(text, max, i, i + 1)
  {
    assert Trimmed(text, i, i + 1) == i + 1;
    assert Span(text, i, i + 1) == text[i].width;
  }

  lemma BreakBeforeGlyph(text: seq<Glyph>, max: nat, cuts: seq<nat>, start: nat, end: nat, i: nat, w: nat)
    requires LongWord(text, max, start, end) && InLongWord(text, max, cuts, start, end, i, w) && i < end
    requires w + text[i].width > max
    ensures InLongWord(text, max, cuts + [i], start, end, i + 1, text[i].width)
  {
    hide LineOk, BlankCut, WordCut, GlyphCut, WrappedTo, RunStart, RunEnd;
    var a := LineStart(cuts, |cuts|);
    assert !text[i].blank && (i > start ==> !text[i - 1].blank);
    GlyphCutHere(text, max, a, start, end, i);
    hide LongWord;
    OneGlyphOk(text, max, i);
    assert WideStart(text, max, i) ==> i == start;
    BreakAt(text, max, cuts, i, i + 1);
    assert Span(text, i, i + 1) == text[i].width;
    assert LineStart(cuts + [i], |cuts + [i]|) == i;
  }

  lemma GlyphCutHere(text: seq<Glyph>, max: nat, a: nat, start: nat, end: nat, i: nat)
    requires LongWord(text, max, start, end) && a <= i && start <= i < end
    requires (a >= start || Span(text, a, start) == 0) && (i > start ==> a < i)
    requires Span(text, a, i) + text[i].width > max
    ensures GlyphCut(text, max, a, i)
  {
    assert RunStart(text, i) == start && RunEnd(text, i) == end && !text[i].blank;
    hide RunStart, RunEnd, LongWord;
    assert Span(text, a, i + 1) == Span(text, a, i) + text[i].width;
    if a < start { SpanSplit(text, a, start, i); }
  }

  lemma KeepGlyph(text: seq<Glyph>, max: nat, cuts: seq<nat>, start: nat, end: nat, i: nat, w: nat)
    requires InLongWord(text, max, cuts, start, end, i, w) && i < end && w + text[i].width <= max
    ensures InLongWord(text, max, cuts, start, end, i + 1, w + text[i].width)
  {
    hide WrappedTo;
    ExtendShort(text, max, cuts, i, i + 1);
  }

  /** The width of a line does not overflow. */
  lemma GlyphAdds(text: seq<Glyph>, max: nat, cuts: seq<nat>, start: nat, end: nat, i: nat, w: nat)
    requires Measurable(text) && InLongWord(text, max, cuts, start, end, i, w) && i < end
    ensures w + text[i].width < 0x1_0000
  {
    hide WrappedTo;
    SpanWithin(text, LineStart(cuts, |cuts|), i + 1);
  }

  lemma OffsetsMore(text: seq<Glyph>, cuts: seq<nat>, breaks: seq<nat>, i: nat)
    requires AtOffsets(text, cuts, breaks) && i <= |text|
    ensures AtOffsets(text, cuts + [i], breaks + [Offset(text, i)])
  {
    hide Offset;
  }

  /** Breaks the word `start..end`, wider than a line, at character boundaries. */
  method BreakLongWord(text: seq<Glyph>, start: Mark, end: nat, max: U16, breaks: seq<nat>, ghost cuts: seq<nat>)
    returns (w: U16, more: seq<nat>, ghost moreCuts: seq<nat>)
    requires Measurable(text) && LongWord(text, max as int, start.index, end)
    requires start.offset == Offset(text, start.index) && AtOffsets(text, cuts, breaks)
    requires InLongWord(text, max as int, cuts, start.index, end, start.index, 0)
    ensures InLongWord(text, max as int, moreCuts, start.index, end, end, w as int)
    ensures AtOffsets(text, moreCuts, more) && breaks <= more
  {
    hide WrappedTo, RunStart, RunEnd, Cut, AtOffsets, InLongWord, Measurable;
    w, more, moreCuts := 0, breaks, cuts;
    var offset := start.offset;
    for i := start.index to end
      invariant offset == Offset(text, i)
      invariant InLongWord(text, max as int, moreCuts, start.index, end, i, w as int)
      invariant AtOffsets(text, moreCuts, more) && breaks <= more
    {
      GlyphAdds(text, max as int, moreCuts, start.index, end, i, w as int);
      var width := text[i].width as U16;
      if w + width > max {
        BreakBeforeGlyph(text, max as int, moreCuts, start.index, end, i, w as int);
        OffsetsMore(text, moreCuts, more, i);
        more, moreCuts := more + [offset], moreCuts + [i];
        w := width;
      } else {
        KeepGlyph(text, max as int, moreCuts, start.index, end, i, w as int);
        w := w + width;
      }
      offset := offset + text[i].bytes;
    }
  }

  // ----- the main loop, over tokens

  function TokenStart(text: seq<Glyph>, tokens: seq<Token>, i: nat): nat {
    if i < |tokens| then tokens[i].start.index else |text|
  }

  /**
   * Before token `i`: everything up to it is wrapped and `w` is the width of the text since the
   * last break. A word's own whitespace starts its line, or has nothing visible before it.
   */
  ghost predicate AtToken(text: seq<Glyph>, max: nat, tokens: seq<Token>, cuts: seq<nat>, i: nat, w: nat) {
    var a, p := LineStart(cuts, |cuts|), TokenStart(text, tokens, i);
    && i <= |tokens| && a <= p <= |text|
    && WrappedTo(text, max, cuts, p)
    && w == Span(text, a, p)
    && (0 < i < |tokens| && !tokens[i].blank ==>
          var s := tokens[i - 1].start.index;
          a >= s || (s <= |text| && Span(text, a, s) == 0))
  }

  lemma TokenFacts(text: seq<Glyph>, tokens: seq<Token>, i: nat)
    requires Tiles(text, tokens, |text|) && i < |tokens|
    ensures TokenAt(text, tokens[i]) && TokenStart(text, tokens, i + 1) == tokens[i].end.index
    ensures forall k :: tokens[i].start.index <= k < tokens[i].end.index ==>
              text[k].blank == tokens[i].blank
              && RunStart(text, k) == tokens[i].start.index && RunEnd(text, k) == tokens[i].end.index
    ensures i > 0 ==> tokens[i - 1].end == tokens[i].start && tokens[i - 1].blank != tokens[i].blank
    ensures i > 0 ==> TokenAt(text, tokens[i - 1])
  {
    forall k | tokens[i].start.index <= k < tokens[i].end.index
      ensures RunStart(text, k) == tokens[i].start.index && RunEnd(text, k) == tokens[i].end.index
    {
      TokenRun(text, tokens, i, k);
    }
  }

  /** Whitespace stays on its line: it is the last token, or the line shows nothing yet. */
  lemma KeepBlanks(text: seq<Glyph>, max: nat, tokens: seq<Token>, cuts: seq<nat>, i: nat, w: nat)
    requires Tiles(text, tokens, |text|) && i < |tokens| && tokens[i].blank
    requires AtToken(text, max, tokens, cuts, i, w)
    requires i + 1 == |tokens| || w == 0
    ensures AtToken(text, max, tokens, cuts, i + 1, w + tokens[i].width as int)
  {
    hide WrappedTo, RunStart, RunEnd;
    TokenFacts(text, tokens, i);
    SpanSplit(text, LineStart(cuts, |cuts|), tokens[i].start.index, tokens[i].end.index);
    ExtendBlanks(text, max, cuts, tokens[i].start.index, tokens[i].end.index);
  }

  /** The text from the last break to the end of the word after the whitespace token `i`. */
  lemma BlanksAndWordSpan(text: seq<Glyph>, max: nat, tokens: seq<Token>, cuts: seq<nat>, i: nat, w: nat)
    requires Tiles(text, tokens, |text|) && i + 1 < |tokens|
    requires AtToken(text, max, tokens, cuts, i, w)
    ensures TokenAt(text, tokens[i]) && TokenAt(text, tokens[i + 1]) && tokens[i].end == tokens[i + 1].start
    ensures LineStart(cuts, |cuts|) <= tokens[i].start.index
    ensures Span(text, LineStart(cuts, |cuts|), tokens[i].end.index) == w + tokens[i].width as int
    ensures Span(text, LineStart(cuts, |cuts|), tokens[i + 1].end.index)
         == w + tokens[i].width as int + tokens[i + 1].width as int
  {
    hide WrappedTo, RunStart, RunEnd;
    TokenFacts(text, tokens, i);
    TokenFacts(text, tokens, i + 1);
    var a := LineStart(cuts, |cuts|);
    SpanSplit(text, a, tokens[i].start.index, tokens[i].end.index);
    SpanSplit(text, a, tokens[i].end.index, tokens[i + 1].end.index);
  }

  /** Whitespace and the word after it both fit. */
  lemma KeepBlanksAndWord(text: seq<Glyph>, max: nat, tokens: seq<Token>, cuts: seq<nat>, i: nat, w: nat)
    requires Tiles(text, tokens, |text|) && i + 1 < |tokens| && tokens[i].blank
    requires AtToken(text, max, tokens, cuts, i, w)
    requires w + tokens[i].width as int + tokens[i + 1].width as int <= max
    ensures AtToken(text, max, tokens, cuts, i + 2, w + tokens[i].width as int + tokens[i + 1].width as int)
  {
    hide WrappedTo, RunStart, RunEnd;
    BlanksAndWordSpan(text, max, tokens, cuts, i, w);
    TokenFacts(text, tokens, i + 1);
    if i + 2 < |tokens| { TokenFacts(text, tokens, i + 2); }
    hide Tiles;
    ExtendShort(text, max, cuts, tokens[i].start.index, tokens[i + 1].end.index);
  }

  /** Where the whitespace `t` is split when the word after it does not fit. */
  function BlankBreak(t: Token): (b: nat) {
    if t.width > 1 && t.start.index + 1 < t.end.index then t.start.index + 1 else t.end.index
  }

  lemma BlankBreakCut(text: seq<Glyph>, max: nat, a: nat, s: nat, e: nat)
    requires a <= s < e < |text| && text[s].blank && !text[e].blank
    requires forall k :: s <= k < e ==> RunStart(text, k) == s && RunEnd(text, k) == e
    requires Span(text, a, s) > 0 && Span(text, a, RunEnd(text, e)) > max
    ensures if Span(text, s, e) > 1 && s + 1 < e
            then BlankCut(text, max, a, s + 1) else WordCut(text, max, a, e)
  {
    SpanSplit(text, a, s, e);
    assert RunStart(text, e - 1) == s;
  }

  lemma BlankBreakCuts(text: seq<Glyph>, max: nat, tokens: seq<Token>, cuts: seq<nat>, i: nat, w: nat)
    requires Tiles(text, tokens, |text|) && i + 1 < |tokens| && tokens[i].blank
    requires AtToken(text, max, tokens, cuts, i, w) && w > 0
    requires w + tokens[i].width as int + tokens[i + 1].width as int > max
    ensures Cut(text, max, LineStart(cuts, |cuts|), BlankBreak(tokens[i]))
  {
    hide WrappedTo, BlankCut, WordCut, GlyphCut, RunStart, RunEnd, Tiles, Span;
    var s, e := tokens[i].start.index, tokens[i].end.index;
    BlankRun(text, tokens, i);
    BlanksAndWordSpan(text, max, tokens, cuts, i, w);
    assert TokenStart(text, tokens, i) == s && w == Span(text, LineStart(cuts, |cuts|), s);
    hide AtToken;
    BlankBreakCut(text, max, LineStart(cuts, |cuts|), s, e);
  }

  /** A whitespace token with a word after it. */
  lemma BlankRun(text: seq<Glyph>, tokens: seq<Token>, i: nat)
    requires Tiles(text, tokens, |text|) && i + 1 < |tokens| && tokens[i].blank
    ensures var s, e := tokens[i].start.index, tokens[i].end.index;
            && s < e < |text| && text[s].blank && !text[e].blank
            && (forall k :: s <= k < e ==> RunStart(text, k) == s && RunEnd(text, k) == e)
            && tokens[i + 1].start.index == e && RunEnd(text, e) == tokens[i + 1].end.index
  {
    hide RunStart, RunEnd, Span;
    TokenFacts(text, tokens, i);
    TokenFacts(text, tokens, i + 1);
  }

  /** Breaking in whitespace `s..e` at `b` leaves the rest of it on the next line. */
  lemma BreakInBlanks(text: seq<Glyph>, max: nat, cuts: seq<nat>, s: nat, b: nat, e: nat)
    requires WrappedTo(text, max, cuts, s) && LineStart(cuts, |cuts|) <= s < b <= e <= |text|
    requires Span(text, LineStart(cuts, |cuts|), s) > 0 && Cut(text, max, LineStart(cuts, |cuts|), b)
    requires forall j :: s <= j < e ==> text[j].blank
    ensures WrappedTo(text, max, cuts + [b], e)
  {
    hide WrappedTo, Cut, Span;
    var a := LineStart(cuts, |cuts|);
    ExtendBlanks(text, max, cuts, s, b);
    TrimmedBlanks(text, b, b, e);
    SpanSplit(text, a, s, b);
    SpanEmpty(text, b);
    BreakAt(text, max, cuts, b, e);
  }

  lemma SpanEmpty(text: seq<Glyph>, b: nat)
    requires b <= |text|
    ensures Span(text, b, b) == 0
  {
  }

  /** The line ends in the whitespace token `i`; what is left of it starts the next line. */
  lemma WrapAtBlanks(text: seq<Glyph>, max: nat, tokens: seq<Token>, cuts: seq<nat>, i: nat, w: nat)
    requires Tiles(text, tokens, |text|) && i + 1 < |tokens| && tokens[i].blank
    requires AtToken(text, max, tokens, cuts, i, w) && w > 0
    requires w + tokens[i].width as int + tokens[i + 1].width as int > max
    ensures var b, e := BlankBreak(tokens[i]), tokens[i].end.index;
            && b <= e <= |text|
            && AtToken(text, max, tokens, cuts + [b], i + 1, Span(text, b, e))
  {
    hide WrappedTo, RunStart, RunEnd, Cut, Span, Tiles;
    BlankBreakCuts(text, max, tokens, cuts, i, w);
    var s, b, e := tokens[i].start.index, BlankBreak(tokens[i]), tokens[i].end.index;
    BlankRun(text, tokens, i);
    TokenFacts(text, tokens, i);
    BreakInBlanks(text, max, cuts, s, b, e);
    assert LineStart(cuts + [b], |cuts + [b]|) == b;
  }

  /** The word token `i` fits on the current line. */
  lemma KeepWord(text: seq<Glyph>, max: nat, tokens: seq<Token>, cuts: seq<nat>, i: nat, w: nat)
    requires Tiles(text, tokens, |text|) && i < |tokens| && !tokens[i].blank
    requires AtToken(text, max, tokens, cuts, i, w)
    requires w + tokens[i].width as int <= max
    ensures AtToken(text, max, tokens, cuts, i + 1, w + tokens[i].width as int)
  {
    hide WrappedTo, RunStart, RunEnd;
    TokenFacts(text, tokens, i);
    if i + 1 < |tokens| { TokenFacts(text, tokens, i + 1); }
    hide Tiles;
    SpanSplit(text, LineStart(cuts, |cuts|), tokens[i].start.index, tokens[i].end.index);
    hide Span;
    ExtendShort(text, max, cuts, tokens[i].start.index, tokens[i].end.index);
  }

  /** The word token `i` does not fit after what the line already shows. */
  lemma WrapAtWord(text: seq<Glyph>, max: nat, tokens: seq<Token>, cuts: seq<nat>, i: nat, w: nat)
    requires Tiles(text, tokens, |text|) && i < |tokens| && !tokens[i].blank
    requires AtToken(text, max, tokens, cuts, i, w) && w > 0
    requires w + tokens[i].width as int > max
    ensures AtToken(text, max, tokens, cuts + [tokens[i].start.index], i, 0)
  {
    hide WrappedTo;
    var a, b := LineStart(cuts, |cuts|), tokens[i].start.index;
    TokenFacts(text, tokens, i);
    assert i > 0;
    TokenFacts(text, tokens, i - 1);
    SpanSplit(text, a, b, tokens[i].end.index);
    assert RunStart(text, b - 1) == tokens[i - 1].start.index && RunEnd(text, b) == tokens[i].end.index;
    assert WordCut(text, max, a, b);
    hide RunStart, RunEnd, WordCut, GlyphCut, BlankCut;
    ShortLineFits(text, max, b, b);
    BreakAt(text, max, cuts, b, b);
    assert LineStart(cuts + [b], |cuts + [b]|) == b;
  }

  lemma EnterLongWord(text: seq<Glyph>, max: nat, tokens: seq<Token>, cuts: seq<nat>, i: nat)
    requires Tiles(text, tokens, |text|) && i < |tokens| && !tokens[i].blank && tokens[i].width as int > max
    requires AtToken(text, max, tokens, cuts, i, 0)
    ensures LongWord(text, max, tokens[i].start.index, tokens[i].end.index)
    ensures InLongWord(text, max, cuts, tokens[i].start.index, tokens[i].end.index, tokens[i].start.index, 0)
    ensures tokens[i].start.offset == Offset(text, tokens[i].start.index)
  {
    hide WrappedTo, RunStart, RunEnd;
    TokenFacts(text, tokens, i);
  }

  lemma LeaveLongWord(text: seq<Glyph>, max: nat, tokens: seq<Token>, cuts: seq<nat>, i: nat, w: nat)
    requires Tiles(text, tokens, |text|) && i < |tokens| && !tokens[i].blank
    requires InLongWord(text, max, cuts, tokens[i].start.index, tokens[i].end.index, tokens[i].end.index, w)
    ensures AtToken(text, max, tokens, cuts, i + 1, w)
  {
    hide WrappedTo, RunStart, RunEnd;
    TokenFacts(text, tokens, i);
    if i + 1 < |tokens| { TokenFacts(text, tokens, i + 1); }
  }

  lemma AtTokenBounds(text: seq<Glyph>, max: nat, tokens: seq<Token>, cuts: seq<nat>, i: nat, w: nat)
    requires Tiles(text, tokens, |text|) && Measurable(text) && i < |tokens|
    requires AtToken(text, max, tokens, cuts, i, w)
    ensures TokenAt(text, tokens[i])
    ensures w + tokens[i].width as int < 0x1_0000
    ensures i + 1 < |tokens| ==> w + tokens[i].width as int + tokens[i + 1].width as int < 0x1_0000
    ensures i + 1 < |tokens| ==> TokenAt(text, tokens[i + 1]) && tokens[i].end == tokens[i + 1].start
    ensures i + 1 < |tokens| ==> tokens[i + 1].blank != tokens[i].blank
  {
    hide WrappedTo, RunStart, RunEnd;
    TokenFacts(text, tokens, i);
    var a := LineStart(cuts, |cuts|);
    SpanSplit(text, a, tokens[i].start.index, tokens[i].end.index);
    SpanWithin(text, a, tokens[i].end.index);
    if i + 1 < |tokens| {
      BlanksAndWordSpan(text, max, tokens, cuts, i, w);
      SpanWithin(text, a, tokens[i + 1].end.index);
    }
  }

  lemma OffsetsPush(text: seq<Glyph>, cuts: seq<nat>, breaks: seq<nat>, b: nat)
    requires AtOffsets(text, cuts, breaks) && b <= |text|
    ensures AtOffsets(text, cuts + [b], breaks + [Offset(text, b)])
  {
  }

  /** The breaks are those of a text that is wrapped as it should be. */
  ghost predicate BreaksOf(text: seq<Glyph>, max: nat, breaks: seq<nat>) {
    exists cuts :: AtOffsets(text, cuts, breaks) && WellWrapped(text, max, cuts)
  }

  /** `compute_word_wrap_breaks`: the byte offsets at which the lines after the first start. */
  method ComputeBreaks(text: seq<Glyph>, max: U16) returns (breaks: seq<nat>, ghost cuts: seq<nat>)
    requires Measurable(text)
    ensures BreaksOf(text, max as int, breaks)
    ensures AtOffsets(text, cuts, breaks) && WellWrapped(text, max as int, cuts)
  {
    hide WrappedTo, AtToken, RunStart, RunEnd, LongWord, InLongWord, WellWrapped;
    ghost var m := max as int;
    breaks, cuts := [], [];
    var tokens := Tokenize(text);
    var w: U16, i := 0, 0;
    StartOfText(text, m, tokens);
    while i < |tokens|
      invariant i <= |tokens| && AtToken(text, m, tokens, cuts, i, w as int)
      invariant AtOffsets(text, cuts, breaks)
    {
      AtTokenBounds(text, m, tokens, cuts, i, w as int);
      var t := tokens[i];
      if t.blank {
        if i + 1 < |tokens| && !tokens[i + 1].blank {
          var word := tokens[i + 1];
          if w + t.width + word.width > max {
            if w == 0 {
              if t.width + word.width > max {
                KeepBlanks(text, m, tokens, cuts, i, w as int);
                w, i := w + t.width, i + 1;
                continue;
              }
            }
            WrapAtBlanks(text, m, tokens, cuts, i, w as int);
            var start := word.start;
            if t.width > 1 && t.start.index + 1 < t.end.index {
              start := Mark(t.start.index + 1, t.start.offset + text[t.start.index].bytes);
            }
            OffsetsPush(text, cuts, breaks, start.index);
            breaks, cuts := breaks + [start.offset], cuts + [start.index];
            var rest := Measure(text, start.index, word.start.index);
            AtTokenBounds(text, m, tokens, cuts, i + 1, rest as int);
            if rest + word.width > max {
              w, i := rest, i + 1;
              continue;
            }
            KeepWord(text, m, tokens, cuts, i + 1, rest as int);
            w, i := rest + word.width, i + 2;
            continue;
          }
          KeepBlanksAndWord(text, m, tokens, cuts, i, w as int);
          w, i := w + t.width + word.width, i + 2;
          continue;
        }
        KeepBlanks(text, m, tokens, cuts, i, w as int);
        w, i := w + t.width, i + 1;
        continue;
      }
      if w + t.width > max {
        if w > 0 {
          WrapAtWord(text, m, tokens, cuts, i, w as int);
          OffsetsPush(text, cuts, breaks, t.start.index);
          breaks, cuts := breaks + [t.start.offset], cuts + [t.start.index];
        }
        if t.width > max {
          EnterLongWord(text, m, tokens, cuts, i);
          w, breaks, cuts := BreakLongWord(text, t.start, t.end.index, max, breaks, cuts);
          LeaveLongWord(text, m, tokens, cuts, i, w as int);
        } else {
          KeepWord(text, m, tokens, cuts, i, 0);
          w := t.width;
        }
      } else {
        KeepWord(text, m, tokens, cuts, i, w as int);
        w := w + t.width;
      }
      i := i + 1;
    }
    EndOfText(text, m, tokens, cuts, w as int);
  }

  lemma StartOfText(text: seq<Glyph>, max: nat, tokens: seq<Token>)
    requires Tiles(text, tokens, |text|)
    ensures AtToken(text, max, tokens, [], 0, 0)
  {
    ShortLineFits(text, max, 0, 0);
  }

  lemma EndOfText(text: seq<Glyph>, max: nat, tokens: seq<Token>, cuts: seq<nat>, w: nat)
    requires AtToken(text, max, tokens, cuts, |tokens|, w)
    ensures WellWrapped(text, max, cuts)
  {
    hide Wrapped, LineOk, Marked, NoExcess;
  }

  // ----- what the breaks guarantee

  lemma CutBounds(text: seq<Glyph>, max: nat, a: nat, b: nat)
    requires Cut(text, max, a, b)
    ensures a <= b < |text|
  {
  }

  /** Breaks come in text order. */
  lemma {:induction false} CutsInOrder(text: seq<Glyph>, max: nat, cuts: seq<nat>, i: nat, j: nat)
    requires Wrapped(text, max, cuts) && i <= j <= |cuts|
    ensures LineStart(cuts, i) <= LineStart(cuts, j) <= |text|
    decreases j
  {
    hide Cut;
    if j > 0 {
      if i < j { CutsInOrder(text, max, cuts, i, j - 1); }
      assert Cut(text, max, LineStart(cuts, j - 1), cuts[j - 1]);
      CutBounds(text, max, LineStart(cuts, j - 1), cuts[j - 1]);
    }
  }

  /** The line, at or after line `n`, that character `j` is on. */
  function LineOf(text: seq<Glyph>, cuts: seq<nat>, j: nat, n: nat): (k: nat)
    requires j < |text| && n <= |cuts| && LineStart(cuts, n) <= j
    ensures k <= |cuts| && LineStart(cuts, k) <= j < LineEnd(text, cuts, k)
    decreases |cuts| - n
  {
    if n < |cuts| && cuts[n] <= j then LineOf(text, cuts, j, n + 1) else n
  }

  /** A character wider than a line leaves the line it is on too wide. */
  lemma FittingIsNarrow(text: seq<Glyph>, max: nat, cuts: seq<nat>)
    requires LinesFit(text, max, cuts)
    ensures Narrow(text, max)
  {
    forall j | 0 <= j < |text| && !text[j].blank ensures text[j].width <= max {
      var k := LineOf(text, cuts, j, 0);
      var a, b := LineStart(cuts, k), LineEnd(text, cuts, k);
      assert LineFits(text, max, a, b);
      SpanSplit(text, a, j + 1, Trimmed(text, a, b));
    }
  }

  /** When no word character is wider than a line, every line before a break shows something. */
  lemma NarrowCutAdvances(text: seq<Glyph>, max: nat, a: nat, b: nat)
    requires Narrow(text, max) && Cut(text, max, a, b)
    ensures 0 <= a < b < |text| && Span(text, a, b) > 0
  {
    if BlankCut(text, max, a, b) {
      SpanSplit(text, a, b - 1, b);
    } else if GlyphCut(text, max, a, b) {
      assert Span(text, a, b + 1) == Span(text, a, b) + text[b].width;
    }
  }

  /** A break inside a word is only made when the word is wider than a whole line. */
  lemma WordsStayWhole(text: seq<Glyph>, max: nat, a: nat, b: nat)
    requires Cut(text, max, a, b)
    requires 0 < b && !text[b - 1].blank && !text[b].blank
    ensures Span(text, RunStart(text, b), RunEnd(text, b)) > max
  {
  }

  /** The end of what could not be added to the line that ends at `b`: a character, or a whole word. */
  function NextEnd(text: seq<Glyph>, b: nat): (f: nat)
    requires b < |text|
  {
    if !text[b].blank then
      if b > 0 && !text[b - 1].blank then b + 1 else RunEnd(text, b)
    else
      if RunEnd(text, b) < |text| then RunEnd(text, RunEnd(text, b)) else |text|
  }

  /** Wrapping is greedy: no break comes before the line is full. */
  lemma BreaksAreForced(text: seq<Glyph>, max: nat, a: nat, b: nat)
    requires Cut(text, max, a, b)
    ensures a <= b < NextEnd(text, b) <= |text|
    ensures !text[NextEnd(text, b) - 1].blank
    ensures Span(text, a, NextEnd(text, b)) > max
  {
    if GlyphCut(text, max, a, b) && RunStart(text, b) == b {
      SpanSplit(text, a, b, RunEnd(text, b));
    }
  }

  /** A break that does not advance is before a word that starts with a character wider than a line. */
  lemma CutAdvances(text: seq<Glyph>, max: nat, a: nat, b: nat)
    requires Cut(text, max, a, b)
    ensures a < b || (a == b && WideStart(text, max, b))
  {
  }

  /** All lines fit exactly if no character of a word is wider than a line. */
  lemma LinesFitExactly(text: seq<Glyph>, max: nat, cuts: seq<nat>)
    requires WellWrapped(text, max, cuts)
    ensures LinesFit(text, max, cuts) <==> Narrow(text, max)
  {
    hide Wrapped, Marked, NoExcess;
    if LinesFit(text, max, cuts) { FittingIsNarrow(text, max, cuts); }
    if Narrow(text, max) {
      forall k | 0 <= k <= |cuts| ensures LineFits(text, max, LineStart(cuts, k), LineEnd(text, cuts, k)) {
        assert LineOk(text, max, LineStart(cuts, k), LineEnd(text, cuts, k));
      }
    }
  }

  // ----- there is one way to wrap a text

  /** A part of a line that ends in a word fits, or is the line's one character. */
  lemma OkPart(text: seq<Glyph>, max: nat, a: nat, b: nat, f: nat)
    requires LineOk(text, max, a, b) && a < f <= b && !text[f - 1].blank
    ensures Span(text, a, f) <= max || f == a + 1
  {
    SpanSplit(text, a, f, Trimmed(text, a, b));
  }

  lemma NoCutAfterWord(text: seq<Glyph>, max: nat, a: nat, b: nat, later: nat)
    requires WordCut(text, max, a, b)
    requires b <= later < RunEnd(text, b) && Cut(text, max, a, later)
    ensures later == b
  {
    RunIs(text, b, later, RunEnd(text, b));
  }

  lemma NoCutAfterBlank(text: seq<Glyph>, max: nat, a: nat, b: nat, later: nat)
    requires BlankCut(text, max, a, b)
    requires later < NextEnd(text, b) && Cut(text, max, a, later)
    ensures later <= b
  {
    var e := RunEnd(text, b);
    if e <= later {
      RunIs(text, e, later, RunEnd(text, e));
      SpanSplit(text, a, b - 1, e);
    }
  }

  lemma NoCutAfterGlyph(text: seq<Glyph>, max: nat, a: nat, b: nat, later: nat)
    requires GlyphCut(text, max, a, b) && a < b < later < NextEnd(text, b)
    ensures !LineOk(text, max, a, later)
  {
    assert b == RunStart(text, b);
    assert Trimmed(text, a, later) == later;
    SpanSplit(text, a, b, later);
    SpanSplit(text, b, b + 1, later);
  }

  /** A line that calls for a break at `b` cannot run on past `b`, unless the break is the line's own start. */
  lemma LineEndsBy(text: seq<Glyph>, max: nat, a: nat, b: nat, end: nat)
    requires Cut(text, max, a, b) && LineOk(text, max, a, end) && (end == |text| || Cut(text, max, a, end))
    ensures end <= b || (a == b && WideStart(text, max, a))
  {
    CutAdvances(text, max, a, b);
    BreaksAreForced(text, max, a, b);
    if a < b < end {
      if NextEnd(text, b) <= end {
        hide Cut;
        OkPart(text, max, a, end, NextEnd(text, b));
      } else if BlankCut(text, max, a, b) {
        NoCutAfterBlank(text, max, a, b, end);
      } else if WordCut(text, max, a, b) {
        NoCutAfterWord(text, max, a, b, end);
      } else {
        NoCutAfterGlyph(text, max, a, b, end);
      }
    }
  }

  /** The first `n` breaks are the same. */
  predicate SameUpTo(cuts: seq<nat>, other: seq<nat>, n: nat) {
    n <= |cuts| && n <= |other| && forall k :: 0 <= k < n ==> cuts[k] == other[k]
  }

  /** An empty line before a wide word is there in both wrappings or in neither. */
  lemma SameEmptyLine(text: seq<Glyph>, max: nat, cuts: seq<nat>, other: seq<nat>, n: nat)
    requires WellWrapped(text, max, cuts) && WellWrapped(text, max, other) && SameUpTo(cuts, other, n) && n < |cuts|
    requires WideStart(text, max, LineStart(cuts, n)) && (n == |other| || LineStart(cuts, n) < other[n])
    ensures LineStart(cuts, n) < cuts[n]
  {
    hide LinesOk, WideStart, Span, Wrapped, Marked;
    var a := LineStart(cuts, n);
    var j := MarkOf(text, max, other, a);
    assert j < n by { if n <= j { CutsInOrder(text, max, other, n + 1, j + 1); } }
    CutsInOrder(text, max, cuts, j + 1, j + 2);
    CutsInOrder(text, max, cuts, j + 2, n + 1);
    assert LineStart(cuts, j) == LineStart(other, j) && cuts[j] == a;
  }

  lemma MarkOf(text: seq<Glyph>, max: nat, cuts: seq<nat>, k: nat) returns (j: nat)
    requires Marked(text, max, cuts, |text|) && WideStart(text, max, k)
    ensures MarkAt(text, cuts, k, j)
  {
    j :| MarkAt(text, cuts, k, j);
  }

  lemma SameNext(text: seq<Glyph>, max: nat, cuts: seq<nat>, other: seq<nat>, n: nat)
    requires WellWrapped(text, max, cuts) && WellWrapped(text, max, other) && SameUpTo(cuts, other, n) && n < |cuts|
    ensures n < |other| && other[n] <= cuts[n]
  {
    hide Cut, LineOk, Marked, NoExcess, WideStart;
    var a, b := LineStart(cuts, n), cuts[n];
    var end := LineEnd(text, other, n);
    assert a == LineStart(other, n);
    assert Cut(text, max, a, b);
    CutBounds(text, max, a, b);
    assert LineOk(text, max, a, end);
    if n < |other| { assert Cut(text, max, a, other[n]); }
    LineEndsBy(text, max, a, b, end);
    if end > b { SameEmptyLine(text, max, cuts, other, n); }
  }

  lemma {:induction false} SamePrefix(text: seq<Glyph>, max: nat, cuts: seq<nat>, other: seq<nat>, n: nat)
    requires WellWrapped(text, max, cuts) && WellWrapped(text, max, other) && n <= |cuts| && n <= |other|
    ensures SameUpTo(cuts, other, n)
  {
    hide WellWrapped;
    if n > 0 {
      SamePrefix(text, max, cuts, other, n - 1);
      SameNext(text, max, cuts, other, n - 1);
      SameNext(text, max, other, cuts, n - 1);
    }
  }

  lemma NoFurtherBreak(text: seq<Glyph>, max: nat, cuts: seq<nat>, other: seq<nat>)
    requires WellWrapped(text, max, cuts) && WellWrapped(text, max, other)
    ensures |cuts| <= |other|
  {
    hide WellWrapped;
    if |other| < |cuts| {
      SamePrefix(text, max, cuts, other, |other|);
      SameNext(text, max, cuts, other, |other|);
    }
  }

  /** The rules leave no choice: there is only one way to wrap a text, whatever is in it. */
  lemma WrapIsUnique(text: seq<Glyph>, max: nat, cuts: seq<nat>, other: seq<nat>)
    requires WellWrapped(text, max, cuts) && WellWrapped(text, max, other)
    ensures cuts == other
  {
    hide WellWrapped;
    NoFurtherBreak(text, max, cuts, other);
    NoFurtherBreak(text, max, other, cuts);
    SamePrefix(text, max, cuts, other, |cuts|);
  }

  lemma BreaksAreUnique(text: seq<Glyph>, max: nat, breaks: seq<nat>, others: seq<nat>)
    requires BreaksOf(text, max, breaks) && BreaksOf(text, max, others)
    ensures breaks == others
  {
    hide WellWrapped, Offset;
    var cuts :| AtOffsets(text, cuts, breaks) && WellWrapped(text, max, cuts);
    var other :| AtOffsets(text, other, others) && WellWrapped(text, max, other);
    WrapIsUnique(text, max, cuts, other);
  }

  // ----- where breaks are

  /** Breaks are strictly inside the text, each after the one before. */
  predicate StrictlyInside(text: seq<Glyph>, breaks: seq<nat>) {
    && (forall i :: 0 <= i < |breaks| ==> 0 < breaks[i] < Offset(text, |text|))
    && (forall i, j :: 0 <= i < j < |breaks| ==> breaks[i] < breaks[j])
  }

  lemma CutInText(text: seq<Glyph>, max: nat, cuts: seq<nat>, j: nat)
    requires Wrapped(text, max, cuts) && j < |cuts|
    ensures LineStart(cuts, j) <= cuts[j] < |text|
  {
    hide Cut;
    assert Cut(text, max, LineStart(cuts, j), cuts[j]);
    CutBounds(text, max, LineStart(cuts, j), cuts[j]);
  }

  /** Every line before a break has a character. */
  predicate Advances(cuts: seq<nat>) {
    forall j :: 0 <= j < |cuts| ==> LineStart(cuts, j) < cuts[j]
  }

  lemma LineHasCharacter(cuts: seq<nat>, j: nat)
    requires Advances(cuts) && j < |cuts|
    ensures LineStart(cuts, j) < cuts[j]
  {
  }

  lemma {:induction false} CutsAdvance(text: seq<Glyph>, max: nat, cuts: seq<nat>, i: nat, j: nat)
    requires Wrapped(text, max, cuts) && Advances(cuts) && i < j <= |cuts|
    ensures LineStart(cuts, i) < LineStart(cuts, j) < |text|
    decreases j
  {
    hide Wrapped, Advances;
    CutInText(text, max, cuts, j - 1);
    LineHasCharacter(cuts, j - 1);
    if i < j - 1 { CutsAdvance(text, max, cuts, i, j - 1); }
  }

  lemma AdvancingIsInside(text: seq<Glyph>, max: nat, cuts: seq<nat>, breaks: seq<nat>)
    requires Encoded(text) && Wrapped(text, max, cuts) && AtOffsets(text, cuts, breaks) && Advances(cuts)
    ensures StrictlyInside(text, breaks)
  {
    hide Wrapped, Encoded, Advances;
    forall i | 0 <= i < |breaks| ensures 0 < breaks[i] < Offset(text, |text|) {
      CutsAdvance(text, max, cuts, 0, i + 1);
      OffsetIncreases(text, 0, cuts[i]);
      OffsetIncreases(text, cuts[i], |text|);
    }
    forall i, j | 0 <= i < j < |breaks| ensures breaks[i] < breaks[j] {
      CutsAdvance(text, max, cuts, i + 1, j + 1);
      OffsetIncreases(text, cuts[i], cuts[j]);
    }
  }

  /** That is so if no word starts with a character wider than a line. */
  lemma BreaksAreInside(text: seq<Glyph>, max: nat, cuts: seq<nat>, breaks: seq<nat>)
    requires Encoded(text) && Wrapped(text, max, cuts) && AtOffsets(text, cuts, breaks)
    requires forall k :: !WideStart(text, max, k)
    ensures StrictlyInside(text, breaks)
  {
    hide WideStart, Encoded, Cut, AtOffsets;
    forall j | 0 <= j < |cuts| ensures LineStart(cuts, j) < cuts[j] {
      assert Cut(text, max, LineStart(cuts, j), cuts[j]);
      CutAdvances(text, max, LineStart(cuts, j), cuts[j]);
    }
    AdvancingIsInside(text, max, cuts, breaks);
  }

  /** A line with characters, none of which shows, ends where the word at `k` starts. */
  ghost predicate AfterBlankLine(text: seq<Glyph>, cuts: seq<nat>, k: nat) {
    exists j: nat :: MarkAt(text, cuts, k, j) && LineStart(cuts, j) < k
  }

  /** After such a line, the word gets no further break at its start. */
  lemma BlankLineIsEnough(text: seq<Glyph>, max: nat, cuts: seq<nat>, j: nat)
    requires WellWrapped(text, max, cuts) && j < |cuts| && LineStart(cuts, j) == cuts[j]
    ensures WideStart(text, max, cuts[j]) && !AfterBlankLine(text, cuts, cuts[j])
  {
    hide LinesOk, Marked, Span, WideStart, Cut;
    var k := cuts[j];
    assert Cut(text, max, LineStart(cuts, j), cuts[j]);
    CutAdvances(text, max, LineStart(cuts, j), cuts[j]);
    forall i: nat | MarkAt(text, cuts, k, i) ensures LineStart(cuts, i) >= k {
      if LineStart(cuts, i) < k {
        MarkIsFollowed(text, max, cuts, i, j);
      }
    }
  }

  /** Of two breaks at the same place, the first of which ends a line with characters, that line shows something. */
  lemma MarkIsFollowed(text: seq<Glyph>, max: nat, cuts: seq<nat>, i: nat, j: nat)
    requires Wrapped(text, max, cuts) && NoExcess(text, cuts) && i < |cuts| && j < |cuts|
    requires cuts[i] == cuts[j] == LineStart(cuts, j) && LineStart(cuts, i) < cuts[i]
    ensures Shows(text, LineStart(cuts, i), cuts[i])
  {
    hide Wrapped, Shows;
    if j <= i {
      CutsInOrder(text, max, cuts, j, i);
    } else {
      CutsInOrder(text, max, cuts, i + 1, i + 2);
      CutsInOrder(text, max, cuts, i + 2, j + 1);
    }
  }

  /** For every text, breaks are strictly inside exactly if each word that starts with such a character follows a blank line. */
  lemma InsideExactly(text: seq<Glyph>, max: nat, cuts: seq<nat>, breaks: seq<nat>)
    requires Encoded(text) && WellWrapped(text, max, cuts) && AtOffsets(text, cuts, breaks)
    ensures StrictlyInside(text, breaks) <==> forall k :: WideStart(text, max, k) ==> AfterBlankLine(text, cuts, k)
  {
    hide WideStart, Encoded, Wrapped, LinesOk, Marked, NoExcess, AfterBlankLine;
    if StrictlyInside(text, breaks) {
      forall k: nat | WideStart(text, max, k) ensures AfterBlankLine(text, cuts, k) {
        InsideIsAfterBlank(text, max, cuts, breaks, k);
      }
    } else if Advances(cuts) {
      AdvancingIsInside(text, max, cuts, breaks);
    } else {
      var j :| 0 <= j < |cuts| && LineStart(cuts, j) >= cuts[j];
      CutInText(text, max, cuts, j);
      BlankLineIsEnough(text, max, cuts, j);
    }
  }

  lemma InsideIsAfterBlank(text: seq<Glyph>, max: nat, cuts: seq<nat>, breaks: seq<nat>, k: nat)
    requires WellWrapped(text, max, cuts) && AtOffsets(text, cuts, breaks) && StrictlyInside(text, breaks)
    requires WideStart(text, max, k)
    ensures AfterBlankLine(text, cuts, k)
  {
    hide Wrapped, LinesOk, NoExcess, Span;
    var j := MarkOf(text, max, cuts, k);
    InsideAdvances(text, cuts, breaks, j);
  }

  lemma InsideAdvances(text: seq<Glyph>, cuts: seq<nat>, breaks: seq<nat>, j: nat)
    requires AtOffsets(text, cuts, breaks) && StrictlyInside(text, breaks) && j < |cuts|
    ensures LineStart(cuts, j) != cuts[j]
  {
    if j == 0 {
      assert 0 < breaks[0] == Offset(text, cuts[0]);
    } else {
      assert Offset(text, cuts[j - 1]) == breaks[j - 1] < breaks[j] == Offset(text, cuts[j]);
    }
  }

  /** Where whitespace shows there are no such lines. */
  lemma InsideWhereBlanksShow(text: seq<Glyph>, max: nat, cuts: seq<nat>, breaks: seq<nat>)
    requires Encoded(text) && WellWrapped(text, max, cuts) && AtOffsets(text, cuts, breaks)
    requires forall i :: 0 <= i < |text| && text[i].blank ==> text[i].width > 0
    ensures StrictlyInside(text, breaks) <==> forall k :: !WideStart(text, max, k)
  {
    hide Encoded, WellWrapped, Span, AtOffsets, StrictlyInside;
    InsideExactly(text, max, cuts, breaks);
    forall k: nat | WideStart(text, max, k) ensures !AfterBlankLine(text, cuts, k) {
      forall j: nat | MarkAt(text, cuts, k, j) ensures LineStart(cuts, j) >= k {
        NothingShown(text, LineStart(cuts, j), k);
      }
    }
  }

  lemma NothingShown(text: seq<Glyph>, a: nat, k: nat)
    requires a <= k <= |text| && (k > 0 ==> text[k - 1].width > 0) && Span(text, a, k) == 0
    ensures a == k
  {
  }

  /** There are no more breaks than columns of text, so the row number fits in 16 bits. */
  lemma {:induction false} BreaksAreFew(text: seq<Glyph>, max: nat, cuts: seq<nat>, n: nat)
    requires Narrow(text, max) && Wrapped(text, max, cuts) && n <= |cuts|
    ensures LineStart(cuts, n) <= |text| && n <= Span(text, 0, LineStart(cuts, n))
  {
    hide Cut, Narrow;
    if n > 0 {
      BreaksAreFew(text, max, cuts, n - 1);
      assert Cut(text, max, LineStart(cuts, n - 1), cuts[n - 1]);
      NarrowCutAdvances(text, max, LineStart(cuts, n - 1), cuts[n - 1]);
      SpanSplit(text, 0, LineStart(cuts, n - 1), cuts[n - 1]);
    }
  }

  /** One double-width character in one column is broken before its start, and its line is too wide. */
  lemma WideGlyphBreaksFirst(breaks: seq<nat>)
    requires BreaksOf([Glyph(2, 3, false)], 1, breaks)
    ensures breaks == [0] && !StrictlyInside([Glyph(2, 3, false)], breaks)
  {
    var text := [Glyph(2, 3, false)];
    assert RunStart(text, 0) == 0 && RunEnd(text, 0) == 1 && Span(text, 0, 1) == 2 && Trimmed(text, 0, 1) == 1;
    assert GlyphCut(text, 1, 0, 0);
    assert LineStart([0], 0) == 0 && LineStart([0], 1) == 0 && LineEnd(text, [0], 0) == 0 && LineEnd(text, [0], 1) == 1;
    assert MarkAt(text, [0], 0, 0);
    assert Wrapped(text, 1, [0]) && LinesOk(text, 1, [0]) && Marked(text, 1, [0], 1) && NoExcess(text, [0]);
    assert AtOffsets(text, [0], [0]);
    BreaksAreUnique(text, 1, breaks, [0]);
  }
}
