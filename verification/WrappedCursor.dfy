/** Where the cursor is drawn in the wrapped input line: `compute_wrapped_cursor`. */
module WrappedCursor {
  import opened WordWrap

  /** How many breaks lie at or before a byte position. */
  function BreaksUpTo(breaks: seq<nat>, cursor: nat): (n: nat)
    ensures n <= |breaks|
  {
    if breaks == [] then 0
    else BreaksUpTo(breaks[..|breaks| - 1], cursor) + if breaks[|breaks| - 1] <= cursor then 1 else 0
  }

  /** How many characters start before a byte position. */
  function GlyphsBefore(text: seq<Glyph>, cursor: nat, n: nat): (k: nat)
    requires n <= |text|
    ensures k <= n
  {
    if n == 0 then 0
    else if Offset(text, n - 1) < cursor then n
    else GlyphsBefore(text, cursor, n - 1)
  }

  predicate InOrder(breaks: seq<nat>) {
    forall i, j :: 0 <= i <= j < |breaks| ==> breaks[i] <= breaks[j]
  }

  /** In ordered breaks, the first one after the cursor has exactly those up to it before it. */
  lemma {:induction false} FirstAfter(breaks: seq<nat>, cursor: nat, row: nat)
    requires InOrder(breaks) && row <= |breaks|
    requires forall k :: 0 <= k < row ==> breaks[k] <= cursor
    requires row == |breaks| || cursor < breaks[row]
    ensures row == BreaksUpTo(breaks, cursor)
  {
    if breaks != [] {
      var n := |breaks| - 1;
      if row <= n { assert breaks[row] <= breaks[n]; }
      FirstAfter(breaks[..n], cursor, if row <= n then row else n);
    }
  }

  lemma {:induction false} GlyphsBeforeIs(text: seq<Glyph>, cursor: nat, n: nat, k: nat)
    requires Encoded(text) && k <= n <= |text|
    requires k == 0 || Offset(text, k - 1) < cursor
    requires k == n || cursor <= Offset(text, k)
    ensures GlyphsBefore(text, cursor, n) == k
  {
    if k < n {
      if k < n - 1 { OffsetIncreases(text, k, n - 1); }
      GlyphsBeforeIs(text, cursor, n - 1, k);
    }
  }

  lemma BreaksInOrder(text: seq<Glyph>, max: nat, cuts: seq<nat>, breaks: seq<nat>)
    requires Encoded(text) && Wrapped(text, max, cuts) && AtOffsets(text, cuts, breaks)
    ensures InOrder(breaks)
  {
    hide Cut, Offset, Wrapped, Encoded;
    forall i, j | 0 <= i <= j < |breaks| ensures breaks[i] <= breaks[j] {
      CutsInOrder(text, max, cuts, i + 1, j + 1);
      assert LineStart(cuts, i + 1) == cuts[i] && LineStart(cuts, j + 1) == cuts[j];
      if cuts[i] < cuts[j] { OffsetIncreases(text, cuts[i], cuts[j]); }
    }
  }

  /** The column of the cursor on the line that starts with character `start`. */
  function Column(text: seq<Glyph>, start: nat, cursor: nat): nat
    requires start <= |text|
  {
    var k := GlyphsBefore(text, cursor, |text|);
    if start <= k then Span(text, start, k) else 0
  }

  /** `compute_wrapped_cursor`; the width is cut down to 16 bits on the way in. */
  method ComputeCursor(text: seq<Glyph>, cursor: nat, maxWidth: nat)
    returns (row: nat, col: U16, ghost cuts: seq<nat>, ghost breaks: seq<nat>)
    requires Measurable(text) && Encoded(text)
    ensures maxWidth == 0 ==> row == 0 && col == 0
    ensures maxWidth > 0 ==>
              var max := maxWidth % 0x1_0000;
              && WellWrapped(text, max, cuts) && AtOffsets(text, cuts, breaks)
              && row == BreaksUpTo(breaks, cursor)
              && LineStart(cuts, row) <= |text|
              && col as int == Column(text, LineStart(cuts, row), cursor)
  {
    hide Wrapped, LinesOk, Marked, NoExcess;
    row, col, cuts, breaks := 0, 0, [], [];
    if maxWidth == 0 { return; }
    var lineBreaks;
    lineBreaks, cuts := ComputeBreaks(text, (maxWidth % 0x1_0000) as U16);
    breaks := lineBreaks;
    BreaksInOrder(text, maxWidth % 0x1_0000, cuts, breaks);

    while row < |lineBreaks| && cursor >= lineBreaks[row]
      invariant row <= |lineBreaks|
      invariant forall k :: 0 <= k < row ==> breaks[k] <= cursor
    {
      row := row + 1;
    }
    FirstAfter(breaks, cursor, row);

    CutsInOrder(text, maxWidth % 0x1_0000, cuts, row, row);
    var start := if row == 0 then 0 else lineBreaks[row - 1];
    ghost var first := LineStart(cuts, row);
    assert start == Offset(text, first);
    col := ColumnFrom(text, cursor, start, first);
  }

  /** Adds up the widths of the characters from byte `start` that begin before the cursor. */
  method ColumnFrom(text: seq<Glyph>, cursor: nat, start: nat, ghost first: nat) returns (col: U16)
    requires Measurable(text) && Encoded(text)
    requires first <= |text| && start == Offset(text, first)
    ensures col as int == Column(text, first, cursor)
  {
    // text[start..]: find the character that begins at byte `start`
    var i, offset := 0, 0;
    while offset < start
      invariant i <= first && offset == Offset(text, i)
      decreases first - i
    {
      offset, i := offset + text[i].bytes, i + 1;
    }
    assert i == first by { if i < first { OffsetIncreases(text, i, first); } }
    col := 0;
    while i < |text| && offset < cursor
      invariant first <= i <= |text| && offset == Offset(text, i)
      invariant col as int == Span(text, first, i)
      invariant i > first ==> Offset(text, i - 1) < cursor
    {
      SpanWithin(text, first, i + 1);
      col := col + text[i].width as U16;
      offset, i := offset + text[i].bytes, i + 1;
    }
    CursorColumn(text, cursor, first, i);
  }

  lemma CursorColumn(text: seq<Glyph>, cursor: nat, first: nat, i: nat)
    requires Encoded(text) && first <= i <= |text|
    requires i > first ==> Offset(text, i - 1) < cursor
    requires i == |text| || cursor <= Offset(text, i)
    ensures Span(text, first, i) == Column(text, first, cursor)
  {
    if i > first {
      GlyphsBeforeIs(text, cursor, |text|, i);
    } else {
      BeforeStays(text, cursor, |text|, i);
    }
  }

  lemma {:induction false} BeforeStays(text: seq<Glyph>, cursor: nat, n: nat, i: nat)
    requires Encoded(text) && i <= n <= |text| && (i == |text| || cursor <= Offset(text, i))
    ensures GlyphsBefore(text, cursor, n) <= i
  {
    if i < n {
      if i < n - 1 { OffsetIncreases(text, i, n - 1); }
      BeforeStays(text, cursor, n - 1, i);
    }
  }

  // ----- what the position means

  /** The cursor is on its own line: past the line's start, and before the next line's. */
  lemma CursorOnItsLine(breaks: seq<nat>, cursor: nat)
    requires InOrder(breaks)
    ensures var row := BreaksUpTo(breaks, cursor);
            && (row > 0 ==> breaks[row - 1] <= cursor)
            && (row < |breaks| ==> cursor < breaks[row])
  {
    var row := 0;
    while row < |breaks| && breaks[row] <= cursor
      invariant row <= |breaks|
      invariant forall k :: 0 <= k < row ==> breaks[k] <= cursor
    {
      row := row + 1;
    }
    FirstAfter(breaks, cursor, row);
  }

  lemma {:induction false} RowGrows(breaks: seq<nat>, cursor: nat, later: nat)
    requires cursor <= later
    ensures BreaksUpTo(breaks, cursor) <= BreaksUpTo(breaks, later)
  {
    if breaks != [] {
      RowGrows(breaks[..|breaks| - 1], cursor, later);
    }
  }

  lemma {:induction false} GlyphsGrow(text: seq<Glyph>, cursor: nat, later: nat, n: nat)
    requires cursor <= later && n <= |text|
    ensures GlyphsBefore(text, cursor, n) <= GlyphsBefore(text, later, n)
  {
    if n > 0 {
      GlyphsGrow(text, cursor, later, n - 1);
    }
  }

  /** Moving the cursor forward never moves it up, nor left on the same row. */
  lemma CursorMovesForward(text: seq<Glyph>, max: nat, cuts: seq<nat>, breaks: seq<nat>, cursor: nat, later: nat)
    requires Wrapped(text, max, cuts) && AtOffsets(text, cuts, breaks) && cursor <= later
    ensures var row, row' := BreaksUpTo(breaks, cursor), BreaksUpTo(breaks, later);
            && LineStart(cuts, row) <= |text| && LineStart(cuts, row') <= |text|
            && (row < row'
                || (row == row'
                    && Column(text, LineStart(cuts, row), cursor) <= Column(text, LineStart(cuts, row'), later)))
  {
    hide Cut;
    var row, row' := BreaksUpTo(breaks, cursor), BreaksUpTo(breaks, later);
    RowGrows(breaks, cursor, later);
    CutsInOrder(text, max, cuts, row, row');
    GlyphsGrow(text, cursor, later, |text|);
    var start, k, k' := LineStart(cuts, row), GlyphsBefore(text, cursor, |text|), GlyphsBefore(text, later, |text|);
    if row == row' && start <= k { SpanSplit(text, start, k, k'); }
  }
}
