/** The text editor of the permission prompt: UTF-8 bytes with a byte cursor. */
module PermissionEditor {
  import opened Bytes
  import opened Utf8

  datatype Editor = Editor(bytes: seq<Byte>, cursor: nat)

  /** The editor holds `chars`, with the cursor before character `k`. */
  predicate Holds(e: Editor, chars: seq<Scalar>, k: nat) {
    k <= |chars| && e.bytes == Text(chars) && e.cursor == Offset(chars, k)
  }

  /** The bytes are UTF-8 text and the cursor is between two characters of it. */
  ghost predicate Editable(e: Editor) {
    exists chars, k :: Holds(e, chars, k)
  }

  lemma WhatItHolds(e: Editor) returns (chars: seq<Scalar>, k: nat)
    requires Editable(e)
    ensures Holds(e, chars, k)
  {
    chars, k :| Holds(e, chars, k);
  }

  /** The bytes and the byte cursor determine the characters and the character cursor. */
  lemma HoldsOneThing(e: Editor, a: seq<Scalar>, i: nat, b: seq<Scalar>, j: nat)
    requires Holds(e, a, i) && Holds(e, b, j)
    ensures a == b && i == j
  {
    hide Text;
    TextInjective(a, b);
    if i < j { OffsetsGrow(a, i, j); }
    if j < i { OffsetsGrow(a, j, i); }
  }

  /** Editable means exactly: valid text, and a cursor `String::insert` and slicing accept. */
  lemma EditableIs(e: Editor)
    ensures Editable(e) <==> (exists chars :: e.bytes == Text(chars)) && Boundary(e.bytes, e.cursor)
  {
    hide Text;
    if Editable(e) {
      var chars, k := WhatItHolds(e);
      OffsetIsBoundary(chars, k);
    }
    if (exists chars :: e.bytes == Text(chars)) && Boundary(e.bytes, e.cursor) {
      var chars :| e.bytes == Text(chars);
      var k := BoundaryIsOffset(chars, e.cursor);
      assert Holds(e, chars, k);
    }
  }

  // ----- the keys

  function Insert(e: Editor, c: Scalar): Editor
    requires Editable(e)
  {
    InBounds(e);
    Editor(e.bytes[..e.cursor] + Encode(c) + e.bytes[e.cursor..], e.cursor + |Encode(c)|)
  }

  /** Remove the character before the cursor. */
  function Backspace(e: Editor): Editor
    requires Editable(e)
  {
    if e.cursor == 0 then e
    else
      InBounds(e);
      var prev := Before(e.bytes, e.cursor);
      CharEnds(e);
      Editor(e.bytes[..prev] + e.bytes[prev + Width(e.bytes[prev])..], prev)
  }

  function Left(e: Editor): Editor
    requires Editable(e)
  {
    InBounds(e);
    if e.cursor == 0 then e else e.(cursor := Before(e.bytes, e.cursor))
  }

  function Right(e: Editor): Editor
    requires Editable(e)
  {
    if e.cursor >= |e.bytes| then e
    else
      var next := e.cursor + Width(e.bytes[e.cursor]);
      e.(cursor := if next < |e.bytes| then next else |e.bytes|)
  }

  lemma InBounds(e: Editor)
    requires Editable(e)
    ensures e.cursor <= |e.bytes|
  {
    var chars, k := WhatItHolds(e);
    TextSplit(chars, k);
  }

  lemma CharEnds(e: Editor)
    requires Editable(e) && 0 < e.cursor <= |e.bytes|
    ensures var prev := Before(e.bytes, e.cursor); prev + Width(e.bytes[prev]) == e.cursor
  {
    hide Text;
    var chars, k := WhatItHolds(e);
    if k == 0 { StartsAtZero(chars); }
    BeforeIsPrevious(chars, k);
    WidthIsNext(chars, k - 1);
  }

  lemma StartsAtZero(chars: seq<Scalar>)
    ensures Offset(chars, 0) == 0
  {
  }

  // ----- what they do to the characters

  lemma InsertInserts(e: Editor, c: Scalar, chars: seq<Scalar>, k: nat)
    requires Holds(e, chars, k)
    ensures Holds(Insert(e, c), chars[..k] + [c] + chars[k..], k + 1)
  {
    hide Encode;
    var more := chars[..k] + [c] + chars[k..];
    TextSplit(chars, k);
    TextAround(more, k);
    assert more[..k] == chars[..k] && more[k + 1..] == chars[k..];
    hide Text;
  }

  lemma LeftMoves(e: Editor, chars: seq<Scalar>, k: nat)
    requires Holds(e, chars, k)
    ensures Holds(Left(e), chars, if k == 0 then 0 else k - 1)
  {
    if k > 0 { BeforeIsPrevious(chars, k); }
  }

  lemma RightMoves(e: Editor, chars: seq<Scalar>, k: nat)
    requires Holds(e, chars, k)
    ensures Holds(Right(e), chars, if k == |chars| then k else k + 1)
  {
    if k < |chars| {
      WidthIsNext(chars, k);
    } else {
      assert chars[..k] == chars;
    }
  }

  lemma BackspaceRemoves(e: Editor, chars: seq<Scalar>, k: nat)
    requires Holds(e, chars, k)
    ensures if k == 0 then Backspace(e) == e
            else Holds(Backspace(e), chars[..k - 1] + chars[k..], k - 1)
  {
    hide Encode;
    StartsAtZero(chars);
    if k > 0 {
      hide Text, Before, Width;
      var fewer := chars[..k - 1] + chars[k..];
      BeforeIsPrevious(chars, k);
      WidthIsNext(chars, k - 1);
      TextAround(chars, k - 1);
      TextConcat(chars[..k - 1], chars[k..]);
      assert fewer[..k - 1] == chars[..k - 1];
      WithoutMiddle(Text(chars[..k - 1]), Encode(chars[k - 1]), Text(chars[k..]));
    }
  }

  lemma WithoutMiddle(a: seq<Byte>, b: seq<Byte>, c: seq<Byte>)
    ensures (a + b + c)[..|a|] == a && (a + b + c)[|a| + |b|..] == c
  {
  }

  // ----- undoing a key

  lemma BackspaceUndoesInsert(e: Editor, c: Scalar)
    requires Editable(e)
    ensures Editable(Insert(e, c)) && Backspace(Insert(e, c)) == e
  {
    hide Text, Insert, Backspace;
    var chars, k := WhatItHolds(e);
    InsertInserts(e, c, chars, k);
    var more := chars[..k] + [c] + chars[k..];
    BackspaceRemoves(Insert(e, c), more, k + 1);
    assert more[..k] + more[k + 1..] == chars;
  }

  lemma RightUndoesLeft(e: Editor)
    requires Editable(e) && e.cursor > 0
    ensures Editable(Left(e)) && Right(Left(e)) == e
  {
    hide Text, Left, Right;
    var chars, k := WhatItHolds(e);
    StartsAtZero(chars);
    LeftMoves(e, chars, k);
    RightMoves(Left(e), chars, k - 1);
  }

  lemma LeftUndoesRight(e: Editor)
    requires Editable(e) && e.cursor < |e.bytes|
    ensures Editable(Right(e)) && Left(Right(e)) == e
  {
    hide Text, Left, Right;
    var chars, k := WhatItHolds(e);
    AtTheEnd(chars);
    RightMoves(e, chars, k);
    LeftMoves(Right(e), chars, k + 1);
  }

  lemma AtTheEnd(chars: seq<Scalar>)
    ensures Offset(chars, |chars|) == |Text(chars)|
  {
    assert chars[..|chars|] == chars;
  }
}
