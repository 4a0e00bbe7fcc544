/**
 * The main input line, whose cursor counts bytes but moves by one for every key. It does what the
 * permission prompt's editor does exactly as long as the characters it meets have one byte.
 */
module InputLine {
  import opened Options
  import opened Bytes
  import opened Utf8
  import opened PermissionEditor

  datatype Key = Char(c: Scalar) | Erase | GoLeft | GoRight

  const EMPTY := Editor([], 0)

  /** `update_completion_state` looks at the text before the cursor, which panics off a boundary. */
  function Completed(e: Editor): Option<Editor> {
    if Boundary(e.bytes, if e.cursor < |e.bytes| then e.cursor else |e.bytes|) then Some(e) else None
  }

  /** `handle_input_key`; nothing where inserting, removing or slicing off a character boundary panics. */
  function Press(e: Editor, key: Key): Option<Editor> {
    match key
    case Char(c) =>
      if Boundary(e.bytes, e.cursor)
      then Completed(Editor(e.bytes[..e.cursor] + Encode(c) + e.bytes[e.cursor..], e.cursor + 1))
      else None
    case Erase =>
      if e.cursor == 0 then Completed(e)
      else
        var at := e.cursor - 1;
        if at < |e.bytes| && Boundary(e.bytes, at) && at + Width(e.bytes[at]) <= |e.bytes|
        then Completed(Editor(e.bytes[..at] + e.bytes[at + Width(e.bytes[at])..], at))
        else None
    case GoLeft => Some(e.(cursor := if e.cursor == 0 then 0 else e.cursor - 1))
    case GoRight => Some(e.(cursor := if e.cursor + 1 < |e.bytes| then e.cursor + 1 else |e.bytes|))
  }

  /** What the key does in the permission prompt's editor. */
  function Meant(e: Editor, key: Key): Editor
    requires Editable(e)
  {
    match key
    case Char(c) => Insert(e, c)
    case Erase => Backspace(e)
    case GoLeft => Left(e)
    case GoRight => Right(e)
  }

  /** The character that is typed, removed or stepped over has one byte. */
  predicate OneByte(e: Editor, key: Key) {
    match key
    case Char(c) => c < 0x80
    case GoRight => e.cursor >= |e.bytes| || e.bytes[e.cursor] < 0x80
    case _ => e.cursor == 0 || (e.cursor <= |e.bytes| && e.bytes[e.cursor - 1] < 0x80)
  }

  lemma EncodedWidth(c: Scalar)
    ensures |Encode(c)| == 1 <==> c < 0x80
  {
  }

  /** The previous character has one byte exactly if the byte before the cursor is below 0x80. */
  lemma PreviousOneByte(e: Editor)
    requires Editable(e) && e.cursor > 0
    ensures e.cursor <= |e.bytes|
    ensures var prev := Before(e.bytes, e.cursor);
            if e.bytes[e.cursor - 1] < 0x80 then prev == e.cursor - 1 && Width(e.bytes[prev]) == 1
            else prev < e.cursor - 1 && Continues(e.bytes[e.cursor - 1])
  {
    hide Editable;
    InBounds(e);
    CharEnds(e);
  }

  lemma NextOneByte(e: Editor)
    requires Editable(e) && e.cursor < |e.bytes|
    ensures e.bytes[e.cursor] >= 0x80 ==> e.cursor + 1 < |e.bytes| && Continues(e.bytes[e.cursor + 1])
  {
    hide Text, Encode;
    var chars, k := WhatItHolds(e);
    assert chars[..|chars|] == chars;
    TextAround(chars, k);
    EncodeShape(chars[k]);
  }

  /** Typing a character of several bytes panics at once: the cursor is left inside it. */
  lemma WidePanics(e: Editor, c: Scalar)
    requires Editable(e) && c >= 0x80
    ensures Press(e, Char(c)).None?
  {
    hide Text, Editable, Encode;
    EditableIs(e);
    EncodeShape(c);
    EncodedWidth(c);
    var typed := e.bytes[..e.cursor] + Encode(c) + e.bytes[e.cursor..];
    assert typed[e.cursor + 1] == Encode(c)[1];
  }

  /** An editable line survives the completion update. */
  lemma EditableCompletes(e: Editor)
    requires Editable(e)
    ensures Completed(e) == Some(e)
  {
    hide Editable;
    EditableIs(e);
  }

  /**
   * One key leaves a line that can be edited further exactly if the character it meets has one byte,
   * and exactly then it does what is meant.
   */
  lemma PressExactly(e: Editor, key: Key)
    requires Editable(e)
    ensures OneByte(e, key) <==> Press(e, key) == Some(Meant(e, key))
    ensures OneByte(e, key) <==> Press(e, key).Some? && Editable(Press(e, key).value)
  {
    hide Editable, Encode, Before;
    EditableIs(e);
    InBounds(e);
    match key
    case Char(c) => TypedExactly(e, c);
    case Erase => ErasedExactly(e);
    case GoLeft => LeftExactly(e);
    case GoRight => RightExactly(e);
  }

  lemma TypedExactly(e: Editor, c: Scalar)
    requires Editable(e)
    ensures c < 0x80 <==> Press(e, Char(c)) == Some(Insert(e, c))
    ensures c < 0x80 <==> Press(e, Char(c)).Some? && Editable(Press(e, Char(c)).value)
  {
    hide Editable, Encode;
    EditableIs(e);
    EncodedWidth(c);
    if c < 0x80 {
      MeantIsEditable(e, Char(c));
      EditableCompletes(Insert(e, c));
    } else {
      WidePanics(e, c);
    }
  }

  lemma MeantIsEditable(e: Editor, key: Key)
    requires Editable(e)
    ensures Editable(Meant(e, key))
  {
    hide Text, Offset, Insert, Backspace, Left, Right;
    var chars, k := WhatItHolds(e);
    match key
    case Char(c) => InsertInserts(e, c, chars, k);
    case Erase => BackspaceRemoves(e, chars, k);
    case GoLeft => LeftMoves(e, chars, k);
    case GoRight => RightMoves(e, chars, k);
  }

  lemma ErasedExactly(e: Editor)
    requires Editable(e)
    ensures OneByte(e, Erase) <==> Press(e, Erase) == Some(Backspace(e))
    ensures OneByte(e, Erase) <==> Press(e, Erase).Some? && Editable(Press(e, Erase).value)
  {
    hide Editable, Before;
    MeantIsEditable(e, Erase);
    EditableCompletes(Backspace(e));
    if e.cursor > 0 {
      PreviousOneByte(e);
    }
  }

  lemma LeftExactly(e: Editor)
    requires Editable(e)
    ensures OneByte(e, GoLeft) <==> Press(e, GoLeft) == Some(Left(e))
    ensures OneByte(e, GoLeft) <==> Press(e, GoLeft).Some? && Editable(Press(e, GoLeft).value)
  {
    hide Editable, Before;
    MeantIsEditable(e, GoLeft);
    if e.cursor > 0 {
      PreviousOneByte(e);
      EditableIs(Press(e, GoLeft).value);
    }
  }

  lemma RightExactly(e: Editor)
    requires Editable(e)
    ensures OneByte(e, GoRight) <==> Press(e, GoRight) == Some(Right(e))
    ensures OneByte(e, GoRight) <==> Press(e, GoRight).Some? && Editable(Press(e, GoRight).value)
  {
    hide Editable;
    InBounds(e);
    MeantIsEditable(e, GoRight);
    if e.cursor < |e.bytes| {
      NextOneByte(e);
      EditableIs(Press(e, GoRight).value);
    }
  }

  // ----- runs of keys

  /** What a run of keys makes of a line; nothing once one has panicked. */
  function PressAll(e: Editor, keys: seq<Key>): Option<Editor> {
    if keys == [] then Some(e)
    else
      match PressAll(e, keys[..|keys| - 1])
      case Some(now) => Press(now, keys[|keys| - 1])
      case None => None
  }

  predicate Ascii(e: Editor) {
    forall i :: 0 <= i < |e.bytes| ==> e.bytes[i] < 0x80
  }

  predicate TypesAscii(keys: seq<Key>) {
    forall i :: 0 <= i < |keys| ==> keys[i].Char? ==> keys[i].c < 0x80
  }

  lemma AsciiStaysAscii(e: Editor, key: Key)
    requires Editable(e) && Ascii(e) && (key.Char? ==> key.c < 0x80)
    ensures OneByte(e, key) && Press(e, key).Some? && Ascii(Press(e, key).value)
  {
    hide Editable;
    InBounds(e);
    PressExactly(e, key);
  }

  /** As long as only ASCII is typed, no key panics and the line can always be edited further. */
  lemma {:induction false} AsciiLinesHold(keys: seq<Key>)
    requires TypesAscii(keys)
    ensures PressAll(EMPTY, keys).Some? && Editable(PressAll(EMPTY, keys).value) && Ascii(PressAll(EMPTY, keys).value)
  {
    if keys == [] {
      assert Holds(EMPTY, [], 0);
    } else {
      hide Editable, Ascii, Press, OneByte;
      var n := |keys| - 1;
      AsciiLinesHold(keys[..n]);
      var e := PressAll(EMPTY, keys[..n]).value;
      AsciiStaysAscii(e, keys[n]);
      PressExactly(e, keys[n]);
    }
  }

  lemma TypesAsciiNext(keys: seq<Key>)
    requires keys != []
    ensures var n := |keys| - 1;
            TypesAscii(keys) <==> TypesAscii(keys[..n]) && (keys[n].Char? ==> keys[n].c < 0x80)
  {
  }

  lemma NoKeysAscii()
    ensures TypesAscii([])
  {
  }

  /** A run of keys in an empty line panics exactly if it types a character of several bytes. */
  lemma {:induction false} KeysPanicExactly(keys: seq<Key>)
    ensures PressAll(EMPTY, keys).None? <==> !TypesAscii(keys)
  {
    hide Editable, Ascii, Press, TypesAscii;
    if TypesAscii(keys) {
      AsciiLinesHold(keys);
    } else {
      NoKeysAscii();
      var n := |keys| - 1;
      TypesAsciiNext(keys);
      KeysPanicExactly(keys[..n]);
      if TypesAscii(keys[..n]) {
        AsciiLinesHold(keys[..n]);
        WidePanics(PressAll(EMPTY, keys[..n]).value, keys[n].c);
      }
    }
  }

  function Typing(chars: seq<Scalar>): seq<Key> {
    seq(|chars|, i requires 0 <= i < |chars| => Char(chars[i]))
  }

  /** Typing a text panics exactly if any of its characters has several bytes. */
  lemma TypingPanicsExactly(chars: seq<Scalar>)
    ensures PressAll(EMPTY, Typing(chars)).None? <==> exists i :: 0 <= i < |chars| && chars[i] >= 0x80
  {
    hide PressAll;
    KeysPanicExactly(Typing(chars));
    if i :| 0 <= i < |chars| && chars[i] >= 0x80 {
      assert Typing(chars)[i] == Char(chars[i]);
    }
  }

  /** One accented letter in an empty line is enough. */
  lemma OneAccentPanics()
    ensures PressAll(EMPTY, [Char(0xe9)]).None?
  {
    hide PressAll;
    assert !TypesAscii([Char(0xe9)]) by { assert [Char(0xe9)][0] == Char(0xe9); }
    KeysPanicExactly([Char(0xe9)]);
  }
}
