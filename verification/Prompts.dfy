/**
 * The permission and question prompts of the terminal client: what agent events and keys do to
 * the mode and to the pending prompts, and which requests are sent because of them.
 */
module Prompts {
  import opened Options
  import opened Bytes
  import opened Utf8
  import opened PermissionEditor
  import J = JsonStruct

  datatype Mode =
    | Normal
    | PermissionPrompt
    | PermissionEditInput
    | PermissionComment
    | PermissionDenyMessage
    | UserQuestion

  datatype Decision = AllowOnce | AllowSession | AllowWithEdit | Deny | DenyWithInterrupt | DenyNoInterrupt

  /** `PendingPermission`; `input` is the tool's input, if it has one. */
  datatype Permission = Permission(requestId: string, input: Option<J.Json>, editor: Editor, denyInterrupt: bool)

  /** `PendingUserQuestion`, with the labels of its options. */
  datatype Question = Question(
    questionId: string, text: string, options: seq<string>, multiSelect: bool, highlight: nat, selected: seq<nat>)

  /** What the prompts send to the agent. */
  datatype Request =
    | Response(requestId: string, decision: Decision, edited: Option<J.Struct>, message: seq<Byte>)
    | Message(content: seq<Byte>)
    | Answer(questionId: string, text: string, labels: string)

  datatype Key = Char(c: Scalar) | Enter | Esc | Tab | BackspaceKey | LeftKey | RightKey | Up | Down | OtherKey

  datatype Input =
    | Asked(requestId: string, input: Option<J.Struct>)                                // `PermissionRequest`
    | Questioned(questionId: string, text: string, options: seq<string>, multi: bool)  // `UserQuestion`
    | Pressed(key: Key)

  /** How JSON is written as text and read back, which the client leaves to a library. */
  datatype Codec = Codec(write: J.Json -> Option<seq<Scalar>>, read: seq<Byte> -> Option<J.Json>)

  datatype Ui = Ui(mode: Mode, permission: Option<Permission>, question: Option<Question>, json: Codec)

  function Start(json: Codec): Ui {
    Ui(Normal, None, None, json)
  }

  /** The tool's input as the editor shows it. */
  function Written(json: Codec, input: Option<J.Json>): seq<Scalar> {
    if input.None? then [] else match json.write(input.value) case Some(chars) => chars case None => []
  }

  /** What a text stands for as a tool's input; text that is not JSON stands for nothing. */
  function Parsed(json: Codec, text: seq<Byte>): Option<J.Struct> {
    match json.read(text)
    case Some(value) => Some(J.JsonToStruct(value))
    case None => None
  }

  function InputOf(input: Option<J.Struct>): Option<J.Json> {
    if input.None? then None else Some(J.StructToJson(input.value))
  }

  predicate Types(key: Key, c: char) {
    key.Char? && key.c == c as int
  }

  predicate TypesAny(key: Key, lower: char, upper: char, digit: char) {
    Types(key, lower) || Types(key, upper) || Types(key, digit)
  }

  // ----- invariants

  predicate PermissionMode(mode: Mode) {
    mode == PermissionPrompt || EditMode(mode)
  }

  predicate EditMode(mode: Mode) {
    mode == PermissionEditInput || mode == PermissionComment || mode == PermissionDenyMessage
  }

  /** What is selected are different options, at most one of them unless several may be. */
  predicate WellSelected(q: Question) {
    && (forall i, j :: 0 <= i < j < |q.selected| ==> q.selected[i] != q.selected[j])
    && (forall i :: 0 <= i < |q.selected| ==> q.selected[i] < |q.options|)
    && (!q.multiSelect ==> |q.selected| <= 1)
    && (q.highlight < |q.options| || q.highlight == 0)
  }

  /** A permission mode has a permission to act on, and question mode a question. */
  ghost predicate Valid(u: Ui) {
    && (PermissionMode(u.mode) ==> u.permission.Some?)
    && (u.mode == UserQuestion ==> u.question.Some?)
    && (u.permission.Some? ==> Editable(u.permission.value.editor))
    && (u.question.Some? ==> WellSelected(u.question.value))
  }

  lemma NewEditor(chars: seq<Scalar>)
    ensures Holds(Editor(Text(chars), |Text(chars)|), chars, |chars|)
    ensures Editable(Editor(Text(chars), |Text(chars)|))
    ensures Text([]) == []
  {
    AtTheEnd(chars);
    assert Text([]) == [];
    hide Text;
    assert Holds(Editor(Text(chars), |Text(chars)|), chars, |chars|);
  }

  // ----- questions

  function Moved(q: Question, delta: int): Question {
    if q.options == [] then q
    else
      var to := q.highlight + delta;
      q.(highlight := if to < 0 then 0 else if to > |q.options| - 1 then |q.options| - 1 else to)
  }

  function IndexOf(s: seq<nat>, x: nat): (k: nat)
    ensures k <= |s| && (k < |s| ==> s[k] == x) && forall i :: 0 <= i < k ==> s[i] != x
  {
    if s == [] || s[0] == x then 0 else 1 + IndexOf(s[1..], x)
  }

  function Toggled(s: seq<nat>, x: nat): seq<nat> {
    var k := IndexOf(s, x);
    if k < |s| then s[..k] + s[k + 1..] else s + [x]
  }

  function Chosen(q: Question, index: nat): Question {
    if index >= |q.options| then q
    else q.(highlight := index, selected := if q.multiSelect then Toggled(q.selected, index) else [index])
  }

  /** The labels of the selected options, in the order in which they were selected. */
  function Labels(options: seq<string>, selected: seq<nat>): seq<string> {
    if selected == [] then []
    else
      var last := selected[|selected| - 1];
      Labels(options, selected[..|selected| - 1]) + if last < |options| then [options[last]] else []
  }

  function Join(labels: seq<string>): string {
    if labels == [] then ""
    else if |labels| == 1 then labels[0]
    else Join(labels[..|labels| - 1]) + ", " + labels[|labels| - 1]
  }

  /** Choosing an option again takes it back; the rest of the selection stays. */
  lemma ToggleToggles(s: seq<nat>, x: nat)
    requires forall i, j :: 0 <= i < j < |s| ==> s[i] != s[j]
    ensures var t := Toggled(s, x);
            && (forall i, j :: 0 <= i < j < |t| ==> t[i] != t[j])
            && (forall y :: y in t <==> if y == x then x !in s else y in s)
  {
    var k, t := IndexOf(s, x), Toggled(s, x);
    if k < |s| {
      assert forall i :: 0 <= i < |t| ==> t[i] == if i < k then s[i] else s[i + 1];
      forall y ensures y in t <==> y != x && y in s {
        if y in s && y != x {
          var i :| 0 <= i < |s| && s[i] == y;
          assert t[if i < k then i else i - 1] == y;
        }
      }
    }
  }

  lemma ChosenStaysWell(q: Question, index: nat)
    requires WellSelected(q)
    ensures WellSelected(Chosen(q, index))
  {
    if index < |q.options| && q.multiSelect {
      hide Toggled;
      ToggleToggles(q.selected, index);
      var t := Toggled(q.selected, index);
      forall i | 0 <= i < |t| ensures t[i] < |q.options| {
        assert t[i] in t;
      }
    }
  }

  /** Every selected option is in the answer. */
  lemma {:induction false} LabelsAreSelected(q: Question, n: nat)
    requires WellSelected(q) && n <= |q.selected|
    ensures var labels := Labels(q.options, q.selected[..n]);
            |labels| == n && forall i :: 0 <= i < n ==> labels[i] == q.options[q.selected[i]]
  {
    if n > 0 {
      LabelsAreSelected(q, n - 1);
      assert q.selected[..n][..n - 1] == q.selected[..n - 1];
    }
  }

  /** Labels are joined from the first to the last, with a comma and a space between them. */
  lemma {:induction false} JoinFromFront(first: string, rest: seq<string>)
    requires rest != []
    ensures Join([first]) == first && Join([first] + rest) == first + ", " + Join(rest)
    decreases |rest|
  {
    var n := |rest| - 1;
    assert ([first] + rest)[..|rest|] == [first] + rest[..n];
    if n == 0 {
      assert [first] + rest[..n] == [first];
    } else {
      JoinFromFront(first, rest[..n]);
    }
  }

  // ----- one input

  /** What happens to the prompts, and what is sent. */
  datatype Outcome = Outcome(ui: Ui, sent: seq<Request>)

  ghost function Step(u: Ui, input: Input): Outcome
    requires Valid(u)
  {
    match input
    case Asked(id, given) =>
      Outcome(u.(mode := PermissionPrompt, permission := Some(Permission(id, InputOf(given), Editor([], 0), true))), [])
    case Questioned(id, text, options, multi) =>
      Outcome(u.(mode := UserQuestion, question := Some(Question(id, text, options, multi, 0, []))), [])
    case Pressed(key) =>
      if u.mode == PermissionPrompt then PermissionKey(u, key)
      else if EditMode(u.mode) then EditKey(u, key)
      else if u.mode == UserQuestion then QuestionKey(u, key)
      else Outcome(u, [])
  }

  function Sent(u: Ui, decision: Decision, edited: Option<J.Struct>, message: seq<Byte>): Outcome {
    Outcome(u.(permission := None, mode := Normal),
            if u.permission.Some? then [Response(u.permission.value.requestId, decision, edited, message)] else [])
  }

  function Editing(u: Ui): Ui {
    if u.permission.None? then u.(mode := PermissionEditInput)
    else
      var text := Text(Written(u.json, u.permission.value.input));
      u.(mode := PermissionEditInput,
         permission := Some(u.permission.value.(editor := Editor(text, |text|))))
  }

  function Writing(u: Ui, mode: Mode, interrupt: bool): Ui {
    if u.permission.None? then u.(mode := mode)
    else
      u.(mode := mode,
         permission := Some(u.permission.value.(editor := Editor([], 0), denyInterrupt := interrupt)))
  }

  function PermissionKey(u: Ui, key: Key): Outcome {
    if TypesAny(key, 'y', 'Y', '1') then Sent(u, AllowOnce, None, [])
    else if TypesAny(key, 'a', 'A', '2') then Sent(u, AllowSession, None, [])
    else if key == Tab || Types(key, '3') then Outcome(Editing(u), [])
    else if TypesAny(key, 'e', 'E', '4') then Outcome(Writing(u, PermissionComment, false), [])
    else if TypesAny(key, 'n', 'N', '5') then Outcome(Writing(u, PermissionDenyMessage, false), [])
    else if TypesAny(key, 'x', 'X', '6') then Outcome(Writing(u, PermissionDenyMessage, true), [])
    else if key == Esc then Sent(u, Deny, None, [])
    else Outcome(u, [])
  }

  ghost function Edited(e: Editor, key: Key): Editor
    requires Editable(e)
  {
    match key
    case Char(c) => Insert(e, c)
    case BackspaceKey => Backspace(e)
    case LeftKey => Left(e)
    case RightKey => Right(e)
    case _ => e
  }

  ghost function EditKey(u: Ui, key: Key): Outcome
    requires u.permission.Some? ==> Editable(u.permission.value.editor)
  {
    if key == Enter then Submitted(u)
    else if key == Esc then Outcome(u.(mode := PermissionPrompt), [])
    else if u.permission.None? then Outcome(u, [])
    else Outcome(u.(permission := Some(u.permission.value.(editor := Edited(u.permission.value.editor, key)))), [])
  }

  function BufferOf(u: Ui): seq<Byte> {
    if u.permission.Some? then u.permission.value.editor.bytes else []
  }

  function Submitted(u: Ui): Outcome {
    var text := BufferOf(u);
    match u.mode
    case PermissionEditInput => Sent(u, AllowWithEdit, if u.permission.Some? then Parsed(u.json, text) else None, [])
    case PermissionComment =>
      var allowed := Sent(u, AllowOnce, None, []);
      allowed.(sent := allowed.sent + if text != [] then [Message(text)] else [])
    case PermissionDenyMessage =>
      var interrupt := u.permission.None? || u.permission.value.denyInterrupt;
      Sent(u, if interrupt then DenyWithInterrupt else DenyNoInterrupt, None, text)
    case _ => Outcome(u, [])
  }

  function QuestionKey(u: Ui, key: Key): Outcome {
    if key == Esc then Outcome(u.(question := None, mode := Normal), [])
    else if key == Enter then Answered(u)
    else if u.question.None? then Outcome(u, [])
    else
      var q := u.question.value;
      match key
      case Up => Outcome(u.(question := Some(Moved(q, -1))), [])
      case Down => Outcome(u.(question := Some(Moved(q, 1))), [])
      case Char(c) =>
        if Types(key, ' ') then Outcome(u.(question := Some(Chosen(q, q.highlight))), [])
        else if '1' as int <= c <= '9' as int then Outcome(u.(question := Some(Chosen(q, c - '1' as int))), [])
        else Outcome(u, [])
      case _ => Outcome(u, [])
  }

  function Answered(u: Ui): Outcome {
    if u.question.None? then Outcome(u.(question := None, mode := Normal), [])
    else
      var q := u.question.value;
      if q.selected == [] then Outcome(u, [])
      else Outcome(u.(question := None, mode := Normal),
                   [Answer(q.questionId, q.text, Join(Labels(q.options, q.selected)))])
  }

  lemma PermissionKeyStaysValid(u: Ui, key: Key)
    requires Valid(u) && u.mode == PermissionPrompt
    ensures Valid(PermissionKey(u, key).ui)
  {
    hide Editable, WellSelected, Text, Written, Types, TypesAny;
    NewEditor([]);
    NewEditor(Written(u.json, u.permission.value.input));
  }

  lemma EditKeyStaysValid(u: Ui, key: Key)
    requires Valid(u) && EditMode(u.mode)
    ensures Valid(EditKey(u, key).ui)
  {
    hide Editable, WellSelected, Text, Parsed;
    EditedStaysEditable(u.permission.value.editor, key);
    hide Edited;
  }

  lemma QuestionKeyStaysValid(u: Ui, key: Key)
    requires Valid(u) && u.mode == UserQuestion
    ensures Valid(QuestionKey(u, key).ui)
  {
    hide Editable, WellSelected, Labels, Join, Moved, Chosen;
    QuestionStaysWell(u.question.value, key);
  }

  lemma StepStaysValid(u: Ui, input: Input)
    requires Valid(u)
    ensures Valid(Step(u, input).ui)
  {
    hide Editable, WellSelected, Text, InputOf, PermissionKey, EditKey, QuestionKey;
    match input
    case Asked(_, _) => NewEditor([]);
    case Questioned(id, text, options, multi) => FreshQuestion(id, text, options, multi);
    case Pressed(key) =>
      if u.mode == PermissionPrompt {
        PermissionKeyStaysValid(u, key);
      } else if EditMode(u.mode) {
        EditKeyStaysValid(u, key);
      } else if u.mode == UserQuestion {
        QuestionKeyStaysValid(u, key);
      }
  }

  lemma FreshQuestion(id: string, text: string, options: seq<string>, multi: bool)
    ensures WellSelected(Question(id, text, options, multi, 0, []))
  {
  }

  lemma QuestionStaysWell(q: Question, key: Key)
    requires WellSelected(q)
    ensures WellSelected(Moved(q, -1)) && WellSelected(Moved(q, 1)) && WellSelected(Chosen(q, q.highlight))
    ensures key.Char? && '1' as int <= key.c ==> WellSelected(Chosen(q, key.c - '1' as int))
  {
    hide Chosen, WellSelected, Moved;
    MovedStaysWell(q, -1);
    MovedStaysWell(q, 1);
    ChosenStaysWell(q, q.highlight);
    if key.Char? && '1' as int <= key.c { ChosenStaysWell(q, key.c - '1' as int); }
  }

  lemma MovedStaysWell(q: Question, delta: int)
    requires WellSelected(q)
    ensures WellSelected(Moved(q, delta))
  {
  }

  lemma EditedStaysEditable(e: Editor, key: Key)
    requires Editable(e)
    ensures Editable(Edited(e, key))
  {
    hide Text, Offset, Insert, Backspace, Left, Right;
    var chars, k := WhatItHolds(e);
    match key
    case Char(c) => InsertInserts(e, c, chars, k);
    case BackspaceKey => BackspaceRemoves(e, chars, k);
    case LeftKey => LeftMoves(e, chars, k);
    case RightKey => RightMoves(e, chars, k);
    case _ =>
  }
}
