/** What whole runs of agent events and keys do with the prompts. */
module PromptRuns {
  import opened Options
  import opened Bytes
  import opened Utf8
  import opened PermissionEditor
  import opened Prompts
  import J = JsonStruct

  /** The prompts after a run of inputs, and everything sent during it. */
  ghost function After(u: Ui, inputs: seq<Input>): (o: Outcome)
    requires Valid(u)
    ensures Valid(o.ui)
  {
    if inputs == [] then Outcome(u, [])
    else
      var before := After(u, inputs[..|inputs| - 1]);
      StepStaysValid(before.ui, inputs[|inputs| - 1]);
      var now := Step(before.ui, inputs[|inputs| - 1]);
      Outcome(now.ui, before.sent + now.sent)
  }

  lemma AfterNext(u: Ui, inputs: seq<Input>, input: Input)
    requires Valid(u)
    ensures var before := After(u, inputs); var now := Step(before.ui, input);
            After(u, inputs + [input]) == Outcome(now.ui, before.sent + now.sent)
  {
    hide Valid, Step;
    assert (inputs + [input])[..|inputs|] == inputs;
  }

  lemma AfterOne(u: Ui, input: Input)
    requires Valid(u)
    ensures After(u, [input]) == Step(u, input)
  {
    hide Valid, Step;
    AfterNext(u, [], input);
    assert [] + [input] == [input];
  }

  /** In every run, permission modes have a pending permission and question mode a pending question. */
  lemma ModesHavePrompts(json: Codec, inputs: seq<Input>)
    ensures var u := After(Start(json), inputs).ui;
            && (PermissionMode(u.mode) ==> u.permission.Some?)
            && (u.mode == UserQuestion ==> u.question.Some?)
            && (u.permission.Some? ==> Boundary(BufferOf(u), u.permission.value.editor.cursor))
            && (u.question.Some? ==> WellSelected(u.question.value))
  {
    hide After, Editable, WellSelected;
    var u := After(Start(json), inputs).ui;
    if u.permission.Some? { EditableIs(u.permission.value.editor); }
  }

  // ----- responses

  /** The permission requests that some messages respond to. */
  function RespondedTo(sent: seq<Request>): seq<string> {
    if sent == [] then []
    else
      RespondedTo(sent[..|sent| - 1])
      + if sent[|sent| - 1].Response? then [sent[|sent| - 1].requestId] else []
  }

  lemma {:induction false} RespondedConcat(a: seq<Request>, b: seq<Request>)
    ensures RespondedTo(a + b) == RespondedTo(a) + RespondedTo(b)
  {
    if b == [] {
      assert a + b == a;
    } else {
      RespondedConcat(a, b[..|b| - 1]);
      assert (a + b)[..|a + b| - 1] == a + b[..|b| - 1];
    }
  }

  lemma RespondedOne(r: Request)
    ensures RespondedTo([r]) == if r.Response? then [r.requestId] else []
  {
    assert [r][..0] == [];
  }

  function PendingId(u: Ui): Option<string> {
    if u.permission.Some? then Some(u.permission.value.requestId) else None
  }

  /** Nothing is responded to, or the pending permission is, which then is no longer pending. */
  predicate RespondsOnce(u: Ui, o: Outcome) {
    || (RespondedTo(o.sent) == [] && PendingId(o.ui) == PendingId(u))
    || (PermissionMode(u.mode) && PendingId(u).Some? && RespondedTo(o.sent) == [PendingId(u).value] && PendingId(o.ui).None?)
  }

  lemma SentResponds(u: Ui, decision: Decision, edited: Option<J.Struct>, message: seq<Byte>)
    requires PermissionMode(u.mode)
    ensures RespondsOnce(u, Sent(u, decision, edited, message))
  {
    if u.permission.Some? { RespondedOne(Response(u.permission.value.requestId, decision, edited, message)); }
  }

  lemma PermissionKeyResponds(u: Ui, key: Key)
    requires u.mode == PermissionPrompt
    ensures RespondsOnce(u, PermissionKey(u, key))
  {
    SentResponds(u, AllowOnce, None, []);
    SentResponds(u, AllowSession, None, []);
    SentResponds(u, Deny, None, []);
    hide Sent, TypesAny, Types, Text;
  }

  lemma SubmittedResponds(u: Ui)
    requires EditMode(u.mode)
    ensures RespondsOnce(u, Submitted(u))
  {
    var text := BufferOf(u);
    match u.mode
    case PermissionEditInput => SentResponds(u, AllowWithEdit, if u.permission.Some? then Parsed(u.json, text) else None, []);
    case PermissionComment =>
      SentResponds(u, AllowOnce, None, []);
      RespondedConcat(Sent(u, AllowOnce, None, []).sent, [Message(text)]);
      RespondedOne(Message(text));
      assert Sent(u, AllowOnce, None, []).sent + [] == Sent(u, AllowOnce, None, []).sent;
      hide Sent, RespondedTo;
    case PermissionDenyMessage =>
      SentResponds(u, DenyWithInterrupt, None, text);
      SentResponds(u, DenyNoInterrupt, None, text);
      hide Sent;
  }

  lemma QuestionKeyResponds(u: Ui, key: Key)
    ensures RespondsOnce(u, QuestionKey(u, key))
  {
    hide Moved, Chosen, Labels, Join;
    if u.question.Some? {
      var q := u.question.value;
      RespondedOne(Answer(q.questionId, q.text, Join(Labels(q.options, q.selected))));
    }
  }

  lemma StepResponds(u: Ui, input: Input)
    requires Valid(u)
    ensures var o := Step(u, input);
            if input.Asked? then RespondedTo(o.sent) == [] && PendingId(o.ui) == Some(input.requestId)
            else RespondsOnce(u, o)
  {
    hide Editable, WellSelected, Edited, PermissionKey, Submitted, QuestionKey;
    if input.Pressed? {
      if u.mode == PermissionPrompt { PermissionKeyResponds(u, input.key); }
      else if EditMode(u.mode) { SubmittedResponds(u); }
      else if u.mode == UserQuestion { QuestionKeyResponds(u, input.key); }
    }
  }

  // ----- responses answer requests in order

  /** Where in the run the latest permission request was, or the run's length if there was none. */
  function LatestAsked(inputs: seq<Input>): (k: nat)
    ensures k <= |inputs|
    ensures k < |inputs| ==> inputs[k].Asked?
    ensures forall i :: k < i < |inputs| ==> !inputs[i].Asked?
  {
    var n := |inputs|;
    if n == 0 then 0
    else if inputs[n - 1].Asked? then n - 1
    else
      var k := LatestAsked(inputs[..n - 1]);
      if k == n - 1 then n else k
  }

  /** `at[i]` is the request that the `i`th response answers, and these are in order. */
  predicate AnswersInOrder(inputs: seq<Input>, responses: seq<string>, at: seq<nat>) {
    && |at| == |responses|
    && (forall i :: 0 <= i < |at| ==> at[i] < |inputs|)
    && (forall i :: 0 <= i < |at| ==> inputs[at[i]].Asked? && inputs[at[i]].requestId == responses[i])
    && (forall i, j :: 0 <= i < j < |at| ==> at[i] < at[j])
  }

  /** The pending request is the latest one, and it has not been answered. */
  predicate PendingIsLatest(inputs: seq<Input>, pending: Option<string>, at: seq<nat>) {
    pending.Some? ==>
      var k := LatestAsked(inputs);
      k < |inputs| && inputs[k].requestId == pending.value && forall i :: 0 <= i < |at| ==> at[i] < k
  }

  lemma LatestNext(inputs: seq<Input>, input: Input)
    ensures var k := LatestAsked(inputs);
            LatestAsked(inputs + [input])
            == if input.Asked? then |inputs| else if k < |inputs| then k else |inputs| + 1
  {
    assert (inputs + [input])[..|inputs|] == inputs;
  }

  lemma OneMoreInput(inputs: seq<Input>, input: Input, responses: seq<string>, pending: Option<string>, at: seq<nat>)
    requires AnswersInOrder(inputs, responses, at) && PendingIsLatest(inputs, pending, at)
    ensures var more := inputs + [input];
            && AnswersInOrder(more, responses, at)
            && (!input.Asked? ==> PendingIsLatest(more, pending, at))
            && (input.Asked? ==> PendingIsLatest(more, Some(input.requestId), at))
            && (pending.Some? ==> AnswersInOrder(more, responses + [pending.value], at + [LatestAsked(inputs)]))
  {
    LatestNext(inputs, input);
    hide LatestAsked;
  }

  /**
   * In every run of events and keys, however prompts arrive over one another, the permission
   * responses sent answer requests that were received, each at most once and in the order in which
   * they were received; and a request still pending is the latest one and has not been answered.
   */
  lemma {:induction false} ResponsesAnswerInOrder(json: Codec, inputs: seq<Input>) returns (at: seq<nat>)
    ensures var o := After(Start(json), inputs);
            && AnswersInOrder(inputs, RespondedTo(o.sent), at)
            && PendingIsLatest(inputs, PendingId(o.ui), at)
  {
    if inputs == [] {
      at := [];
    } else {
      hide After, Step, RespondedTo, AnswersInOrder, PendingIsLatest, Valid;
      var n := |inputs| - 1;
      var rest, input := inputs[..n], inputs[n];
      assert inputs == rest + [input];
      at := ResponsesAnswerInOrder(json, rest);
      at := NextResponse(json, rest, input, at);
    }
  }

  lemma NextResponse(json: Codec, rest: seq<Input>, input: Input, so: seq<nat>) returns (at: seq<nat>)
    requires AnswersInOrder(rest, RespondedTo(After(Start(json), rest).sent), so)
    requires PendingIsLatest(rest, PendingId(After(Start(json), rest).ui), so)
    ensures var o := After(Start(json), rest + [input]);
            && AnswersInOrder(rest + [input], RespondedTo(o.sent), at)
            && PendingIsLatest(rest + [input], PendingId(o.ui), at)
  {
    hide After, Step, RespondedTo, AnswersInOrder, PendingIsLatest;
    var before := After(Start(json), rest);
    hide Valid;
    var now := Step(before.ui, input);
    AfterNext(Start(json), rest, input);
    RespondedConcat(before.sent, now.sent);
    StepResponds(before.ui, input);
    OneMoreInput(rest, input, RespondedTo(before.sent), PendingId(before.ui), so);
    var r := RespondedTo(before.sent);
    assert r + [] == r;
    at := so;
    if RespondedTo(now.sent) != [] {
      at := so + [LatestAsked(rest)];
      NothingPending(rest + [input], at);
    }
  }

  lemma NothingPending(inputs: seq<Input>, at: seq<nat>)
    ensures PendingIsLatest(inputs, None, at)
  {
  }

  // ----- what becomes of a request

  predicate NoneAsked(inputs: seq<Input>) {
    forall i :: 0 <= i < |inputs| ==> !inputs[i].Asked?
  }

  lemma StrandedStep(u: Ui, input: Input)
    requires Valid(u) && !PermissionMode(u.mode) && !input.Asked?
    ensures RespondedTo(Step(u, input).sent) == [] && !PermissionMode(Step(u, input).ui.mode)
  {
    hide Editable, WellSelected, Labels, Join, Moved, Chosen;
    StepResponds(u, input);
  }

  /** Outside the permission modes, a pending request is never answered. */
  lemma {:induction false} StrandedForever(u: Ui, inputs: seq<Input>)
    requires Valid(u) && !PermissionMode(u.mode) && NoneAsked(inputs)
    ensures RespondedTo(After(u, inputs).sent) == [] && !PermissionMode(After(u, inputs).ui.mode)
  {
    if inputs != [] {
      hide Step, RespondedTo, Valid, PermissionMode;
      var n := |inputs| - 1;
      StrandedForever(u, inputs[..n]);
      var before := After(u, inputs[..n]);
      StrandedStep(before.ui, inputs[n]);
      RespondedConcat(before.sent, Step(before.ui, inputs[n]).sent);
    }
  }

  /** In a permission mode, Escape, or Escape and `y`, answers. */
  lemma StillAnswerable(u: Ui) returns (inputs: seq<Input>)
    requires Valid(u) && PermissionMode(u.mode)
    ensures NoneAsked(inputs) && RespondedTo(After(u, inputs).sent) == [u.permission.value.requestId]
  {
    hide After, RespondedTo, Editable, WellSelected;
    var esc, yes := Pressed(Esc), Pressed(Char('y' as int));
    AfterOne(u, esc);
    RespondedOne(Response(u.permission.value.requestId, Deny, None, []));
    inputs := [esc];
    if EditMode(u.mode) {
      AfterNext(u, [esc], yes);
      var allowed := Response(u.permission.value.requestId, AllowOnce, None, []);
      RespondedOne(allowed);
      EscapeThenYes(u);
      assert [] + [allowed] == [allowed];
      inputs := [esc] + [yes];
    }
  }

  lemma EscapeThenYes(u: Ui)
    requires Valid(u) && EditMode(u.mode)
    ensures var o := Step(u, Pressed(Esc));
            && o == Outcome(u.(mode := PermissionPrompt), [])
            && Step(o.ui, Pressed(Char('y' as int))).sent
               == [Response(u.permission.value.requestId, AllowOnce, None, [])]
  {
    hide Editable, WellSelected;
  }

  /** Whether a pending request can still be answered is decided by the mode alone. */
  lemma AnswerableExactly(u: Ui)
    requires Valid(u)
    ensures (exists inputs :: NoneAsked(inputs) && RespondedTo(After(u, inputs).sent) != []) <==> PermissionMode(u.mode)
  {
    hide After, RespondedTo, Valid, PermissionMode;
    if PermissionMode(u.mode) {
      var inputs := StillAnswerable(u);
    } else {
      forall inputs | NoneAsked(inputs) ensures RespondedTo(After(u, inputs).sent) == [] {
        StrandedForever(u, inputs);
      }
    }
  }

  /** A question that arrives over a permission request strands it. */
  lemma QuestionStrandsPermission(u: Ui, id: string, text: string, options: seq<string>, multi: bool, inputs: seq<Input>)
    requires Valid(u) && u.permission.Some? && NoneAsked(inputs)
    ensures var v := Step(u, Questioned(id, text, options, multi)).ui;
            Valid(v) && v.permission == u.permission && RespondedTo(After(v, inputs).sent) == []
  {
    hide After, RespondedTo, Editable, WellSelected;
    var input := Questioned(id, text, options, multi);
    StepStaysValid(u, input);
    StrandedForever(Step(u, input).ui, inputs);
  }

  // ----- what is typed is what is sent

  function Typed(chars: seq<Scalar>): seq<Input> {
    seq(|chars|, i requires 0 <= i < |chars| => Pressed(Char(chars[i])))
  }

  /** The user interface with some text written and the cursor after it. */
  function Holding(u: Ui, chars: seq<Scalar>): Ui
    requires u.permission.Some?
  {
    u.(permission := Some(u.permission.value.(editor := Editor(Text(chars), |Text(chars)|))))
  }

  lemma TypeOne(u: Ui, chars: seq<Scalar>, c: Scalar)
    requires Valid(u) && EditMode(u.mode)
    ensures var v := Holding(u, chars);
            Valid(v) && Step(v, Pressed(Char(c))) == Outcome(Holding(u, chars + [c]), [])
  {
    hide Editable, WellSelected, Encode;
    NewEditor(chars);
    var e := Editor(Text(chars), |Text(chars)|);
    TextConcat(chars, [c]);
    TextOne(c);
    hide Text;
    assert e.bytes[..e.cursor] + Encode(c) + e.bytes[e.cursor..] == e.bytes + Encode(c);
  }

  /** Typing adds to the end of the text being written. */
  lemma {:induction false} TypingAppends(u: Ui, chars: seq<Scalar>)
    requires Valid(u) && EditMode(u.mode) && u.permission.value.editor == Editor([], 0)
    ensures After(u, Typed(chars)) == Outcome(Holding(u, chars), [])
  {
    hide Step, Holding, EditMode, Editable, WellSelected;
    if chars == [] {
      HoldingNothing(u);
    } else {
      hide After;
      var n := |chars| - 1;
      TypingAppends(u, chars[..n]);
      TypeOne(u, chars[..n], chars[n]);
      AfterNext(u, Typed(chars[..n]), Pressed(Char(chars[n])));
      TypedNext(chars[..n], chars[n]);
      assert chars[..n] + [chars[n]] == chars;
    }
  }

  lemma HoldingNothing(u: Ui)
    requires u.permission.Some? && u.permission.value.editor == Editor([], 0)
    ensures Holding(u, []) == u
  {
  }

  lemma TypedNext(chars: seq<Scalar>, c: Scalar)
    ensures Typed(chars + [c]) == Typed(chars) + [Pressed(Char(c))]
  {
  }

  lemma {:induction false} AfterThen(u: Ui, a: seq<Input>, b: seq<Input>)
    requires Valid(u)
    ensures var first := After(u, a); var second := After(first.ui, b);
            After(u, a + b) == Outcome(second.ui, first.sent + second.sent)
  {
    hide Step, Valid;
    if b == [] {
      assert a + b == a;
    } else {
      AfterThen(u, a, b[..|b| - 1]);
      assert (a + b)[..|a + b| - 1] == a + b[..|b| - 1];
    }
  }

  /** Pressing a key that starts a text, typing it and pressing Enter. */
  lemma WriteText(u: Ui, key: Key, chars: seq<Scalar>)
    requires Valid(u) && EditMode(Step(u, Pressed(key)).ui.mode) && Step(u, Pressed(key)).sent == []
    requires var v := Step(u, Pressed(key)).ui; v.permission.Some? && v.permission.value.editor == Editor([], 0)
    ensures var v := Holding(Step(u, Pressed(key)).ui, chars);
            Valid(v) && After(u, [Pressed(key)] + Typed(chars) + [Pressed(Enter)]) == Submitted(v)
  {
    hide After, Editable, WellSelected, Holding, Submitted, EditMode;
    var first := Step(u, Pressed(key)).ui;
    StepStaysValid(u, Pressed(key));
    AfterOne(u, Pressed(key));
    hide Step, Valid;
    AfterThen(u, [Pressed(key)], Typed(chars));
    TypingAppends(first, chars);
    AfterNext(u, [Pressed(key)] + Typed(chars), Pressed(Enter));
    EnterSubmits(first, chars);
  }

  lemma EnterSubmits(u: Ui, chars: seq<Scalar>)
    requires EditMode(u.mode) && Valid(u)
    ensures var v := Holding(u, chars); Valid(v) && Step(v, Pressed(Enter)) == Submitted(v)
  {
    hide Editable, WellSelected, Text, Submitted;
    NewEditor(chars);
  }

  predicate Allows(key: Key) {
    TypesAny(key, 'y', 'Y', '1')
  }

  predicate AllowsSession(key: Key) {
    TypesAny(key, 'a', 'A', '2')
  }

  /** A single key answers exactly if it is one of three kinds, each with its own decision. */
  lemma OneKeyAnswers(u: Ui, key: Key)
    requires Valid(u) && u.mode == PermissionPrompt
    ensures var o := After(u, [Pressed(key)]);
            if Allows(key) || AllowsSession(key) || key == Esc then
              && o.ui == u.(mode := Normal, permission := None)
              && o.sent == [Response(u.permission.value.requestId,
                                     if Allows(key) then AllowOnce else if AllowsSession(key) then AllowSession else Deny,
                                     None, [])]
            else o.sent == [] && o.ui.permission.Some? && PermissionMode(o.ui.mode)
  {
    hide After, Editable, WellSelected, Text;
    AfterOne(u, Pressed(key));
  }

  /** The option a digit key names. */
  predicate Names(key: Key, index: nat) {
    key.Char? && index < 9 && key.c == '1' as int + index
  }

  lemma DigitChooses(u: Ui, key: Key, index: nat)
    requires Valid(u) && u.mode == UserQuestion && Names(key, index)
    requires !u.question.value.multiSelect && index < |u.question.value.options|
    ensures Step(u, Pressed(key))
         == Outcome(u.(question := Some(u.question.value.(highlight := index, selected := [index]))), [])
  {
    hide Editable, WellSelected;
  }

  lemma EnterSendsLabel(u: Ui, index: nat)
    requires Valid(u) && u.mode == UserQuestion
    requires u.question.value.selected == [index] && index < |u.question.value.options|
    ensures var q := u.question.value;
            Step(u, Pressed(Enter))
            == Outcome(u.(mode := Normal, question := None), [Answer(q.questionId, q.text, q.options[index])])
  {
    hide Editable, WellSelected;
    var q := u.question.value;
    assert [index][..0] == [];
    assert Labels(q.options, [index]) == [q.options[index]];
    assert Join([q.options[index]]) == q.options[index];
  }

  /** In a question with one answer, a digit and Enter send the label of that option. */
  lemma ChoiceSendsLabel(u: Ui, key: Key, index: nat)
    requires Valid(u) && u.mode == UserQuestion && Names(key, index)
    requires !u.question.value.multiSelect && index < |u.question.value.options|
    ensures var q := u.question.value;
            After(u, [Pressed(key)] + [Pressed(Enter)])
            == Outcome(u.(mode := Normal, question := None), [Answer(q.questionId, q.text, q.options[index])])
  {
    hide After, Step, Names, Valid;
    assert u.question.Some? by { Questions(u); }
    StepStaysValid(u, Pressed(key));
    DigitChooses(u, key, index);
    AfterOne(u, Pressed(key));
    AfterNext(u, [Pressed(key)], Pressed(Enter));
    EnterSendsLabel(Step(u, Pressed(key)).ui, index);
  }

  lemma Questions(u: Ui)
    requires Valid(u) && u.mode == UserQuestion
    ensures u.question.Some?
  {
    hide Editable, WellSelected;
  }

  /** A denial sends the text that was typed, and interrupts the turn exactly if it began with `x`. */
  lemma DenialSendsText(u: Ui, key: Key, chars: seq<Scalar>)
    requires Valid(u) && u.mode == PermissionPrompt
    requires TypesAny(key, 'n', 'N', '5') || TypesAny(key, 'x', 'X', '6')
    ensures var decision := if TypesAny(key, 'x', 'X', '6') then DenyWithInterrupt else DenyNoInterrupt;
            After(u, [Pressed(key)] + Typed(chars) + [Pressed(Enter)])
            == Outcome(u.(mode := Normal, permission := None),
                       [Response(u.permission.value.requestId, decision, None, Text(chars))])
  {
    hide After, Editable, WellSelected, Text;
    WriteText(u, key, chars);
  }

  /** A comment allows the tool once and follows it with the text as a message, unless there is none. */
  lemma CommentFollowsApproval(u: Ui, key: Key, chars: seq<Scalar>)
    requires Valid(u) && u.mode == PermissionPrompt && TypesAny(key, 'e', 'E', '4')
    ensures After(u, [Pressed(key)] + Typed(chars) + [Pressed(Enter)])
         == Outcome(u.(mode := Normal, permission := None),
                    [Response(u.permission.value.requestId, AllowOnce, None, [])]
                    + if chars == [] then [] else [Message(Text(chars))])
  {
    hide After, Editable, WellSelected;
    TextIsEmpty(chars);
    hide Text;
    WriteText(u, key, chars);
  }

  lemma TextIsEmpty(chars: seq<Scalar>)
    ensures Text(chars) == [] <==> chars == []
  {
    if chars != [] { EncodeShape(chars[|chars| - 1]); }
  }

  /** Accepting the input as it is shown sends what reading it gives: nothing if it cannot be read. */
  lemma EditSendsWhatIsRead(u: Ui)
    requires Valid(u) && u.mode == PermissionPrompt
    ensures var shown := Text(Written(u.json, u.permission.value.input));
            After(u, [Pressed(Tab)] + [Pressed(Enter)])
            == Outcome(u.(mode := Normal, permission := None),
                       [Response(u.permission.value.requestId, AllowWithEdit, Parsed(u.json, shown), [])])
  {
    hide After, Editable, WellSelected, Text, Written, Parsed;
    AfterOne(u, Pressed(Tab));
    AfterNext(u, [Pressed(Tab)], Pressed(Enter));
  }

  /** The codec reads back what it writes. */
  predicate Rereads(json: Codec, value: J.Json) {
    json.write(value).Some? && json.read(Text(json.write(value).value)) == Some(value)
  }

  /** A request that arrives and is accepted as shown gets its input back exactly if the input is plain. */
  lemma EditKeepsInput(u: Ui, id: string, s: J.Struct)
    requires Valid(u) && Rereads(u.json, J.StructToJson(s))
    ensures var v := Step(u, Asked(id, Some(s))).ui;
            && Valid(v)
            && |After(v, [Pressed(Tab)] + [Pressed(Enter)]).sent| == 1
            && var r := After(v, [Pressed(Tab)] + [Pressed(Enter)]).sent[0];
               && r.Response? && r.requestId == id && r.decision == AllowWithEdit
               && (r.edited == Some(s) <==> J.PlainStruct(s))
  {
    hide After, Editable, WellSelected, Text, J.StructToJson, J.JsonToStruct, J.PlainStruct;
    StepStaysValid(u, Asked(id, Some(s)));
    EditSendsWhatIsRead(Step(u, Asked(id, Some(s))).ui);
    J.PlainStructSurvives(s);
  }

  /** Text that is not JSON is approved with no edit at all. */
  lemma MalformedEditIsDropped(u: Ui)
    requires Valid(u) && u.mode == PermissionEditInput && u.json.read(BufferOf(u)).None?
    ensures After(u, [Pressed(Enter)]).sent == [Response(u.permission.value.requestId, AllowWithEdit, None, [])]
  {
    hide After, Editable, WellSelected;
    AfterOne(u, Pressed(Enter));
  }

  // ----- what becomes of a question

  /** The questions that some messages answer. */
  function AnsweredBy(sent: seq<Request>): seq<string> {
    if sent == [] then []
    else AnsweredBy(sent[..|sent| - 1]) + if sent[|sent| - 1].Answer? then [sent[|sent| - 1].questionId] else []
  }

  lemma {:induction false} AnsweredConcat(a: seq<Request>, b: seq<Request>)
    ensures AnsweredBy(a + b) == AnsweredBy(a) + AnsweredBy(b)
  {
    if b == [] {
      assert a + b == a;
    } else {
      AnsweredConcat(a, b[..|b| - 1]);
      assert (a + b)[..|a + b| - 1] == a + b[..|b| - 1];
    }
  }

  lemma {:induction false} AnsweredNone(sent: seq<Request>)
    requires forall i :: 0 <= i < |sent| ==> !sent[i].Answer?
    ensures AnsweredBy(sent) == []
  {
    if sent != [] { AnsweredNone(sent[..|sent| - 1]); }
  }

  predicate NoneQuestioned(inputs: seq<Input>) {
    forall i :: 0 <= i < |inputs| ==> !inputs[i].Questioned?
  }

  /** A question can be answered while it is shown and has something to choose. */
  predicate CanAnswer(u: Ui) {
    u.mode == UserQuestion && u.question.Some? && u.question.value.options != []
  }

  predicate NoAnswers(sent: seq<Request>) {
    forall i :: 0 <= i < |sent| ==> !sent[i].Answer?
  }

  lemma UnansweredStep(u: Ui, input: Input)
    requires Valid(u) && !CanAnswer(u) && !input.Questioned?
    ensures NoAnswers(Step(u, input).sent) && !CanAnswer(Step(u, input).ui)
  {
    hide Editable, Labels, Join, Edited, Text, Written, Parsed, Types, TypesAny, InputOf;
    if u.mode == UserQuestion {
      SelectedHasOptions(u.question.value);
    }
  }

  lemma SelectedHasOptions(q: Question)
    requires WellSelected(q)
    ensures q.selected != [] ==> q.options != []
  {
    if q.selected != [] {
      assert q.selected[0] < |q.options|;
    }
  }

  /** A question that is not shown, or has no options, is never answered. */
  lemma {:induction false} UnansweredForever(u: Ui, inputs: seq<Input>)
    requires Valid(u) && !CanAnswer(u) && NoneQuestioned(inputs)
    ensures AnsweredBy(After(u, inputs).sent) == [] && !CanAnswer(After(u, inputs).ui)
  {
    if inputs != [] {
      hide Step, Valid, CanAnswer;
      var n := |inputs| - 1;
      UnansweredForever(u, inputs[..n]);
      var before := After(u, inputs[..n]);
      var now := Step(before.ui, inputs[n]);
      UnansweredStep(before.ui, inputs[n]);
      AnsweredNone(now.sent);
      AnsweredConcat(before.sent, now.sent);
    }
  }

  lemma EnterAnswers(u: Ui)
    requires Valid(u) && u.mode == UserQuestion && u.question.value.selected != []
    ensures AnsweredBy(Step(u, Pressed(Enter)).sent) == [u.question.value.questionId]
  {
    hide Editable, WellSelected, Labels, Join;
    var q := u.question.value;
    assert [Answer(q.questionId, q.text, Join(Labels(q.options, q.selected)))][..0] == [];
  }

  /** Enter, or the first option and Enter, answers. */
  lemma QuestionAnswerable(u: Ui) returns (inputs: seq<Input>)
    requires Valid(u) && CanAnswer(u)
    ensures NoneQuestioned(inputs) && AnsweredBy(After(u, inputs).sent) == [u.question.value.questionId]
  {
    hide After, AnsweredBy, Editable, WellSelected;
    var enter, first := Pressed(Enter), Pressed(Char('1' as int));
    if u.question.value.selected != [] {
      inputs := [enter];
      AfterOne(u, enter);
      EnterAnswers(u);
    } else {
      inputs := [first] + [enter];
      AfterOne(u, first);
      AfterNext(u, [first], enter);
      FirstIsChosen(u);
      StepStaysValid(u, first);
      EnterAnswers(Step(u, first).ui);
      var now := Step(Step(u, first).ui, enter);
      assert [] + now.sent == now.sent;
    }
  }

  lemma FirstIsChosen(u: Ui)
    requires Valid(u) && CanAnswer(u) && u.question.value.selected == []
    ensures var o := Step(u, Pressed(Char('1' as int)));
            && o.sent == [] && o.ui.mode == UserQuestion && o.ui.question.Some?
            && o.ui.question.value.selected != [] && o.ui.question.value.questionId == u.question.value.questionId
  {
    hide Editable, WellSelected;
  }

  /** Whether a pending question can still be answered is decided by the mode and by its having options. */
  lemma QuestionAnswerableExactly(u: Ui)
    requires Valid(u)
    ensures (exists inputs :: NoneQuestioned(inputs) && AnsweredBy(After(u, inputs).sent) != []) <==> CanAnswer(u)
  {
    hide After, AnsweredBy, Valid, CanAnswer;
    if CanAnswer(u) {
      var inputs := QuestionAnswerable(u);
    } else {
      forall inputs | NoneQuestioned(inputs) ensures AnsweredBy(After(u, inputs).sent) == [] {
        UnansweredForever(u, inputs);
      }
    }
  }

  /** A permission request that arrives over a question strands it, even once the request is answered. */
  lemma PermissionStrandsQuestion(u: Ui, id: string, given: Option<J.Struct>, inputs: seq<Input>)
    requires Valid(u) && u.question.Some? && NoneQuestioned(inputs)
    ensures var v := Step(u, Asked(id, given)).ui;
            && Valid(v) && v.question == u.question && AnsweredBy(After(v, inputs).sent) == []
  {
    hide After, AnsweredBy, Editable, WellSelected;
    var input := Asked(id, given);
    StepStaysValid(u, input);
    UnansweredForever(Step(u, input).ui, inputs);
  }

  // ----- the keys of a question

  /** Only the highlight differs. */
  ghost predicate Highlights(before: Ui, after: Ui, to: nat) {
    before.question.Some? && after == before.(question := Some(before.question.value.(highlight := to)))
  }

  /** The arrows move the highlight by one, as far as there are options. */
  lemma ArrowsMove(u: Ui)
    requires Valid(u) && u.mode == UserQuestion
    ensures var h, n := u.question.value.highlight, |u.question.value.options|;
            && After(u, [Pressed(Up)]).sent == [] == After(u, [Pressed(Down)]).sent
            && Highlights(u, After(u, [Pressed(Up)]).ui, if h > 0 then h - 1 else 0)
            && Highlights(u, After(u, [Pressed(Down)]).ui, if h + 1 < n then h + 1 else h)
  {
    hide After, Step, Editable, WellSelected;
    AfterOne(u, Pressed(Up));
    AfterOne(u, Pressed(Down));
    UpAndDown(u);
  }

  lemma UpAndDown(u: Ui)
    requires Valid(u) && u.mode == UserQuestion
    ensures var h, n := u.question.value.highlight, |u.question.value.options|;
            && Step(u, Pressed(Up)).sent == [] == Step(u, Pressed(Down)).sent
            && Highlights(u, Step(u, Pressed(Up)).ui, if h > 0 then h - 1 else 0)
            && Highlights(u, Step(u, Pressed(Down)).ui, if h + 1 < n then h + 1 else h)
  {
    hide Editable, PermissionKey, EditKey;
    var q := u.question.value;
    assert q.highlight < |q.options| || q.highlight == 0;
    hide WellSelected;
  }

  /** The space bar chooses the highlighted option, or takes it back where several may be chosen. */
  lemma SpaceChooses(u: Ui)
    requires Valid(u) && u.mode == UserQuestion && u.question.value.options != []
    ensures var q, o := u.question.value, After(u, [Pressed(Char(' ' as int))]);
            && o.sent == [] && o.ui.(question := u.question) == u && o.ui.question.Some?
            && var p := o.ui.question.value;
               && p.(selected := q.selected) == q
               && (!q.multiSelect ==> p.selected == [q.highlight])
               && (q.multiSelect ==>
                     forall y :: y in p.selected <==> if y == q.highlight then y !in q.selected else y in q.selected)
  {
    hide After, Editable, Toggled;
    AfterOne(u, Pressed(Char(' ' as int)));
    ToggleToggles(u.question.value.selected, u.question.value.highlight);
  }

  /** Escape gives a question up without an answer. */
  lemma EscapeDismisses(u: Ui)
    requires Valid(u) && u.mode == UserQuestion
    ensures After(u, [Pressed(Esc)]) == Outcome(u.(mode := Normal, question := None), [])
  {
    hide After, Editable, WellSelected;
    AfterOne(u, Pressed(Esc));
  }

  /** Enter sends the chosen labels, in the order in which they were chosen, or does nothing without any. */
  lemma EnterSendsLabels(u: Ui)
    requires Valid(u) && u.mode == UserQuestion
    ensures var q, o := u.question.value, After(u, [Pressed(Enter)]);
            if q.selected == [] then o == Outcome(u, [])
            else
              && o.ui == u.(mode := Normal, question := None)
              && o.sent == [Answer(q.questionId, q.text, Join(seq(|q.selected|, i requires 0 <= i < |q.selected| =>
                     if q.selected[i] < |q.options| then q.options[q.selected[i]] else "")))]
  {
    hide After, Step, Editable, WellSelected, Labels, Join;
    AfterOne(u, Pressed(Enter));
    EnterStep(u);
    LabelsInOrder(u.question.value);
  }

  lemma EnterStep(u: Ui)
    requires Valid(u) && u.mode == UserQuestion
    ensures var q := u.question.value;
            Step(u, Pressed(Enter)) == if q.selected == [] then Outcome(u, [])
                                       else Outcome(u.(mode := Normal, question := None),
                                                    [Answer(q.questionId, q.text, Join(Labels(q.options, q.selected)))])
  {
    hide Editable, WellSelected, Labels, Join, PermissionKey, EditKey;
  }

  lemma LabelsInOrder(q: Question)
    requires WellSelected(q)
    ensures Labels(q.options, q.selected)
         == seq(|q.selected|, i requires 0 <= i < |q.selected| =>
              if q.selected[i] < |q.options| then q.options[q.selected[i]] else "")
  {
    LabelsAreSelected(q, |q.selected|);
    assert q.selected[..|q.selected|] == q.selected;
  }
}
