/** The terminal client's state, which agent events and keys change in place. */
module App {
  import opened Options
  import opened Bytes
  import opened Utf8
  import opened PermissionEditor
  import opened Prompts
  import C = Conversation
  import J = JsonStruct
  import L = ConversationLaws
  import R = PromptRuns

  class App {
    var mode: Mode
    var pendingPermission: Option<Permission>
    var pendingQuestion: Option<Question>
    var sent: seq<Request>  // what has been put on the request channel

    var messages: seq<C.Msg>
    var toolCalls: seq<C.Entry>
    var sessionId: Option<string>
    var model: string
    var status: string
    var agentBusy: bool
    var pendingClientCommand: Option<C.Command>
    var compactionSummary: Option<string>
    var input: string
    var inputHistory: seq<string>  // the latest first

    const json: Codec
    ghost var inputs: seq<Input>  // the prompts that arrived and the keys pressed, since the start

    /** The prompts and the mode. */
    ghost function Value(): Ui
      reads this
    {
      Ui(mode, pendingPermission, pendingQuestion, json)
    }

    ghost function View(): C.View
      reads this
    {
      C.View(messages, toolCalls, sessionId, model)
    }

    /** What is on the screen. */
    ghost function Screen(): C.Screen
      reads this
    {
      C.Screen(View(), C.Chrome(status, agentBusy, pendingClientCommand, compactionSummary))
    }

    /** The outcome `o`, with its requests sent after those sent before. */
    ghost predicate Is(o: Outcome, before: seq<Request>)
      reads this
    {
      Value() == o.ui && sent == before + o.sent
    }

    /**
     * The prompts are what the inputs so far lead to, and so is everything sent; and in the
     * conversation every call has its line and nothing but the assistant streams.
     */
    ghost predicate Valid()
      reads this
    {
      && R.After(Start(json), inputs) == Outcome(Value(), sent)
      && Prompts.Valid(Value())
      && L.Sound(View())
    }

    constructor (json: Codec)
      ensures Valid() && this.json == json && inputs == [] && Value() == Start(json) && sent == []
      ensures View() == C.EMPTY && pendingClientCommand.None? && input == "" && inputHistory == []
    {
      this.json := json;
      mode, pendingPermission, pendingQuestion, sent := Normal, None, None, [];
      messages, toolCalls, sessionId, model := [], [], None, "";
      status, agentBusy, pendingClientCommand, compactionSummary := "Connecting...", false, None, None;
      input, inputHistory := "", [];
      inputs := [];
    }

    /**
     * Whatever has been sent: the permission responses answer requests that arrived, each at most
     * once and in their order, and a request still pending is the latest and unanswered.
     */
    lemma SentAnswersInOrder() returns (at: seq<nat>)
      requires Valid()
      ensures R.AnswersInOrder(inputs, R.RespondedTo(sent), at)
      ensures R.PendingIsLatest(inputs, R.PendingId(Value()), at)
    {
      at := R.ResponsesAnswerInOrder(json, inputs);
    }

    /** One more input, taken as the specification says. */
    ghost method Took(input: Input, was: Ui, before: seq<Request>)
      requires Prompts.Valid(was) && R.After(Start(json), inputs) == Outcome(was, before)
      requires Is(Step(was, input), before) && L.Sound(View())
      modifies this`inputs
      ensures inputs == old(inputs) + [input] && Valid()
    {
      hide Step, R.After, L.Sound;
      R.AfterNext(Start(json), inputs, input);
      StepStaysValid(was, input);
      inputs := inputs + [input];
    }

    // ----- prompts

    /** `handle_event` on a `PermissionRequest`. */
    method HandlePermissionRequest(requestId: string, input: Option<J.Struct>)
      requires Valid()
      modifies this`mode, this`pendingPermission, this`inputs
      ensures Valid() && inputs == old(inputs) + [Asked(requestId, input)]
      ensures Is(Step(old(Value()), Asked(requestId, input)), old(sent))
    {
      hide R.After, L.Sound;
      ghost var was := Value();
      var originalInput := if input.Some? then Some(J.StructToJson(input.value)) else None;
      mode := PermissionPrompt;
      pendingPermission := Some(Permission(requestId, originalInput, Editor([], 0), true));
      assert sent + [] == sent;
      Took(Asked(requestId, input), was, sent);
    }

    /** `handle_event` on a `UserQuestion`. */
    method HandleUserQuestion(questionId: string, text: string, options: seq<string>, multi: bool)
      requires Valid()
      modifies this`mode, this`pendingQuestion, this`inputs
      ensures Valid() && inputs == old(inputs) + [Questioned(questionId, text, options, multi)]
      ensures Is(Step(old(Value()), Questioned(questionId, text, options, multi)), old(sent))
    {
      hide R.After, L.Sound;
      ghost var was := Value();
      mode := UserQuestion;
      pendingQuestion := Some(Question(questionId, text, options, multi, 0, []));
      assert sent + [] == sent;
      Took(Questioned(questionId, text, options, multi), was, sent);
    }

    /** `handle_term_event` on a key. */
    method HandleKey(key: Key)
      requires Valid()
      modifies this`mode, this`pendingPermission, this`pendingQuestion, this`sent, this`inputs
      ensures Valid() && inputs == old(inputs) + [Pressed(key)]
      ensures Is(Step(old(Value()), Pressed(key)), old(sent))
    {
      hide PermissionKey, EditKey, QuestionKey, R.After, L.Sound;
      ghost var was, before := Value(), sent;
      match mode {
        case PermissionPrompt => HandlePermissionKey(key);
        case PermissionEditInput => HandlePermissionEditKey(key);
        case PermissionComment => HandlePermissionEditKey(key);
        case PermissionDenyMessage => HandlePermissionEditKey(key);
        case UserQuestion => HandleQuestionKey(key);
        case Normal =>
      }
      Took(Pressed(key), was, before);
    }

    method HandlePermissionKey(key: Key)
      modifies this`mode, this`pendingPermission, this`pendingQuestion, this`sent
      ensures Is(PermissionKey(old(Value()), key), old(sent))
    {
      hide Text;
      if TypesAny(key, 'y', 'Y', '1') {
        SendPermission(AllowOnce, None, []);
      } else if TypesAny(key, 'a', 'A', '2') {
        SendPermission(AllowSession, None, []);
      } else if key == Tab || Types(key, '3') {
        StartPermissionEdit();
      } else if TypesAny(key, 'e', 'E', '4') {
        StartPermissionText(PermissionComment, false);
      } else if TypesAny(key, 'n', 'N', '5') {
        StartPermissionText(PermissionDenyMessage, false);
      } else if TypesAny(key, 'x', 'X', '6') {
        StartPermissionText(PermissionDenyMessage, true);
      } else if key == Esc {
        SendPermission(Deny, None, []);
      }
    }

    method SendPermission(decision: Decision, edited: Option<J.Struct>, message: seq<Byte>)
      modifies this`mode, this`pendingPermission, this`pendingQuestion, this`sent
      ensures Is(Sent(old(Value()), decision, edited, message), old(sent))
    {
      if pendingPermission.Some? {
        sent := sent + [Response(pendingPermission.value.requestId, decision, edited, message)];
      }
      pendingPermission := None;
      mode := Normal;
    }

    method StartPermissionEdit()
      modifies this`mode, this`pendingPermission
      ensures Value() == Editing(old(Value()))
    {
      if pendingPermission.Some? {
        var text := Text(Written(json, pendingPermission.value.input));
        pendingPermission := Some(pendingPermission.value.(editor := Editor(text, |text|)));
      }
      mode := PermissionEditInput;
    }

    method StartPermissionText(to: Mode, interrupt: bool)
      modifies this`mode, this`pendingPermission
      ensures Value() == Writing(old(Value()), to, interrupt)
    {
      if pendingPermission.Some? {
        pendingPermission := Some(pendingPermission.value.(editor := Editor([], 0), denyInterrupt := interrupt));
      }
      mode := to;
    }

    method HandlePermissionEditKey(key: Key)
      requires pendingPermission.Some? ==> Editable(pendingPermission.value.editor)
      modifies this`mode, this`pendingPermission, this`pendingQuestion, this`sent
      ensures Is(EditKey(old(Value()), key), old(sent))
    {
      hide Editable, Insert, Backspace, Left, Right;
      match key {
        case Enter => SubmitPermissionEdit();
        case Esc => mode := PermissionPrompt;
        case Char(c) =>
          if pendingPermission.Some? { SetEditor(Insert(pendingPermission.value.editor, c)); }
        case BackspaceKey =>
          if pendingPermission.Some? { SetEditor(Backspace(pendingPermission.value.editor)); }
        case LeftKey =>
          if pendingPermission.Some? { SetEditor(Left(pendingPermission.value.editor)); }
        case RightKey =>
          if pendingPermission.Some? { SetEditor(Right(pendingPermission.value.editor)); }
        case _ =>
      }
    }

    method SetEditor(editor: Editor)
      requires pendingPermission.Some?
      modifies this`pendingPermission
      ensures pendingPermission == Some(old(pendingPermission).value.(editor := editor))
    {
      pendingPermission := Some(pendingPermission.value.(editor := editor));
    }

    method SubmitPermissionEdit()
      modifies this`mode, this`pendingPermission, this`pendingQuestion, this`sent
      ensures Is(Submitted(old(Value())), old(sent))
    {
      var text := if pendingPermission.Some? then pendingPermission.value.editor.bytes else [];
      if mode == PermissionEditInput {
        var edited := if pendingPermission.Some? then Parsed(json, text) else None;
        SendPermission(AllowWithEdit, edited, []);
      } else if mode == PermissionComment {
        SendPermission(AllowOnce, None, []);
        if text != [] {
          sent := sent + [Message(text)];
        }
      } else if mode == PermissionDenyMessage {
        var interrupt := pendingPermission.None? || pendingPermission.value.denyInterrupt;
        SendPermission(if interrupt then DenyWithInterrupt else DenyNoInterrupt, None, text);
      }
    }

    method HandleQuestionKey(key: Key)
      modifies this`mode, this`pendingPermission, this`pendingQuestion, this`sent
      ensures Is(QuestionKey(old(Value()), key), old(sent))
    {
      hide Labels, Join;
      match key {
        case Up => MoveQuestionHighlight(-1);
        case Down => MoveQuestionHighlight(1);
        case Char(c) =>
          if Types(key, ' ') {
            if pendingQuestion.Some? { SelectQuestionOption(pendingQuestion.value.highlight); }
          } else if '1' as int <= c <= '9' as int {
            SelectQuestionOption(c - '1' as int);
          }
        case Enter => SubmitQuestion();
        case Esc =>
          pendingQuestion := None;
          mode := Normal;
        case _ =>
      }
    }

    /** Nothing but the highlight changes, and it stays among the options. */
    method MoveQuestionHighlight(delta: int)
      modifies this`pendingQuestion
      ensures old(pendingQuestion).None? ==> pendingQuestion.None?
      ensures old(pendingQuestion).Some? ==>
                && pendingQuestion.Some?
                && var q, p, to := old(pendingQuestion).value, pendingQuestion.value, old(pendingQuestion).value.highlight + delta;
                   && p.(highlight := q.highlight) == q
                   && (q.options == [] ==> p == q)
                   && (q.options != [] ==> p.highlight < |q.options|)
                   && (0 <= to < |q.options| ==> p.highlight == to)
                   && (q.options != [] && to < 0 ==> p.highlight == 0)
                   && (q.options != [] && to >= |q.options| ==> p.highlight == |q.options| - 1)
    {
      if pendingQuestion.Some? {
        var q := pendingQuestion.value;
        if q.options == [] { return; }
        var max := |q.options| - 1;
        var to := q.highlight + delta;
        pendingQuestion := Some(q.(highlight := if to < 0 then 0 else if max < to then max else to));
      }
    }

    /** Nothing but the highlight and the selection changes: one option is toggled, or chosen alone. */
    method SelectQuestionOption(index: nat)
      modifies this`pendingQuestion
      ensures old(pendingQuestion).None? ==> pendingQuestion.None?
      ensures old(pendingQuestion).Some? ==>
                && pendingQuestion.Some?
                && var q, p := old(pendingQuestion).value, pendingQuestion.value;
                   && p.(highlight := q.highlight, selected := q.selected) == q
                   && (index >= |q.options| ==> p == q)
                   && (index < |q.options| ==> p.highlight == index)
                   && (index < |q.options| && !q.multiSelect ==> p.selected == [index])
                   && (index < |q.options| && q.multiSelect && index !in q.selected ==> p.selected == q.selected + [index])
                   && (index < |q.options| && q.multiSelect && index in q.selected ==>
                         exists k :: 0 <= k < |q.selected| && q.selected[k] == index && index !in q.selected[..k]
                                     && p.selected == q.selected[..k] + q.selected[k + 1..])
    {
      if pendingQuestion.Some? {
        var q := pendingQuestion.value;
        if index >= |q.options| { return; }
        q := q.(highlight := index);
        if q.multiSelect {
          var pos := IndexOf(q.selected, index);
          if pos < |q.selected| {
            q := q.(selected := q.selected[..pos] + q.selected[pos + 1..]);
          } else {
            q := q.(selected := q.selected + [index]);
          }
        } else {
          q := q.(selected := [index]);
        }
        pendingQuestion := Some(q);
      }
    }

    method SubmitQuestion()
      modifies this`mode, this`pendingPermission, this`pendingQuestion, this`sent
      ensures Is(Answered(old(Value())), old(sent))
    {
      hide Labels, Join;
      if pendingQuestion.Some? {
        var q := pendingQuestion.value;
        if q.selected == [] { return; }
        sent := sent + [Answer(q.questionId, q.text, Join(Labels(q.options, q.selected)))];
      }
      pendingQuestion := None;
      mode := Normal;
    }

    // ----- the conversation

    /** `handle_event`, apart from its two prompts; it panics instead if it cannot cut a result's output. */
    method HandleEvent(event: C.Event, now: nat) returns (ok: bool)
      requires Valid()
      modifies this`messages, this`toolCalls, this`sessionId, this`model, this`status, this`agentBusy,
        this`pendingClientCommand, this`compactionSummary
      ensures Valid() && (ok <==> C.Previewable(event.body))
      ensures Screen() == if C.Previewable(event.body) then C.Live(old(Screen()), event, now) else old(Screen())
    {
      hide C.Previewable, C.Live, L.Sound, R.After;
      ok := C.Previewable(event.body);
      if ok {
        L.LiveIsSound(Screen(), event, now);
        TakeEvent(event, now);
      }
    }

    method TakeEvent(event: C.Event, now: nat)
      requires C.Previewable(event.body)
      modifies this`messages, this`toolCalls, this`sessionId, this`model, this`status, this`agentBusy,
        this`pendingClientCommand, this`compactionSummary
      ensures Screen() == C.Live(old(Screen()), event, now)
    {
      hide C.Preview, C.LastAssistant, C.ToolLine, C.ErrorLine, C.ResultLine, C.LiveText, C.Execute, C.StartCall,
        C.FinishCall;
      var agent := if event.parent == "" then None else Some("subagent");
      match event.body {
        case TextDelta(text, isComplete) => HandleText(event.body, agent);
        case ToolCallStart(_, _, _, _) => HandleToolStart(event.body, agent);
        case ToolCallResult(_, _, _, _) => HandleToolResult(event.body, agent, now);
        case SessionInfo(id, name) =>
          sessionId := Some(id);
          model := name;
          status := "Session: " + id + " | Model: " + name;
        case StatusChange(message, thinking) =>
          if message != "" {
            status := message;
          }
          agentBusy := thinking;
        case TurnComplete =>
          FinishStreaming();
          agentBusy := false;
          ExecutePendingClientCommand();
        case Error(code, message, isFatal) =>
          AddMessage(C.Plain(C.System, C.ErrorLine(code, message), agent));
          if isFatal {
            status := "Fatal error: " + message;
          }
        case UserInput(_) =>
        case Other =>
      }
    }

    method AddMessage(m: C.Msg)
      modifies this`messages
      ensures messages == old(messages) + [m]
    {
      messages := messages + [m];
    }

    method AppendText(text: string)
      modifies this`messages
      ensures messages ==
              if old(messages) != [] && C.Last(old(messages)).streaming
              then C.WithLast(old(messages), C.Last(old(messages)).(content := C.Last(old(messages)).content + text))
              else old(messages)
    {
      if messages != [] && messages[|messages| - 1].streaming {
        var last := messages[|messages| - 1];
        messages := messages[|messages| - 1 := last.(content := last.content + text)];
      }
    }

    method FinishStreaming()
      modifies this`messages
      ensures messages == C.FinishStreaming(old(messages))
    {
      if messages != [] {
        messages := messages[|messages| - 1 := messages[|messages| - 1].(streaming := false)];
      }
    }

    method HandleText(body: C.Body, agent: Option<string>)
      requires body.TextDelta?
      modifies this`messages
      ensures messages == C.LiveText(old(messages), body, agent)
    {
      if body.text == "" && !body.isComplete {
        return;
      }
      if body.text != "" {
        if messages == [] || !messages[|messages| - 1].streaming {
          AddMessage(C.Msg(C.Assistant, "", true, false, agent));
        }
        AppendText(body.text);
      }
      if body.isComplete {
        FinishStreaming();
      }
    }

    method HandleToolStart(body: C.Body, agent: Option<string>)
      requires body.ToolCallStart?
      modifies this`messages, this`toolCalls
      ensures View() == C.StartCall(old(View()), body, agent)
    {
      FinishStreaming();
      AddMessage(C.Plain(C.Tool, C.ToolLine(body.name, body.description), agent));
      var call := C.Call(body.toolId, body.name, body.description, body.input, None, C.Running, None, |messages| - 1);
      toolCalls := toolCalls + [C.Entry(call, None)];
    }

    method HandleToolResult(body: C.Body, agent: Option<string>, now: nat)
      requires body.ToolCallResult? && C.Previewable(body)
      modifies this`messages, this`toolCalls
      ensures View() == C.FinishCall(old(View()), body, agent, Some(now))
    {
      hide C.Preview, C.LastCall;
      AddMessage(C.Msg(C.Tool, C.ResultLine(body.isError, C.Preview(body.output).value), false, true, agent));
      var k := |toolCalls|;
      while k > 0 && toolCalls[k - 1].call.toolId != body.toolId
        invariant 0 <= k <= |toolCalls|
        invariant forall i :: k <= i < |toolCalls| ==> toolCalls[i].call.toolId != body.toolId
      {
        k := k - 1;
      }
      if k > 0 {
        var call := toolCalls[k - 1].call.(
          status := if body.isError then C.Failed else C.Done, output := Some(body.output),
          duration := Some(body.duration));
        toolCalls := toolCalls[k - 1 := C.Entry(call, Some(now))];
      }
    }

    method ExecutePendingClientCommand()
      modifies this`messages, this`toolCalls, this`model, this`pendingClientCommand, this`compactionSummary
      ensures Screen() == C.Execute(old(Screen()))
    {
      if pendingClientCommand.None? {
        return;
      }
      var command := pendingClientCommand.value;
      pendingClientCommand := None;
      match command {
        case Compact => ApplyCompaction();
        case Clear =>
          messages := [];
          toolCalls := [];
        case ModelSwitch(name) => model := name;
      }
    }

    method ApplyCompaction()
      modifies this`messages, this`toolCalls, this`compactionSummary
      ensures messages == [C.DIVIDER] && toolCalls == []
      ensures compactionSummary == Some(C.LastAssistant(old(messages)))
    {
      var k := |messages|;
      assert messages[..k] == messages;
      while k > 0 && messages[k - 1].role != C.Assistant
        invariant 0 <= k <= |messages|
        invariant C.LastAssistant(messages[..k]) == C.LastAssistant(messages)
      {
        assert messages[..k][..k - 1] == messages[..k - 1];
        k := k - 1;
      }
      var summary := if k > 0 then messages[k - 1].content else "Context compacted.";
      messages := [];
      toolCalls := [];
      AddMessage(C.DIVIDER);
      compactionSummary := Some(summary);
    }

    /** `load_history_event`, which panics where `handle_event` does. */
    method LoadHistoryEvent(event: C.Event) returns (ok: bool)
      requires Valid()
      modifies this`messages, this`toolCalls, this`sessionId, this`model
      ensures Valid() && (ok <==> C.Previewable(event.body))
      ensures View() == if C.Previewable(event.body) then C.Replay(old(View()), event) else old(View())
    {
      hide C.Preview, C.ToolLine, C.ErrorLine, C.ResultLine, C.ReplayText, C.ReplayStart, C.ReplayFinish,
        C.FinishStreaming, L.Sound, R.After;
      ok := C.Previewable(event.body);
      if !ok {
        return;
      }
      L.ReplayIsSound(View(), event);
      var agent := if event.parent == "" then None else Some("subagent");
      match event.body {
        case TextDelta(_, _) => LoadText(event.body, agent);
        case ToolCallStart(_, _, _, _) => LoadToolStart(event.body, agent);
        case ToolCallResult(_, _, _, _) => LoadToolResult(event.body, agent);
        case SessionInfo(id, name) =>
          sessionId := Some(id);
          model := name;
        case Error(code, message, _) => AddMessage(C.Plain(C.System, C.ErrorLine(code, message), agent));
        case UserInput(content) => AddMessage(C.Plain(C.User, content, None));
        case TurnComplete => FinishStreaming();
        case StatusChange(_, _) =>
        case Other =>
      }
    }

    method LoadToolStart(body: C.Body, agent: Option<string>)
      requires body.ToolCallStart?
      modifies this`messages, this`toolCalls
      ensures View() == C.ReplayStart(old(View()), body, agent)
    {
      if messages != [] {
        messages := messages[|messages| - 1 := messages[|messages| - 1].(streaming := false)];
      }
      var text := if body.description == "" then "[Tool: " + body.name + "]"
                  else "[Tool: " + body.name + " - " + body.description + "]";
      AddMessage(C.Plain(C.Tool, text, None));
      messages := messages[|messages| - 1 := messages[|messages| - 1].(agent := agent)];
      var call := C.Call(body.toolId, body.name, body.description, body.input, None, C.Running, None, |messages| - 1);
      toolCalls := toolCalls + [C.Entry(call, None)];
    }

    method LoadToolResult(body: C.Body, agent: Option<string>)
      requires body.ToolCallResult? && C.Previewable(body)
      modifies this`messages, this`toolCalls
      ensures View() == C.ReplayFinish(old(View()), body, agent)
    {
      hide C.Preview, C.LastCall;
      var outcome := if body.isError then "ERROR" else "OK";
      AddMessage(C.Plain(C.Tool, "[Tool Result (" + outcome + "): " + C.Preview(body.output).value + "]", None));
      messages := messages[|messages| - 1 := messages[|messages| - 1].(isToolResult := true, agent := agent)];
      var k := |toolCalls|;
      while k > 0 && toolCalls[k - 1].call.toolId != body.toolId
        invariant 0 <= k <= |toolCalls|
        invariant forall i :: k <= i < |toolCalls| ==> toolCalls[i].call.toolId != body.toolId
      {
        k := k - 1;
      }
      if k > 0 {
        var call := toolCalls[k - 1].call.(
          status := if body.isError then C.Failed else C.Done, output := Some(body.output),
          duration := Some(body.duration));
        toolCalls := toolCalls[k - 1 := C.Entry(call, None)];
      }
    }

    method LoadText(body: C.Body, agent: Option<string>)
      requires body.TextDelta?
      modifies this`messages
      ensures messages == C.ReplayText(old(messages), body, agent)
    {
      if body.text == "" {
        return;
      }
      var shouldCreate :=
        messages == [] || messages[|messages| - 1].role != C.Assistant || !messages[|messages| - 1].streaming;
      if shouldCreate {
        AddMessage(C.Msg(C.Assistant, body.text, true, false, agent));
      } else {
        var last := messages[|messages| - 1];
        messages := messages[|messages| - 1 := last.(content := last.content + body.text)];
      }
      if body.isComplete {
        FinishStreaming();
      }
    }

    /** No message is left streaming. */
    method FinishHistoryLoad()
      requires Valid()
      modifies this`messages
      ensures Valid() && messages == C.Settled(old(messages))
    {
      hide R.After;
      L.SettledIsSound(View());
      for i := 0 to |messages|
        invariant |messages| == |old(messages)|
        invariant forall k :: 0 <= k < i ==> messages[k] == old(messages)[k].(streaming := false)
        invariant forall k :: i <= k < |messages| ==> messages[k] == old(messages)[k]
      {
        messages := messages[i := messages[i].(streaming := false)];
      }
    }

    /** What was typed is shown, kept among the latest hundred inputs, and returned. */
    method SubmitInput() returns (text: Option<string>)
      requires Valid()
      modifies this`messages, this`input, this`inputHistory
      ensures Valid()
      ensures text == if old(input) == "" then None else Some(old(input))
      ensures input == "" && Screen() == C.Submit(old(Screen()), old(input))
      ensures text.None? ==> inputHistory == old(inputHistory)
      ensures text.Some? && |old(inputHistory)| <= 100 ==>
                var all := [old(input)] + old(inputHistory);
                inputHistory == all[..if |all| <= 100 then |all| else 100]
    {
      hide R.After;
      if input == "" {
        return None;
      }
      L.AddedIsSound(View(), C.Plain(C.User, input, None));
      text := Some(input);
      inputHistory := [input] + inputHistory;
      if |inputHistory| > 100 {
        inputHistory := inputHistory[..|inputHistory| - 1];
      }
      AddMessage(C.Plain(C.User, input, None));
      input := "";
    }
  }
}
