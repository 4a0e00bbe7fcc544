/**
 * The conversation shown by the terminal client, which agent events build up twice: live, as they
 * arrive, and again from the stored log when a session is resumed.
 */
module Conversation {
  import opened Options
  import opened Utf8

  datatype Role = User | Assistant | System | Tool | CompactionDivider

  /** `DisplayMessage` */
  datatype Msg = Msg(role: Role, content: string, streaming: bool, isToolResult: bool, agent: Option<string>)

  datatype CallStatus = Running | Done | Failed

  /** What a tool call was and came to; `ToolCallEntry` without its finishing time. */
  datatype Call = Call(
    toolId: string, name: string, description: string, input: Option<string>, output: Option<string>,
    status: CallStatus, duration: Option<nat>, messageIndex: nat)

  /** `ToolCallEntry`; the finishing time is known only of calls that finished while they were watched. */
  datatype Entry = Entry(call: Call, finishedAt: Option<nat>)

  /** Commands that take effect on the screen when the turn they belong to completes. */
  datatype Command = Compact | Clear | ModelSwitch(model: string)

  datatype Body =
    | TextDelta(text: string, isComplete: bool)
    | ToolCallStart(toolId: string, name: string, description: string, input: Option<string>)
    | ToolCallResult(toolId: string, output: string, isError: bool, duration: nat)
    | SessionInfo(sessionId: string, model: string)
    | StatusChange(message: string, thinking: bool)
    | TurnComplete
    | Error(code: string, message: string, isFatal: bool)
    | UserInput(content: string)
    | Other  // prompts, usage, and events without a body: they do not change the conversation

  datatype Event = Event(parent: string, body: Body)

  /** What both interpreters build. */
  datatype View = View(messages: seq<Msg>, calls: seq<Entry>, sessionId: Option<string>, model: string)

  /** What only live events change. */
  datatype Chrome = Chrome(status: string, busy: bool, pending: Option<Command>, summary: Option<string>)

  datatype Screen = Screen(view: View, chrome: Chrome)

  const EMPTY := View([], [], None, "")

  // ----- texts

  function LabelOf(e: Event): Option<string> {
    if e.parent == "" then None else Some("subagent")
  }

  function ToolLine(name: string, description: string): string {
    if description == "" then "[Tool: " + name + "]" else "[Tool: " + name + " - " + description + "]"
  }

  function ErrorLine(code: string, message: string): string {
    "[Error: " + code + " - " + message + "]"
  }

  function ResultLine(isError: bool, preview: string): string {
    "[Tool Result (" + (if isError then "ERROR" else "OK") + "): " + preview + "]"
  }

  function Scalars(s: string): (chars: seq<Scalar>)
    ensures |chars| == |s|
  {
    seq(|s|, i requires 0 <= i < |s| => s[i] as int)
  }

  /** How many characters end at byte `n`, if one does. */
  function CharsTo(chars: seq<Scalar>, n: nat, k: nat): Option<nat>
    requires k <= |chars|
  {
    if Offset(chars, k) == n then Some(k) else if k == 0 then None else CharsTo(chars, n, k - 1)
  }

  const PREVIEW := 200

  /** The output as it is shown; slicing it inside a character panics. */
  function Preview(output: string): Option<string> {
    var chars := Scalars(output);
    if |Text(chars)| <= PREVIEW then Some(output)
    else
      match CharsTo(chars, PREVIEW, |chars|)
      case Some(k) => if k <= |output| then Some(output[..k] + "...") else None
      case None => None
  }

  predicate Previewable(body: Body) {
    body.ToolCallResult? ==> Preview(body.output).Some?
  }

  lemma {:induction false} CharsToFinds(chars: seq<Scalar>, n: nat, k: nat)
    requires k <= |chars|
    ensures match CharsTo(chars, n, k)
            case Some(j) => j <= k && Offset(chars, j) == n
            case None => forall j :: 0 <= j <= k ==> Offset(chars, j) != n
  {
    hide Offset;
    if k > 0 { CharsToFinds(chars, n, k - 1); }
  }

  /** A result can be shown exactly if it is short or has a character boundary at byte 200. */
  lemma WhenPreviewable(output: string)
    ensures var t := Text(Scalars(output));
            Preview(output).Some? <==> |t| <= PREVIEW || Boundary(t, PREVIEW)
  {
    hide Text;
    var chars := Scalars(output);
    CharsToFinds(chars, PREVIEW, |chars|);
    forall k | 0 <= k <= |chars| && Offset(chars, k) == PREVIEW ensures Boundary(Text(chars), PREVIEW) {
      OffsetIsBoundary(chars, k);
    }
    if Boundary(Text(chars), PREVIEW) {
      var k := BoundaryIsOffset(chars, PREVIEW);
    }
  }

  lemma {:induction false} OneByteEach(chars: seq<Scalar>)
    requires forall i :: 0 <= i < |chars| ==> chars[i] < 0x80
    ensures |Text(chars)| == |chars|
  {
    if chars != [] { OneByteEach(chars[..|chars| - 1]); }
  }

  /** A character of several bytes that starts one byte before the cut, as in 199 letters and an umlaut. */
  lemma WideCharacterAtTheCut(output: string)
    requires |output| >= PREVIEW && output[PREVIEW - 1] as int >= 0x80
    requires forall i :: 0 <= i < PREVIEW - 1 ==> output[i] as int < 0x80
    ensures Preview(output).None?
  {
    hide Encode;
    var chars := Scalars(output);
    var n := PREVIEW - 1;
    OneByteEach(chars[..n]);
    EncodeShape(chars[n]);
    TextAround(chars, n);
    WideIsLong(chars[n]);
    hide Text, Offset;
    CharsToFinds(chars, PREVIEW, |chars|);
    forall k | 0 <= k <= |chars| ensures Offset(chars, k) != PREVIEW {
      if k < n { OffsetsGrow(chars, k, n); }
      if n + 1 < k { OffsetsGrow(chars, n + 1, k); }
    }
  }

  lemma WideIsLong(c: Scalar)
    requires c >= 0x80
    ensures |Encode(c)| >= 2
  {
  }

  /** Such outputs exist. */
  lemma LettersAndUmlaut()
    ensures Preview(seq(199, _ => 'a') + ['\U{e4}']).None?
  {
    WideCharacterAtTheCut(seq(199, _ => 'a') + ['\U{e4}']);
  }

  // ----- messages

  function Last(ms: seq<Msg>): Msg
    requires ms != []
  {
    ms[|ms| - 1]
  }

  function WithLast(ms: seq<Msg>, m: Msg): seq<Msg>
    requires ms != []
  {
    ms[|ms| - 1 := m]
  }

  function FinishStreaming(ms: seq<Msg>): seq<Msg> {
    if ms == [] then ms else WithLast(ms, Last(ms).(streaming := false))
  }

  function Plain(role: Role, content: string, agent: Option<string>): Msg {
    Msg(role, content, false, false, agent)
  }

  /** The last call with the given id, or the number of calls if there is none. */
  function LastCall(calls: seq<Entry>, toolId: string): (k: nat)
    ensures k <= |calls|
    ensures k < |calls| ==> calls[k].call.toolId == toolId
    ensures forall i :: 0 <= i < |calls| && (k < i || k == |calls|) ==> calls[i].call.toolId != toolId
  {
    var n := |calls|;
    if n == 0 then 0
    else if calls[n - 1].call.toolId == toolId then n - 1
    else
      var k := LastCall(calls[..n - 1], toolId);
      if k == n - 1 then n else k
  }

  function Finished(call: Call, body: Body): Call
    requires body.ToolCallResult?
  {
    call.(status := if body.isError then Failed else Done, output := Some(body.output), duration := Some(body.duration))
  }

  function Finish(calls: seq<Entry>, body: Body, at: Option<nat>): seq<Entry>
    requires body.ToolCallResult?
  {
    var k := LastCall(calls, body.toolId);
    if k == |calls| then calls else calls[k := Entry(Finished(calls[k].call, body), at)]
  }

  /** A tool call's line, and its entry. */
  function StartCall(v: View, body: Body, agent: Option<string>): View
    requires body.ToolCallStart?
  {
    var ms := FinishStreaming(v.messages);
    v.(messages := ms + [Plain(Tool, ToolLine(body.name, body.description), agent)],
       calls := v.calls + [Entry(Call(body.toolId, body.name, body.description, body.input, None, Running, None, |ms|),
                                 None)])
  }

  function FinishCall(v: View, body: Body, agent: Option<string>, at: Option<nat>): View
    requires body.ToolCallResult? && Previewable(body)
  {
    var line := ResultLine(body.isError, Preview(body.output).value);
    v.(messages := v.messages + [Msg(Tool, line, false, true, agent)], calls := Finish(v.calls, body, at))
  }

  // ----- live: `handle_event`

  function StreamText(ms: seq<Msg>, text: string, agent: Option<string>): seq<Msg> {
    var open := if ms == [] || !Last(ms).streaming then ms + [Msg(Assistant, "", true, false, agent)] else ms;
    WithLast(open, Last(open).(content := Last(open).content + text))
  }

  function LiveText(ms: seq<Msg>, body: Body, agent: Option<string>): seq<Msg>
    requires body.TextDelta?
  {
    if body.text == "" && !body.isComplete then ms
    else
      var shown := if body.text == "" then ms else StreamText(ms, body.text, agent);
      if body.isComplete then FinishStreaming(shown) else shown
  }

  function LastAssistant(ms: seq<Msg>): string {
    if ms == [] then "Context compacted."
    else if Last(ms).role == Assistant then Last(ms).content
    else LastAssistant(ms[..|ms| - 1])
  }

  const DIVIDER := Plain(CompactionDivider, "[context compacted]", None)

  function Execute(s: Screen): Screen {
    if s.chrome.pending.None? then s
    else
      var done := s.(chrome := s.chrome.(pending := None));
      match s.chrome.pending.value
      case Compact =>
        done.(view := s.view.(messages := [DIVIDER], calls := []),
              chrome := done.chrome.(summary := Some(LastAssistant(s.view.messages))))
      case Clear => done.(view := s.view.(messages := [], calls := []))
      case ModelSwitch(model) => done.(view := s.view.(model := model))
  }

  function Live(s: Screen, e: Event, now: nat): Screen
    requires Previewable(e.body)
  {
    var v := s.view;
    match e.body
    case TextDelta(_, _) => s.(view := v.(messages := LiveText(v.messages, e.body, LabelOf(e))))
    case ToolCallStart(_, _, _, _) => s.(view := StartCall(v, e.body, LabelOf(e)))
    case ToolCallResult(_, _, _, _) => s.(view := FinishCall(v, e.body, LabelOf(e), Some(now)))
    case SessionInfo(id, model) =>
      Screen(v.(sessionId := Some(id), model := model),
             s.chrome.(status := "Session: " + id + " | Model: " + model))
    case StatusChange(message, thinking) =>
      s.(chrome := s.chrome.(status := if message == "" then s.chrome.status else message, busy := thinking))
    case TurnComplete =>
      Execute(Screen(v.(messages := FinishStreaming(v.messages)), s.chrome.(busy := false)))
    case Error(code, message, isFatal) =>
      Screen(v.(messages := v.messages + [Plain(System, ErrorLine(code, message), LabelOf(e))]),
             if isFatal then s.chrome.(status := "Fatal error: " + message) else s.chrome)
    case UserInput(_) => s
    case Other => s
  }

  /** `submit_input`: what the user typed is shown at once. */
  function Submit(s: Screen, text: string): Screen {
    if text == "" then s else s.(view := s.view.(messages := s.view.messages + [Plain(User, text, None)]))
  }

  // ----- again: `load_history_event`

  function ReplayText(ms: seq<Msg>, body: Body, agent: Option<string>): seq<Msg>
    requires body.TextDelta?
  {
    if body.text == "" then ms
    else
      var shown :=
        if ms == [] || Last(ms).role != Assistant || !Last(ms).streaming
        then ms + [Msg(Assistant, body.text, true, false, agent)]
        else WithLast(ms, Last(ms).(content := Last(ms).content + body.text));
      if body.isComplete then WithLast(shown, Last(shown).(streaming := false)) else shown
  }

  function ReplayStart(v: View, body: Body, agent: Option<string>): View
    requires body.ToolCallStart?
  {
    var closed := if v.messages == [] then [] else WithLast(v.messages, Last(v.messages).(streaming := false));
    var line := if body.description == "" then "[Tool: " + body.name + "]"
                else "[Tool: " + body.name + " - " + body.description + "]";
    var added := closed + [Plain(Tool, line, None)];
    var ms := WithLast(added, Last(added).(agent := agent));
    var call := Call(body.toolId, body.name, body.description, body.input, None, Running, None, |ms| - 1);
    v.(messages := ms, calls := v.calls + [Entry(call, None)])
  }

  /** The finishing time of a call in the log is lost. */
  function ReplayFinish(v: View, body: Body, agent: Option<string>): View
    requires body.ToolCallResult? && Previewable(body)
  {
    var status := if body.isError then "ERROR" else "OK";
    var line := "[Tool Result (" + status + "): " + Preview(body.output).value + "]";
    var added := v.messages + [Plain(Tool, line, None)];
    var ms := WithLast(added, Last(added).(isToolResult := true, agent := agent));
    var k := LastCall(v.calls, body.toolId);
    if k == |v.calls| then v.(messages := ms)
    else
      var call := v.calls[k].call;
      var settled := call.(status := if body.isError then Failed else Done, output := Some(body.output),
                           duration := Some(body.duration));
      v.(messages := ms, calls := v.calls[k := Entry(settled, None)])
  }

  function Replay(v: View, e: Event): View
    requires Previewable(e.body)
  {
    match e.body
    case TextDelta(_, _) => v.(messages := ReplayText(v.messages, e.body, LabelOf(e)))
    case ToolCallStart(_, _, _, _) => ReplayStart(v, e.body, LabelOf(e))
    case ToolCallResult(_, _, _, _) => ReplayFinish(v, e.body, LabelOf(e))
    case SessionInfo(id, model) => v.(sessionId := Some(id), model := model)
    case Error(code, message, _) => v.(messages := v.messages + [Plain(System, ErrorLine(code, message), LabelOf(e))])
    case UserInput(content) => v.(messages := v.messages + [Plain(User, content, None)])
    case TurnComplete => v.(messages := FinishStreaming(v.messages))
    case StatusChange(_, _) => v
    case Other => v
  }

  /** `finish_history_load` */
  function Settled(ms: seq<Msg>): (settled: seq<Msg>)
    ensures |settled| == |ms| && forall i :: 0 <= i < |ms| ==> settled[i] == ms[i].(streaming := false)
  {
    seq(|ms|, i requires 0 <= i < |ms| => ms[i].(streaming := false))
  }
}
