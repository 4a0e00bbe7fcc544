/** Live handling and history replay build the same conversation, and exactly when they do not. */
module ConversationLaws {
  import opened Options
  import opened Utf8
  import opened Conversation

  // ----- what both keep

  /** Only what the assistant says is ever streaming. */
  predicate OnlyAssistantStreams(ms: seq<Msg>) {
    forall i :: 0 <= i < |ms| && ms[i].streaming ==> ms[i].role == Assistant
  }

  /** `m` is the line that announces the call. */
  predicate Announces(m: Msg, call: Call) {
    m.role == Tool && !m.isToolResult && m.content == ToolLine(call.name, call.description)
  }

  /** Every call has its own line, and the lines are in the order of the calls. */
  predicate CallsHaveLines(ms: seq<Msg>, calls: seq<Entry>) {
    && (forall k :: 0 <= k < |calls| ==>
          calls[k].call.messageIndex < |ms| && Announces(ms[calls[k].call.messageIndex], calls[k].call))
    && (forall j, k :: 0 <= j < k < |calls| ==> calls[j].call.messageIndex < calls[k].call.messageIndex)
  }

  predicate Sound(v: View) {
    OnlyAssistantStreams(v.messages) && CallsHaveLines(v.messages, v.calls)
  }

  /** Messages may be added, and gain text or stop streaming, but keep who said them. */
  predicate Extends(before: seq<Msg>, after: seq<Msg>) {
    && |before| <= |after|
    && forall i :: 0 <= i < |before| ==>
         && after[i].role == before[i].role && after[i].isToolResult == before[i].isToolResult
         && (after[i].streaming ==> before[i].streaming)
         && (!before[i].streaming ==> after[i].content == before[i].content)
  }

  lemma LinesStay(before: seq<Msg>, after: seq<Msg>, calls: seq<Entry>)
    requires OnlyAssistantStreams(before) && CallsHaveLines(before, calls) && Extends(before, after)
    ensures CallsHaveLines(after, calls)
  {
  }

  lemma ExtendedIsSound(v: View, ms: seq<Msg>)
    requires Sound(v) && OnlyAssistantStreams(ms) && Extends(v.messages, ms)
    ensures Sound(v.(messages := ms))
  {
    hide CallsHaveLines, OnlyAssistantStreams, Extends;
    LinesStay(v.messages, ms, v.calls);
  }

  lemma LiveTextIsSound(v: View, body: Body, agent: Option<string>)
    requires Sound(v) && body.TextDelta?
    ensures Sound(v.(messages := LiveText(v.messages, body, agent)))
  {
    hide CallsHaveLines;
    var ms := LiveText(v.messages, body, agent);
    assert OnlyAssistantStreams(ms) && Extends(v.messages, ms);
    hide LiveText, Sound;
    ExtendedIsSound(v, ms);
  }

  lemma ReplayTextIsSound(v: View, body: Body, agent: Option<string>)
    requires Sound(v) && body.TextDelta?
    ensures Sound(v.(messages := ReplayText(v.messages, body, agent)))
  {
    hide CallsHaveLines;
    var ms := ReplayText(v.messages, body, agent);
    assert OnlyAssistantStreams(ms) && Extends(v.messages, ms);
    hide ReplayText, Sound;
    ExtendedIsSound(v, ms);
  }

  lemma AddedIsSound(v: View, m: Msg)
    requires Sound(v) && !m.streaming
    ensures Sound(v.(messages := v.messages + [m]))
  {
    LinesStay(v.messages, v.messages + [m], v.calls);
  }

  lemma FinishedIsSound(v: View)
    requires Sound(v)
    ensures Sound(v.(messages := FinishStreaming(v.messages)))
  {
    LinesStay(v.messages, FinishStreaming(v.messages), v.calls);
  }

  lemma SettledIsSound(v: View)
    requires Sound(v)
    ensures Sound(v.(messages := Settled(v.messages)))
  {
    LinesStay(v.messages, Settled(v.messages), v.calls);
  }

  lemma StartIsSound(v: View, body: Body, agent: Option<string>)
    requires Sound(v) && body.ToolCallStart?
    ensures Sound(StartCall(v, body, agent))
  {
    hide ToolLine;
    FinishedIsSound(v);
    var w := v.(messages := FinishStreaming(v.messages));
    AddedIsSound(w, Plain(Tool, ToolLine(body.name, body.description), agent));
    hide FinishStreaming;
  }

  lemma FinishIsSound(v: View, body: Body, agent: Option<string>, at: Option<nat>)
    requires Sound(v) && body.ToolCallResult? && Previewable(body)
    ensures Sound(FinishCall(v, body, agent, at))
  {
    hide ToolLine, Preview, ResultLine;
    AddedIsSound(v, Msg(Tool, ResultLine(body.isError, Preview(body.output).value), false, true, agent));
  }

  lemma LiveIsSound(s: Screen, e: Event, now: nat)
    requires Sound(s.view) && Previewable(e.body)
    ensures Sound(Live(s, e, now).view)
  {
    hide Sound, LiveText, StartCall, FinishCall, FinishStreaming, ErrorLine, Preview;
    var v := s.view;
    match e.body
    case TextDelta(_, _) => LiveTextIsSound(v, e.body, LabelOf(e));
    case ToolCallStart(_, _, _, _) => StartIsSound(v, e.body, LabelOf(e));
    case ToolCallResult(_, _, _, _) => FinishIsSound(v, e.body, LabelOf(e), Some(now));
    case SessionInfo(id, model) => SameMessagesSound(v, v.(sessionId := Some(id), model := model));
    case TurnComplete =>
      FinishedIsSound(v);
      ExecuteIsSound(Screen(v.(messages := FinishStreaming(v.messages)), s.chrome.(busy := false)));
    case Error(code, message, _) => AddedIsSound(v, Plain(System, ErrorLine(code, message), LabelOf(e)));
    case _ =>
  }

  lemma SameMessagesSound(v: View, w: View)
    requires Sound(v) && w.messages == v.messages && w.calls == v.calls
    ensures Sound(w)
  {
  }

  lemma ExecuteIsSound(s: Screen)
    requires Sound(s.view)
    ensures Sound(Execute(s).view)
  {
  }

  /** The two interpreters' code for tool calls, written out apart, does the same. */
  lemma StartsAgree(v: View, body: Body, agent: Option<string>)
    requires body.ToolCallStart?
    ensures ReplayStart(v, body, agent) == StartCall(v, body, agent)
  {
  }

  lemma FinishesAgree(v: View, body: Body, agent: Option<string>)
    requires body.ToolCallResult? && Previewable(body)
    ensures ReplayFinish(v, body, agent) == FinishCall(v, body, agent, None)
  {
    hide Preview, LastCall;
  }

  lemma ReplayIsSound(v: View, e: Event)
    requires Sound(v) && Previewable(e.body)
    ensures Sound(Replay(v, e))
  {
    hide Sound, ReplayText, ReplayStart, ReplayFinish, StartCall, FinishCall, FinishStreaming, ErrorLine, Preview;
    match e.body
    case TextDelta(_, _) => ReplayTextIsSound(v, e.body, LabelOf(e));
    case ToolCallStart(_, _, _, _) =>
      StartsAgree(v, e.body, LabelOf(e));
      StartIsSound(v, e.body, LabelOf(e));
    case ToolCallResult(_, _, _, _) =>
      FinishesAgree(v, e.body, LabelOf(e));
      FinishIsSound(v, e.body, LabelOf(e), None);
    case SessionInfo(id, model) => SameMessagesSound(v, v.(sessionId := Some(id), model := model));
    case TurnComplete => FinishedIsSound(v);
    case Error(code, message, _) => AddedIsSound(v, Plain(System, ErrorLine(code, message), LabelOf(e)));
    case UserInput(content) => AddedIsSound(v, Plain(User, content, None));
    case _ =>
  }

  /** A result settles the latest call with its id, keeps what was known of it, and touches no other call. */
  lemma ResultSettlesOneCall(v: View, body: Body, agent: Option<string>, at: Option<nat>, k: nat)
    requires body.ToolCallResult? && Previewable(body) && k < |v.calls|
    ensures var now := FinishCall(v, body, agent, at).calls;
            && |now| == |v.calls|
            && (if v.calls[k].call.toolId == body.toolId
                   && forall j :: k < j < |v.calls| ==> v.calls[j].call.toolId != body.toolId
                then && now[k].call.status == (if body.isError then Failed else Done)
                     && now[k].call.output == Some(body.output) && now[k].call.duration == Some(body.duration)
                     && now[k].finishedAt == at
                     && now[k].call.(status := Running, output := None, duration := None)
                        == v.calls[k].call.(status := Running, output := None, duration := None)
                else now[k] == v.calls[k])
  {
    hide Preview, ResultLine;
  }

  /** Compaction keeps the last thing the assistant said. */
  lemma {:induction false} LastAssistantIs(ms: seq<Msg>, k: nat)
    requires k < |ms| && ms[k].role == Assistant && forall j :: k < j < |ms| ==> ms[j].role != Assistant
    ensures LastAssistant(ms) == ms[k].content
    decreases |ms|
  {
    if k < |ms| - 1 {
      LastAssistantIs(ms[..|ms| - 1], k);
    }
  }

  // ----- one entry of the log

  /** How a log entry came about on the screen: the user's own input was submitted, the rest arrived. */
  function Watch(s: Screen, e: Event, now: nat): Screen
    requires Previewable(e.body)
  {
    if e.body.UserInput? then Submit(s, e.body.content) else Live(s, e, now)
  }

  lemma WatchIsSound(s: Screen, e: Event, now: nat)
    requires Sound(s.view) && Previewable(e.body)
    ensures Sound(Watch(s, e, now).view)
  {
    hide Sound, Live;
    if e.body.UserInput? {
      AddedIsSound(s.view, Plain(User, e.body.content, None));
    } else {
      LiveIsSound(s, e, now);
    }
  }

  predicate SameCalls(a: seq<Entry>, b: seq<Entry>) {
    |a| == |b| && forall k :: 0 <= k < |a| ==> a[k].call == b[k].call
  }

  /** The same conversation, apart from when calls finished. */
  predicate Same(a: View, b: View) {
    a.messages == b.messages && SameCalls(a.calls, b.calls) && a.sessionId == b.sessionId && a.model == b.model
  }

  /** Executing the command at the end of the turn would show. */
  predicate Shows(v: View, command: Command) {
    match command
    case Compact => FinishStreaming(v.messages) != [DIVIDER] || v.calls != []
    case Clear => v.messages != [] || v.calls != []
    case ModelSwitch(model) => v.model != model
  }

  /** Live handling and replay take the entry differently. */
  predicate Diverges(s: Screen, e: Event) {
    match e.body
    case TextDelta(text, isComplete) =>
      text == "" && isComplete && s.view.messages != [] && Last(s.view.messages).streaming
    case UserInput(content) => content == ""
    case TurnComplete => s.chrome.pending.Some? && Shows(s.view, s.chrome.pending.value)
    case _ => false
  }

  /** Both interpreters treat the same text the same way, because only the assistant streams. */
  lemma TextAgreesExactly(ms: seq<Msg>, body: Body, agent: Option<string>)
    requires OnlyAssistantStreams(ms) && body.TextDelta?
    ensures LiveText(ms, body, agent) == ReplayText(ms, body, agent)
       <==> !(body.text == "" && body.isComplete && ms != [] && Last(ms).streaming)
  {
    if body.text == "" {
      if body.isComplete && ms != [] {
        assert Last(FinishStreaming(ms)) == Last(ms).(streaming := false);
      }
    } else {
      var started := ms + [Msg(Assistant, body.text, true, false, agent)];
      var blank := ms + [Msg(Assistant, "", true, false, agent)];
      assert "" + body.text == body.text;
      assert WithLast(blank, Last(blank).(content := Last(blank).content + body.text)) == started;
    }
  }

  lemma SameLastCall(a: seq<Entry>, b: seq<Entry>, toolId: string)
    requires SameCalls(a, b)
    ensures LastCall(a, toolId) == LastCall(b, toolId)
  {
  }

  lemma FinishAgrees(v: View, w: View, body: Body, agent: Option<string>, at: Option<nat>)
    requires Same(v, w) && body.ToolCallResult? && Previewable(body)
    ensures Same(FinishCall(v, body, agent, at), FinishCall(w, body, agent, None))
  {
    hide Preview, ResultLine;
    SameLastCall(v.calls, w.calls, body.toolId);
    hide LastCall;
  }

  lemma TurnAgreesExactly(s: Screen, w: View)
    requires Same(s.view, w)
    ensures var done := Execute(Screen(s.view.(messages := FinishStreaming(s.view.messages)), s.chrome.(busy := false)));
            Same(done.view, w.(messages := FinishStreaming(w.messages)))
            <==> !(s.chrome.pending.Some? && Shows(s.view, s.chrome.pending.value))
  {
    assert |FinishStreaming(w.messages)| == |w.messages|;
    hide LastAssistant;
  }

  /** One entry keeps the two conversations the same exactly if it does not diverge. */
  lemma EntryAgreesExactly(s: Screen, w: View, e: Event, now: nat)
    requires Sound(s.view) && Same(s.view, w) && Previewable(e.body)
    ensures Same(Watch(s, e, now).view, Replay(w, e)) <==> !Diverges(s, e)
  {
    hide LiveText, ReplayText, ReplayStart, ReplayFinish, FinishCall, FinishStreaming, ErrorLine, ToolLine, Preview, Execute;
    match e.body
    case TextDelta(_, _) => TextAgreesExactly(s.view.messages, e.body, LabelOf(e));
    case ToolCallStart(_, _, _, _) => StartsAgree(w, e.body, LabelOf(e));
    case ToolCallResult(_, _, _, _) =>
      FinishesAgree(w, e.body, LabelOf(e));
      FinishAgrees(s.view, w, e.body, LabelOf(e), Some(now));
    case TurnComplete => TurnAgreesExactly(s, w);
    case _ =>
  }

  // ----- whole logs

  datatype Stamped = Stamped(event: Event, at: nat)

  predicate AllPreviewable(log: seq<Stamped>) {
    forall i :: 0 <= i < |log| ==> Previewable(log[i].event.body)
  }

  function WatchAll(s: Screen, log: seq<Stamped>): Screen
    requires AllPreviewable(log)
  {
    if log == [] then s
    else
      var n := |log| - 1;
      Watch(WatchAll(s, log[..n]), log[n].event, log[n].at)
  }

  function ReplayAll(v: View, log: seq<Stamped>): View
    requires AllPreviewable(log)
  {
    if log == [] then v else Replay(ReplayAll(v, log[..|log| - 1]), log[|log| - 1].event)
  }

  lemma {:induction false} WatchAllSound(s: Screen, log: seq<Stamped>)
    requires Sound(s.view) && AllPreviewable(log)
    ensures Sound(WatchAll(s, log).view)
  {
    hide Sound, Watch;
    if log != [] {
      var n := |log| - 1;
      WatchAllSound(s, log[..n]);
      WatchIsSound(WatchAll(s, log[..n]), log[n].event, log[n].at);
    }
  }

  /** No call loses its line and nothing but the assistant ever streams, live or replayed. */
  lemma {:induction false} ReplayAllSound(v: View, log: seq<Stamped>)
    requires Sound(v) && AllPreviewable(log)
    ensures Sound(ReplayAll(v, log))
  {
    hide Sound, Replay;
    if log != [] {
      var n := |log| - 1;
      ReplayAllSound(v, log[..n]);
      ReplayIsSound(ReplayAll(v, log[..n]), log[n].event);
    }
  }

  /** After each entry, the screen shows what a replay of the log so far would. */
  ghost predicate AgreeThroughout(s: Screen, v: View, log: seq<Stamped>)
    requires AllPreviewable(log)
  {
    forall i :: 0 <= i <= |log| ==> Same(WatchAll(s, log[..i]).view, ReplayAll(v, log[..i]))
  }

  /** No entry diverges where it stands. */
  ghost predicate NeverDiverges(s: Screen, log: seq<Stamped>)
    requires AllPreviewable(log)
  {
    forall i :: 0 <= i < |log| ==> !Diverges(WatchAll(s, log[..i]), log[i].event)
  }

  lemma AgreeStep(s: Screen, v: View, log: seq<Stamped>, i: nat)
    requires Sound(s.view) && AllPreviewable(log) && i < |log|
    requires Same(WatchAll(s, log[..i]).view, ReplayAll(v, log[..i]))
    ensures Same(WatchAll(s, log[..i + 1]).view, ReplayAll(v, log[..i + 1]))
       <==> !Diverges(WatchAll(s, log[..i]), log[i].event)
  {
    hide Sound, Watch, Replay, Same, Diverges, Previewable;
    assert log[..i + 1][..i] == log[..i];
    WatchAllSound(s, log[..i]);
    EntryAgreesExactly(WatchAll(s, log[..i]), ReplayAll(v, log[..i]), log[i].event, log[i].at);
  }

  lemma {:induction false} AgreeSoFar(s: Screen, v: View, log: seq<Stamped>, i: nat)
    requires Sound(s.view) && Same(s.view, v) && AllPreviewable(log) && i <= |log|
    requires NeverDiverges(s, log)
    ensures Same(WatchAll(s, log[..i]).view, ReplayAll(v, log[..i]))
  {
    if i > 0 {
      hide Sound, Same, WatchAll, ReplayAll, Diverges;
      AgreeSoFar(s, v, log, i - 1);
      AgreeStep(s, v, log, i - 1);
    }
  }

  /** For every log: the two agree after each entry exactly if no entry diverges. */
  lemma LogsAgreeExactly(s: Screen, v: View, log: seq<Stamped>)
    requires Sound(s.view) && Same(s.view, v) && AllPreviewable(log)
    ensures AgreeThroughout(s, v, log) <==> NeverDiverges(s, log)
  {
    hide Sound, Same, WatchAll, ReplayAll, Diverges, Previewable;
    if NeverDiverges(s, log) {
      forall i | 0 <= i <= |log| ensures Same(WatchAll(s, log[..i]).view, ReplayAll(v, log[..i])) {
        AgreeSoFar(s, v, log, i);
      }
    }
    if AgreeThroughout(s, v, log) {
      forall i | 0 <= i < |log| ensures !Diverges(WatchAll(s, log[..i]), log[i].event) {
        assert Same(WatchAll(s, log[..i + 1]).view, ReplayAll(v, log[..i + 1]));
        AgreeStep(s, v, log, i);
      }
    }
  }

  /** No text is completed by an empty delta and no input is empty. */
  predicate Clean(log: seq<Stamped>) {
    forall i :: 0 <= i < |log| ==>
      match log[i].event.body
      case TextDelta(text, isComplete) => text != "" || !isComplete
      case UserInput(content) => content != ""
      case _ => true
  }

  lemma {:induction false} NothingPending(s: Screen, log: seq<Stamped>)
    requires AllPreviewable(log) && s.chrome.pending.None?
    ensures WatchAll(s, log).chrome.pending.None?
  {
    hide LiveText, StartCall, FinishCall, FinishStreaming, Preview;
    if log != [] {
      NothingPending(s, log[..|log| - 1]);
    }
  }

  /** A clean log with no command pending gives the same conversation live and replayed. */
  lemma CleanLogsAgree(s: Screen, v: View, log: seq<Stamped>)
    requires Sound(s.view) && Same(s.view, v) && s.chrome.pending.None? && AllPreviewable(log) && Clean(log)
    ensures AgreeThroughout(s, v, log) && Same(WatchAll(s, log).view, ReplayAll(v, log))
  {
    hide Sound, Same, WatchAll, ReplayAll, Previewable;
    forall i | 0 <= i < |log| ensures !Diverges(WatchAll(s, log[..i]), log[i].event) {
      NothingPending(s, log[..i]);
    }
    LogsAgreeExactly(s, v, log);
    assert log[..|log|] == log;
  }

  /**
   * A delta that only says the text is complete is what makes the difference: live, the next text
   * is a message of its own, while replay adds it to the one before.
   */
  lemma EmptyCompletionDiverges(s: Screen)
    requires s.view == EMPTY
    ensures var log := [Stamped(Event("", TextDelta("a", false)), 0), Stamped(Event("", TextDelta("", true)), 1),
                        Stamped(Event("", TextDelta("b", false)), 2)];
            && AllPreviewable(log)
            && |WatchAll(s, log).view.messages| == 2 && |ReplayAll(EMPTY, log).messages| == 1
  {
    hide LiveText, ReplayText;
    var a, e, b := TextDelta("a", false), TextDelta("", true), TextDelta("b", false);
    var x, y, z := Stamped(Event("", a), 0), Stamped(Event("", e), 1), Stamped(Event("", b), 2);
    var log := [x, y, z];
    assert log[..2] == [x, y] && [x, y][..1] == [x] && [x][..0] == [];
    var one := [Msg(Assistant, "a", true, false, None)];
    FirstText(a, None);
    assert WatchAll(s, []) == s && ReplayAll(EMPTY, []) == EMPTY;
    assert WatchAll(s, [x]).view.messages == one;
    assert Replay(EMPTY, x.event).messages == ReplayText([], a, None);
    assert ReplayAll(EMPTY, [x]).messages == one;
    CompletedByNothing(one[0]);
    SecondText(one[0], b, None);
  }

  /** The first text starts a message, in both. */
  lemma FirstText(body: Body, agent: Option<string>)
    requires body == TextDelta("a", false)
    ensures LiveText([], body, agent) == [Msg(Assistant, "a", true, false, agent)] == ReplayText([], body, agent)
  {
    TextAgreesExactly([], body, agent);
    assert ReplayText([], body, agent) == [] + [Msg(Assistant, "a", true, false, agent)];
  }

  /** An empty completing delta closes the message live, and leaves it open in a replay. */
  lemma CompletedByNothing(m: Msg)
    ensures LiveText([m], TextDelta("", true), None) == [m.(streaming := false)]
    ensures ReplayText([m], TextDelta("", true), None) == [m]
  {
  }

  /** So the next text is a message of its own live, and part of the same one in a replay. */
  lemma SecondText(m: Msg, body: Body, agent: Option<string>)
    requires body == TextDelta("b", false) && m.streaming && m.role == Assistant
    ensures |LiveText([m.(streaming := false)], body, agent)| == 2 && |ReplayText([m], body, agent)| == 1
  {
  }
}
