/** What a conversation shows: every line of the log, and the assistant's texts put together from their pieces. */
module ConversationTexts {
  import opened Options
  import opened Utf8
  import opened Conversation
  import opened ConversationLaws
  import opened ConversationResume

  // ----- one piece of text

  /**
   * Some text has been said: it is added at the end of the last message if that is still streaming,
   * and is otherwise all there is of a new message of the assistant. Nothing else has changed.
   */
  predicate SaysMore(before: seq<Msg>, after: seq<Msg>, text: string, isComplete: bool, agent: Option<string>) {
    if Open(before) then
      var n := |before| - 1;
      && |after| == n + 1 && after[..n] == before[..n]
      && before[n].content <= after[n].content && after[n].content[|before[n].content|..] == text
      && after[n].streaming == !isComplete
      && after[n].(content := "", streaming := false) == before[n].(content := "", streaming := false)
    else
      && |after| == |before| + 1 && after[..|before|] == before
      && after[|before|] == Msg(Assistant, text, !isComplete, false, agent)
  }

  lemma LiveSays(ms: seq<Msg>, text: string, isComplete: bool, agent: Option<string>)
    requires text != ""
    ensures SaysMore(ms, LiveText(ms, TextDelta(text, isComplete), agent), text, isComplete, agent)
  {
    assert "" + text == text;
  }

  lemma ReplaySays(ms: seq<Msg>, text: string, isComplete: bool, agent: Option<string>)
    requires text != "" && OnlyAssistantStreams(ms)
    ensures SaysMore(ms, ReplayText(ms, TextDelta(text, isComplete), agent), text, isComplete, agent)
  {
  }

  // ----- whole logs

  /** A message as the log gives it: who speaks, and the pieces of what is said. */
  datatype Line = Line(role: Role, parts: seq<string>, isToolResult: bool, agent: Option<string>)

  /** The lines so far, and whether more may be added to the last one. */
  datatype Transcript = Transcript(lines: seq<Line>, open: bool)

  function Joined(parts: seq<string>): string {
    if parts == [] then "" else Joined(parts[..|parts| - 1]) + parts[|parts| - 1]
  }

  function Added(t: Transcript, role: Role, text: string, isToolResult: bool, agent: Option<string>): Transcript {
    Transcript(t.lines + [Line(role, [text], isToolResult, agent)], false)
  }

  function Spoken(t: Transcript, text: string, isComplete: bool, agent: Option<string>): Transcript {
    if t.open && t.lines != [] then
      var last := t.lines[|t.lines| - 1];
      Transcript(t.lines[|t.lines| - 1 := last.(parts := last.parts + [text])], !isComplete)
    else Added(t, Assistant, text, false, agent).(open := !isComplete)
  }

  /** The transcript with one more entry; `live` tells whether an empty delta completes a text. */
  function Next(t: Transcript, e: Event, live: bool): Transcript
    requires Previewable(e.body)
  {
    var agent := if e.parent == "" then None else Some("subagent");
    match e.body
    case TextDelta(text, isComplete) =>
      if text != "" then Spoken(t, text, isComplete, agent) else if isComplete && live then t.(open := false) else t
    case ToolCallStart(_, name, description, _) =>
      Added(t, Tool, "[Tool: " + name + (if description == "" then "" else " - " + description) + "]", false, agent)
    case ToolCallResult(_, output, isError, _) =>
      Added(t, Tool, (if isError then "[Tool Result (ERROR): " else "[Tool Result (OK): ") + Preview(output).value + "]",
            true, agent)
    case Error(code, message, _) => Added(t, System, "[Error: " + code + " - " + message + "]", false, agent)
    case UserInput(content) => Added(t, User, content, false, None)
    case TurnComplete => t.(open := false)
    case SessionInfo(_, _) => t
    case StatusChange(_, _) => t
    case Other => t
  }

  function TranscriptOf(log: seq<Stamped>, live: bool): Transcript
    requires AllPreviewable(log)
  {
    if log == [] then Transcript([], false)
    else Next(TranscriptOf(log[..|log| - 1], live), log[|log| - 1].event, live)
  }

  predicate ShowsLine(m: Msg, line: Line) {
    m.role == line.role && m.content == Joined(line.parts) && m.isToolResult == line.isToolResult && m.agent == line.agent
  }

  /** The messages are the lines, each with its pieces joined in order. */
  predicate Renders(ms: seq<Msg>, t: Transcript) {
    && |ms| == |t.lines| && (forall i :: 0 <= i < |ms| ==> ShowsLine(ms[i], t.lines[i]))
    && (t.open <==> Open(ms)) && (t.open ==> Last(ms).role == Assistant)
  }

  lemma JoinedOne(text: string)
    ensures Joined([text]) == text
  {
    assert [text][..0] == [];
    assert "" + text == text;
  }

  lemma JoinedMore(parts: seq<string>, text: string)
    ensures Joined(parts + [text]) == Joined(parts) + text
  {
    assert (parts + [text])[..|parts|] == parts;
  }

  lemma SpokenRenders(ms: seq<Msg>, after: seq<Msg>, t: Transcript, text: string, isComplete: bool, agent: Option<string>)
    requires Renders(ms, t) && SaysMore(ms, after, text, isComplete, agent)
    ensures Renders(after, Spoken(t, text, isComplete, agent))
  {
    hide Joined;
    if Open(ms) {
      MoreRenders(ms, after, t, text, isComplete, agent);
    } else {
      JoinedOne(text);
      forall i | 0 <= i < |ms| ensures ShowsLine(after[i], t.lines[i]) { assert after[i] == after[..|ms|][i]; }
    }
  }

  lemma MoreRenders(ms: seq<Msg>, after: seq<Msg>, t: Transcript, text: string, isComplete: bool, agent: Option<string>)
    requires Renders(ms, t) && SaysMore(ms, after, text, isComplete, agent) && Open(ms)
    ensures Renders(after, Spoken(t, text, isComplete, agent))
  {
    hide Joined;
    var n := |ms| - 1;
    JoinedMore(t.lines[n].parts, text);
    assert after[n].content == after[n].content[..|ms[n].content|] + after[n].content[|ms[n].content|..];
    var t' := Spoken(t, text, isComplete, agent);
    assert t'.lines[n] == t.lines[n].(parts := t.lines[n].parts + [text]);
    assert ShowsLine(after[n], t'.lines[n]);
    forall i | 0 <= i < n ensures ShowsLine(after[i], t'.lines[i]) { assert after[i] == after[..n][i] == ms[..n][i]; }
  }

  lemma AddedRenders(ms: seq<Msg>, closed: seq<Msg>, t: Transcript, m: Msg)
    requires Renders(ms, t) && (closed == ms || closed == FinishStreaming(ms)) && !m.streaming
    ensures Renders(closed + [m], Added(t, m.role, m.content, m.isToolResult, m.agent))
  {
    JoinedOne(m.content);
    hide Joined;
  }

  lemma ClosedRenders(ms: seq<Msg>, t: Transcript)
    requires Renders(ms, t)
    ensures Renders(FinishStreaming(ms), t.(open := false))
  {
    hide Joined;
  }

  /** What an entry adds, apart from text. */
  lemma ApplyRenders(ms: seq<Msg>, t: Transcript, e: Event, live: bool)
    requires Renders(ms, t) && Previewable(e.body) && !e.body.TextDelta?
    ensures Renders(Apply(ms, EffectOf(e)), Next(t, e, live))
  {
    hide Renders, FinishStreaming, Preview;
    if e.body.TurnComplete? {
      ClosedRenders(ms, t);
    } else if e.body.ToolCallStart? || e.body.ToolCallResult? || e.body.Error? || e.body.UserInput? {
      AddsWhat(t, e, live);
      var effect := EffectOf(e);
      AddedRenders(ms, if effect.closes then FinishStreaming(ms) else ms, t, effect.m);
    }
  }

  lemma AddsWhat(t: Transcript, e: Event, live: bool)
    requires Previewable(e.body)
    requires e.body.ToolCallStart? || e.body.ToolCallResult? || e.body.Error? || e.body.UserInput?
    ensures EffectOf(e).Adds? && !EffectOf(e).m.streaming
    ensures var m := EffectOf(e).m; Next(t, e, live) == Added(t, m.role, m.content, m.isToolResult, m.agent)
  {
    hide Preview;
    match e.body
    case ToolCallStart(_, name, description, _) =>
      assert "[Tool: " + name + "" + "]" == "[Tool: " + name + "]";
      assert "[Tool: " + name + (" - " + description) + "]" == "[Tool: " + name + " - " + description + "]";
    case ToolCallResult(_, output, isError, _) =>
      var p := Preview(output).value;
      assert "[Tool Result (" + "ERROR" + "): " + p + "]" == "[Tool Result (ERROR): " + p + "]";
      assert "[Tool Result (" + "OK" + "): " + p + "]" == "[Tool Result (OK): " + p + "]";
    case _ =>
  }

  lemma LiveRenders(ms: seq<Msg>, t: Transcript, e: Event)
    requires Renders(ms, t) && Previewable(e.body)
    ensures Renders(Shown(ms, EffectOf(e)), Next(t, e, true))
  {
    hide Renders, LiveText, Preview, Spoken, Apply;
    match e.body
    case TextDelta(text, isComplete) =>
      if text != "" {
        LiveSays(ms, text, isComplete, LabelOf(e));
        SpokenRenders(ms, Shown(ms, EffectOf(e)), t, text, isComplete, LabelOf(e));
      } else {
        SilenceRenders(ms, t, isComplete, LabelOf(e));
      }
    case _ => ApplyRenders(ms, t, e, true);
  }

  lemma SilenceRenders(ms: seq<Msg>, t: Transcript, isComplete: bool, agent: Option<string>)
    requires Renders(ms, t)
    ensures Renders(LiveText(ms, TextDelta("", isComplete), agent), if isComplete then t.(open := false) else t)
    ensures ReplayText(ms, TextDelta("", isComplete), agent) == ms
  {
    hide Renders;
    ClosedRenders(ms, t);
  }

  lemma ReplayRenders(ms: seq<Msg>, t: Transcript, e: Event)
    requires Renders(ms, t) && Previewable(e.body) && OnlyAssistantStreams(ms)
    ensures Renders(Replayed(ms, EffectOf(e)), Next(t, e, false))
  {
    hide Renders, ReplayText, Preview, Spoken, Apply, OnlyAssistantStreams;
    match e.body
    case TextDelta(text, isComplete) =>
      if text != "" {
        ReplaySays(ms, text, isComplete, LabelOf(e));
        SpokenRenders(ms, Replayed(ms, EffectOf(e)), t, text, isComplete, LabelOf(e));
      } else {
        SilenceRenders(ms, t, isComplete, LabelOf(e));
      }
    case _ => ApplyRenders(ms, t, e, false);
  }

  /** Live, the screen shows every line of the log, with each text put together from its deltas in order. */
  lemma {:induction false} ScreenShowsLog(s: Screen, log: seq<Stamped>)
    requires s.view == EMPTY && s.chrome.pending.None? && AllPreviewable(log) && NoEmptyInput(log)
    ensures Renders(WatchAll(s, log).view.messages, TranscriptOf(log, true))
  {
    if log != [] {
      hide Renders, Watch, Shown, EffectOf, Next, Previewable;
      var n := |log| - 1;
      ScreenShowsLog(s, log[..n]);
      ConversationLaws.NothingPending(s, log[..n]);
      WatchShows(WatchAll(s, log[..n]), log[n].event, log[n].at);
      LiveRenders(WatchAll(s, log[..n]).view.messages, TranscriptOf(log[..n], true), log[n].event);
    }
  }

  /** So does a replay, except that an empty delta does not end a text there. */
  lemma {:induction false} ReplayShowsLog(log: seq<Stamped>)
    requires AllPreviewable(log)
    ensures Renders(ReplayAll(EMPTY, log).messages, TranscriptOf(log, false))
  {
    if log != [] {
      hide Renders, Replay, Replayed, EffectOf, Next, Previewable, OnlyAssistantStreams, CallsHaveLines;
      var n := |log| - 1;
      ReplayShowsLog(log[..n]);
      assert Sound(EMPTY) by { EmptyIsSound(); }
      ReplayAllSound(EMPTY, log[..n]);
      ReplayShows(ReplayAll(EMPTY, log[..n]), log[n].event);
      ReplayRenders(ReplayAll(EMPTY, log[..n]).messages, TranscriptOf(log[..n], false), log[n].event);
    }
  }

  lemma EmptyIsSound()
    ensures Sound(EMPTY)
  {
  }

  // ----- the preview of a result

  /** A short result is shown whole; of a longer one, the characters in its first 200 bytes, and dots. */
  lemma PreviewShows(output: string)
    requires Preview(output).Some?
    ensures var t, p := Text(Scalars(output)), Preview(output).value;
            if |t| <= 200 then p == output
            else exists k :: 0 <= k <= |output| && p == output[..k] + "..." && |Text(Scalars(output)[..k])| == 200
  {
    hide Text;
    var chars := Scalars(output);
    CharsToFinds(chars, PREVIEW, |chars|);
  }

  // ----- calls, and what else live events change

  /** A start adds an entry for the call, running and without a result. */
  lemma StartAddsCall(v: View, body: Body, agent: Option<string>)
    requires body.ToolCallStart?
    ensures var w := StartCall(v, body, agent);
            && |w.calls| == |v.calls| + 1 && w.calls[..|v.calls|] == v.calls
            && w.sessionId == v.sessionId && w.model == v.model
            && var entry := w.calls[|v.calls|];
               && entry.finishedAt.None? && entry.call.toolId == body.toolId && entry.call.name == body.name
               && entry.call.description == body.description && entry.call.input == body.input
               && entry.call.output.None? && entry.call.duration.None? && entry.call.status == Running
               && entry.call.messageIndex == |w.messages| - 1
  {
  }

  /** What each kind of live event does outside the conversation. */
  lemma LiveChrome(s: Screen, e: Event, now: nat)
    requires Previewable(e.body)
    ensures var a, b := s.chrome, Live(s, e, now).chrome;
            match e.body
            case SessionInfo(id, model) =>
              && b == a.(status := b.status) && b.status == "Session: " + id + " | Model: " + model
              && Live(s, e, now).view.sessionId == Some(id) && Live(s, e, now).view.model == model
            case StatusChange(message, thinking) =>
              b.busy == thinking && (message != "" ==> b.status == message) && b.(busy := a.busy, status := a.status) == a
              && (message == "" ==> b.status == a.status)
            case TurnComplete => !b.busy && b.pending.None? && b.status == a.status
            case Error(_, message, isFatal) =>
              b == a.(status := b.status) && b.status == if isFatal then "Fatal error: " + message else a.status
            case _ => b == a
  {
    hide Preview, LastAssistant, LiveText, StartCall, FinishCall;
  }

  /**
   * When a turn completes, a pending command takes effect: compaction leaves a divider in place of
   * the conversation and keeps the assistant's last words, clearing leaves nothing, and otherwise
   * the conversation stays, with its last message no longer streaming.
   */
  lemma TurnTakesCommand(s: Screen, e: Event, now: nat)
    requires e.body.TurnComplete?
    ensures var t := Live(s, e, now); var v, w := s.view, t.view;
            && t.chrome.pending.None? && w.sessionId == v.sessionId
            && (s.chrome.pending == Some(Compact) ==>
                  && |w.messages| == 1 && w.messages[0].role == CompactionDivider && w.calls == [] && w.model == v.model
                  && w.messages[0].content == "[context compacted]" && t.chrome.summary.Some?
                  && forall k :: 0 <= k < |v.messages| && v.messages[k].role == Assistant
                                 && (forall j :: k < j < |v.messages| ==> v.messages[j].role != Assistant)
                                 ==> t.chrome.summary == Some(v.messages[k].content))
            && (s.chrome.pending == Some(Compact)
                && (forall k :: 0 <= k < |v.messages| ==> v.messages[k].role != Assistant) ==>
                  t.chrome.summary == Some("Context compacted."))
            && (s.chrome.pending == Some(Clear) ==> w.messages == [] && w.calls == [] && w.model == v.model)
            && (s.chrome.pending != Some(Compact) ==> t.chrome.summary == s.chrome.summary)
            && (s.chrome.pending.None? || s.chrome.pending.value.ModelSwitch? ==>
                  && w.messages == FinishStreaming(v.messages) && w.calls == v.calls
                  && w.model == if s.chrome.pending.None? then v.model else s.chrome.pending.value.model)
  {
    hide LastAssistant;
    var ms := FinishStreaming(s.view.messages);
    forall k | 0 <= k < |ms| && ms[k].role == Assistant && (forall j :: k < j < |ms| ==> ms[j].role != Assistant)
      ensures LastAssistant(ms) == ms[k].content
    {
      LastAssistantIs(ms, k);
    }
    forall k | 0 <= k < |ms| ensures ms[k].role == s.view.messages[k].role && ms[k].content == s.view.messages[k].content {
    }
    if forall k :: 0 <= k < |ms| ==> ms[k].role != Assistant { NothingWasSaid(ms); }
  }

  lemma {:induction false} NothingWasSaid(ms: seq<Msg>)
    requires forall k :: 0 <= k < |ms| ==> ms[k].role != Assistant
    ensures LastAssistant(ms) == "Context compacted."
  {
    if ms != [] { NothingWasSaid(ms[..|ms| - 1]); }
  }
}
