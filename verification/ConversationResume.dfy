/** When a resumed session shows what was on the screen: exactly if no text was split. */
module ConversationResume {
  import opened Options
  import opened Conversation
  import opened ConversationLaws

  // ----- what an entry does to the messages

  datatype Effect =
    | Says(text: string, isComplete: bool, agent: Option<string>)
    | Adds(m: Msg, closes: bool)  // after the message before has been closed, or not
    | Closes
    | Nothing

  function EffectOf(e: Event): Effect
    requires Previewable(e.body)
  {
    match e.body
    case TextDelta(text, isComplete) => Says(text, isComplete, LabelOf(e))
    case ToolCallStart(_, name, description, _) => Adds(Plain(Tool, ToolLine(name, description), LabelOf(e)), true)
    case ToolCallResult(_, output, isError, _) =>
      Adds(Msg(Tool, ResultLine(isError, Preview(output).value), false, true, LabelOf(e)), false)
    case Error(code, message, _) => Adds(Plain(System, ErrorLine(code, message), LabelOf(e)), false)
    case UserInput(content) => Adds(Plain(User, content, None), false)
    case TurnComplete => Closes
    case _ => Nothing
  }

  function Apply(ms: seq<Msg>, effect: Effect): seq<Msg>
    requires !effect.Says?
  {
    match effect
    case Adds(m, closes) => (if closes then FinishStreaming(ms) else ms) + [m]
    case Closes => FinishStreaming(ms)
    case Nothing => ms
  }

  function Shown(ms: seq<Msg>, effect: Effect): seq<Msg> {
    if effect.Says? then LiveText(ms, TextDelta(effect.text, effect.isComplete), effect.agent) else Apply(ms, effect)
  }

  function Replayed(ms: seq<Msg>, effect: Effect): seq<Msg> {
    if effect.Says? then ReplayText(ms, TextDelta(effect.text, effect.isComplete), effect.agent) else Apply(ms, effect)
  }

  lemma WatchShows(s: Screen, e: Event, now: nat)
    requires Previewable(e.body) && s.chrome.pending.None? && e.body != UserInput("")
    ensures Watch(s, e, now).view.messages == Shown(s.view.messages, EffectOf(e))
  {
    hide LiveText, FinishStreaming, Preview, ToolLine, ResultLine, ErrorLine, Finish;
  }

  lemma ReplayShows(v: View, e: Event)
    requires Previewable(e.body)
    ensures Replay(v, e).messages == Replayed(v.messages, EffectOf(e))
  {
    hide ReplayText, ReplayStart, ReplayFinish, FinishStreaming, Preview, ToolLine, ResultLine, ErrorLine, Finish;
    match e.body
    case ToolCallStart(_, _, _, _) => StartsAgree(v, e.body, LabelOf(e));
    case ToolCallResult(_, _, _, _) => FinishesAgree(v, e.body, LabelOf(e));
    case _ =>
  }

  // ----- what the log says

  /** Whether the last text is open; open in a replay only, because an empty delta completed it; or neither. */
  datatype Phase = Idle | Streaming | Dangling

  function Next(p: Phase, body: Body): Phase {
    match body
    case TextDelta(text, isComplete) =>
      if text != "" then if isComplete then Idle else Streaming
      else if isComplete && p == Streaming then Dangling
      else p
    case SessionInfo(_, _) => p
    case StatusChange(_, _) => p
    case Other => p
    case _ => Idle
  }

  function PhaseOf(log: seq<Stamped>): Phase {
    if log == [] then Idle else Next(PhaseOf(log[..|log| - 1]), log[|log| - 1].event.body)
  }

  /** More text comes after an empty delta has completed a text, with nothing shown in between. */
  predicate Splits(p: Phase, body: Body) {
    p == Dangling && body.TextDelta? && body.text != ""
  }

  predicate NeverSplits(log: seq<Stamped>) {
    forall i :: 0 <= i < |log| ==> !Splits(PhaseOf(log[..i]), log[i].event.body)
  }

  /** The client does not submit empty input. */
  predicate NoEmptyInput(log: seq<Stamped>) {
    forall i :: 0 <= i < |log| ==> log[i].event.body != UserInput("")
  }

  // ----- until a text is split

  predicate Open(ms: seq<Msg>) {
    ms != [] && Last(ms).streaming
  }

  /** The messages are the same but for which are streaming, and the last ones stream as the phase says. */
  predicate Tracks(ms: seq<Msg>, rs: seq<Msg>, p: Phase) {
    && Settled(ms) == Settled(rs)
    && (Open(ms) <==> p == Streaming) && (Open(rs) <==> p != Idle)
    && (Open(rs) ==> Last(rs).role == Assistant)
  }

  lemma SettledSame(ms: seq<Msg>, rs: seq<Msg>)
    ensures Settled(ms) == Settled(rs)
       <==> |ms| == |rs| && forall i :: 0 <= i < |ms| ==> ms[i].(streaming := false) == rs[i].(streaming := false)
  {
    if Settled(ms) == Settled(rs) {
      forall i | 0 <= i < |ms| ensures ms[i].(streaming := false) == rs[i].(streaming := false) {
        assert Settled(ms)[i] == Settled(rs)[i];
      }
    }
  }

  lemma ApplyTracks(ms: seq<Msg>, rs: seq<Msg>, p: Phase, effect: Effect)
    requires Tracks(ms, rs, p) && !effect.Says? && (effect.Adds? ==> !effect.m.streaming)
    ensures Tracks(Apply(ms, effect), Apply(rs, effect), if effect.Nothing? then p else Idle)
  {
    SettledSame(ms, rs);
    hide Settled;
    SettledSame(Apply(ms, effect), Apply(rs, effect));
  }

  lemma SilenceTracks(ms: seq<Msg>, rs: seq<Msg>, p: Phase, isComplete: bool, agent: Option<string>)
    requires Tracks(ms, rs, p)
    ensures var body := TextDelta("", isComplete);
            Tracks(LiveText(ms, body, agent), ReplayText(rs, body, agent), Next(p, body))
  {
    SettledSame(ms, rs);
    hide Settled;
    SettledSame(LiveText(ms, TextDelta("", isComplete), agent), rs);
  }

  lemma TextTracks(ms: seq<Msg>, rs: seq<Msg>, p: Phase, text: string, isComplete: bool, agent: Option<string>)
    requires Tracks(ms, rs, p) && text != "" && p != Dangling
    ensures var body := TextDelta(text, isComplete);
            Tracks(LiveText(ms, body, agent), ReplayText(rs, body, agent), Next(p, body))
  {
    var body := TextDelta(text, isComplete);
    SettledSame(ms, rs);
    hide Settled;
    assert "" + text == text;
    SettledSame(LiveText(ms, body, agent), ReplayText(rs, body, agent));
  }

  lemma EntryTracks(ms: seq<Msg>, rs: seq<Msg>, p: Phase, e: Event)
    requires Tracks(ms, rs, p) && Previewable(e.body) && !Splits(p, e.body)
    ensures Tracks(Shown(ms, EffectOf(e)), Replayed(rs, EffectOf(e)), Next(p, e.body))
  {
    hide Tracks, LiveText, ReplayText, Preview, ToolLine, ResultLine, ErrorLine, Apply;
    match e.body
    case TextDelta(text, isComplete) =>
      if text == "" {
        SilenceTracks(ms, rs, p, isComplete, LabelOf(e));
      } else {
        TextTracks(ms, rs, p, text, isComplete, LabelOf(e));
      }
    case _ => ApplyTracks(ms, rs, p, EffectOf(e));
  }

  lemma {:induction false} LogTracks(s: Screen, log: seq<Stamped>)
    requires s.view == EMPTY && s.chrome.pending.None? && AllPreviewable(log) && NoEmptyInput(log) && NeverSplits(log)
    ensures Tracks(WatchAll(s, log).view.messages, ReplayAll(EMPTY, log).messages, PhaseOf(log))
  {
    if log != [] {
      hide Tracks, Watch, Replay, Shown, Replayed, EffectOf, Next, Splits, Previewable;
      var n := |log| - 1;
      var rest, e := log[..n], log[n].event;
      forall i | 0 <= i < n ensures !Splits(PhaseOf(rest[..i]), rest[i].event.body) { assert rest[..i] == log[..i]; }
      LogTracks(s, rest);
      NothingPending(s, rest);
      WatchShows(WatchAll(s, rest), e, log[n].at);
      ReplayShows(ReplayAll(EMPTY, rest), e);
      EntryTracks(WatchAll(s, rest).view.messages, ReplayAll(EMPTY, rest).messages, PhaseOf(rest), e);
    }
  }

  // ----- once a text has been split

  /** The replay has a text open wherever the screen has one, and never more messages. */
  predicate Behind(ms: seq<Msg>, rs: seq<Msg>, lead: nat) {
    && (Open(ms) ==> Open(rs)) && (Open(rs) ==> Last(rs).role == Assistant)
    && |rs| + lead <= |ms|
  }

  lemma EffectBehind(ms: seq<Msg>, rs: seq<Msg>, effect: Effect, lead: nat)
    requires Behind(ms, rs, lead) && (effect.Adds? ==> !effect.m.streaming)
    ensures Behind(Shown(ms, effect), Replayed(rs, effect), lead)
    ensures effect.Says? && effect.text != "" && !Open(ms) && Open(rs) ==>
              Behind(Shown(ms, effect), Replayed(rs, effect), lead + 1)
  {
  }

  lemma EntryBehind(ms: seq<Msg>, rs: seq<Msg>, e: Event, lead: nat)
    requires Behind(ms, rs, lead) && Previewable(e.body)
    ensures Behind(Shown(ms, EffectOf(e)), Replayed(rs, EffectOf(e)), lead)
    ensures e.body.TextDelta? && e.body.text != "" && !Open(ms) && Open(rs) ==>
              Behind(Shown(ms, EffectOf(e)), Replayed(rs, EffectOf(e)), lead + 1)
  {
    hide Shown, Replayed, Preview, ToolLine, ResultLine, ErrorLine, Behind;
    EffectBehind(ms, rs, EffectOf(e), lead);
  }

  lemma {:induction false} SplitStays(s: Screen, log: seq<Stamped>, k: nat)
    requires s.view == EMPTY && s.chrome.pending.None? && AllPreviewable(log) && NoEmptyInput(log)
    requires k < |log| && Splits(PhaseOf(log[..k]), log[k].event.body) && NeverSplits(log[..k])
    ensures Behind(WatchAll(s, log).view.messages, ReplayAll(EMPTY, log).messages, 1)
  {
    hide Behind, Watch, Replay, Shown, Replayed, EffectOf, Next, Previewable, PhaseOf;
    var n := |log| - 1;
    var rest, e := log[..n], log[n].event;
    var ms, rs := WatchAll(s, rest).view.messages, ReplayAll(EMPTY, rest).messages;
    NothingPending(s, rest);
    WatchShows(WatchAll(s, rest), e, log[n].at);
    ReplayShows(ReplayAll(EMPTY, rest), e);
    if k < n {
      assert rest[..k] == log[..k];
      SplitStays(s, rest, k);
      EntryBehind(ms, rs, e, 1);
    } else {
      LogTracks(s, rest);
      DanglingIsBehind(ms, rs);
      EntryBehind(ms, rs, e, 0);
    }
  }

  lemma DanglingIsBehind(ms: seq<Msg>, rs: seq<Msg>)
    requires Tracks(ms, rs, Dangling)
    ensures Behind(ms, rs, 0) && !Open(ms) && Open(rs)
  {
    SettledSame(ms, rs);
  }

  lemma FirstSplit(log: seq<Stamped>, n: nat) returns (k: nat)
    requires n <= |log| && exists i :: 0 <= i < n && Splits(PhaseOf(log[..i]), log[i].event.body)
    ensures k < n && Splits(PhaseOf(log[..k]), log[k].event.body) && NeverSplits(log[..k])
  {
    hide Splits, PhaseOf;
    if i :| 0 <= i < n - 1 && Splits(PhaseOf(log[..i]), log[i].event.body) {
      k := FirstSplit(log, n - 1);
    } else {
      k := n - 1;
      forall i | 0 <= i < k ensures !Splits(PhaseOf(log[..k][..i]), log[..k][i].event.body) {
        assert log[..k][..i] == log[..i];
      }
    }
  }

  /**
   * For every log: resuming the session shows what was on the screen exactly if, in the log, no text
   * that an empty delta completed is followed by more text before anything else is shown.
   */
  lemma ResumeAgreesExactly(s: Screen, log: seq<Stamped>)
    requires s.view == EMPTY && s.chrome.pending.None? && AllPreviewable(log) && NoEmptyInput(log)
    ensures Settled(ReplayAll(EMPTY, log).messages) == Settled(WatchAll(s, log).view.messages) <==> NeverSplits(log)
  {
    hide WatchAll, ReplayAll, Previewable, Splits, PhaseOf, Next;
    if NeverSplits(log) {
      LogTracks(s, log);
    } else {
      var k := FirstSplit(log, |log|);
      SplitStays(s, log, k);
    }
  }
}
