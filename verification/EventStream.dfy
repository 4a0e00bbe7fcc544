/** What forwards agent events to the client, decrypting them when a session is active. */
module EventStream {
  import opened Options
  import opened Bytes
  import opened CryptoSession

  /** An event as it travels; what is in an envelope is again an event. */
  datatype AgentEvent = Plain(payload: seq<Byte>) | Envelope(ciphertext: seq<Byte>, nonce: seq<Byte>)

  /** The session's cipher, and how events are read from bytes. */
  datatype Keys = Keys(cipher: Cipher, decode: seq<Byte> -> Option<AgentEvent>)

  /** How the stream goes on after its events. */
  datatype Ending = StillOpen | Closed | Broken(status: string)

  datatype Delivery = Delivered(event: AgentEvent) | Failed(status: string)

  const MAX_CONSECUTIVE_DECRYPT_FAILURES: nat := 5

  const PERSISTENT := "Persistent decryption failures — possible key mismatch"

  /** `decrypt_agent_event`: with a session active, events outside envelopes are refused. */
  function DecryptEvent(keys: Keys, event: AgentEvent): Option<AgentEvent> {
    match event
    case Envelope(ciphertext, nonce) =>
      (match DecryptWith(keys.cipher, ciphertext, nonce)
       case Ok(text) => keys.decode(text)
       case Err(_) => None)
    case Plain(_) => None
  }

  /** What the client is given for an event, if anything. */
  function Opened(keys: Option<Keys>, event: AgentEvent): Option<AgentEvent> {
    match keys
    case Some(k) => DecryptEvent(k, event)
    case None => Some(event)
  }

  /** The event was sealed with the session's key: a full nonce, a text that authenticates, and in it this event. */
  ghost predicate OpensTo(keys: Keys, sent: AgentEvent, event: AgentEvent) {
    && sent.Envelope? && |sent.nonce| == 12
    && exists text :: keys.cipher.unseal(sent.nonce, sent.ciphertext) == Some(text) && keys.decode(text) == Some(event)
  }

  lemma OpenedExactly(keys: Keys, sent: AgentEvent, event: AgentEvent)
    ensures Opened(Some(keys), sent) == Some(event) <==> OpensTo(keys, sent, event)
  {
  }

  /** The events that can be opened, opened and in order. */
  function Good(keys: Option<Keys>, events: seq<AgentEvent>): seq<AgentEvent> {
    if events == [] then []
    else
      var last := Opened(keys, events[|events| - 1]);
      Good(keys, events[..|events| - 1]) + if last.Some? then [last.value] else []
  }

  /** The event at `i` is the last of five in a row that cannot be opened. */
  predicate TooManyBad(keys: Option<Keys>, events: seq<AgentEvent>, i: nat)
    requires i < |events|
  {
    && MAX_CONSECUTIVE_DECRYPT_FAILURES <= i + 1
    && forall j :: i - MAX_CONSECUTIVE_DECRYPT_FAILURES < j <= i ==> Opened(keys, events[j]).None?
  }

  /** Where the first five failures in a row are complete, or the number of events if they never are. */
  function CutOff(keys: Option<Keys>, events: seq<AgentEvent>, from: nat): (k: nat)
    requires from <= |events|
    ensures from <= k <= |events|
    ensures k < |events| ==> TooManyBad(keys, events, k)
    ensures forall j :: from <= j < k ==> !TooManyBad(keys, events, j)
    decreases |events| - from
  {
    if from == |events| || TooManyBad(keys, events, from) then from else CutOff(keys, events, from + 1)
  }

  function Deliveries(events: seq<AgentEvent>): (d: seq<Delivery>)
    ensures |d| == |events| && forall i :: 0 <= i < |d| ==> d[i] == Delivered(events[i])
  {
    seq(|events|, i requires 0 <= i < |events| => Delivered(events[i]))
  }

  /** What a receiver that stays is given: the good events up to the cut-off, and what ended the stream. */
  function Full(keys: Option<Keys>, events: seq<AgentEvent>, ending: Ending): seq<Delivery> {
    var cut := CutOff(keys, events, 0);
    Deliveries(Good(keys, events[..cut]))
    + if cut < |events| then [Failed(PERSISTENT)] else if ending.Broken? then [Failed(ending.status)] else []
  }

  /** What a receiver that takes at most `room` deliveries is given. */
  function Capped(d: seq<Delivery>, room: nat): seq<Delivery> {
    if |d| <= room then d else d[..room]
  }

  lemma GoodNext(keys: Option<Keys>, events: seq<AgentEvent>, i: nat)
    requires i < |events|
    ensures var now := Opened(keys, events[i]);
            Good(keys, events[..i + 1]) == Good(keys, events[..i]) + if now.Some? then [now.value] else []
  {
    assert events[..i + 1][..i] == events[..i];
  }

  lemma {:induction false} GoodGrows(keys: Option<Keys>, events: seq<AgentEvent>, i: nat, k: nat)
    requires i <= k <= |events|
    ensures Good(keys, events[..i]) <= Good(keys, events[..k])
  {
    if i < k {
      GoodNext(keys, events, k - 1);
      GoodGrows(keys, events, i, k - 1);
    }
  }

  /** The events before `i` end with `failures` that cannot be opened. */
  predicate BadTail(keys: Option<Keys>, events: seq<AgentEvent>, i: nat, failures: nat)
    requires i <= |events|
  {
    && failures <= i
    && (forall j :: i - failures <= j < i ==> Opened(keys, events[j]).None?)
    && (failures < i ==> Opened(keys, events[i - failures - 1]).Some?)
  }

  lemma BadNext(keys: Option<Keys>, events: seq<AgentEvent>, i: nat, failures: nat)
    requires i < |events| && failures < MAX_CONSECUTIVE_DECRYPT_FAILURES && BadTail(keys, events, i, failures)
    ensures if Opened(keys, events[i]).Some? then !TooManyBad(keys, events, i) && BadTail(keys, events, i + 1, 0)
            else && (TooManyBad(keys, events, i) <==> failures + 1 == MAX_CONSECUTIVE_DECRYPT_FAILURES)
                 && BadTail(keys, events, i + 1, failures + 1)
  {
    hide Opened;
  }

  /** A receiver that has left gets no more than it had room for. */
  lemma LeavesEarly(keys: Option<Keys>, events: seq<AgentEvent>, ending: Ending, i: nat, room: nat)
    requires i <= CutOff(keys, events, 0) && |Good(keys, events[..i])| > room
    ensures Capped(Full(keys, events, ending), room) == Deliveries(Good(keys, events[..i])[..room])
  {
    var cut := CutOff(keys, events, 0);
    GoodGrows(keys, events, i, cut);
    hide Good;
    assert Good(keys, events[..i]) == Good(keys, events[..cut])[..|Good(keys, events[..i])|];
  }

  // ----- where events come from

  predicate Increasing(at: seq<nat>, n: nat) {
    && (forall i :: 0 <= i < |at| ==> at[i] < n)
    && (forall i, j :: 0 <= i < j < |at| ==> at[i] < at[j])
  }

  /** What is kept are the events sealed with the session's key, all of them and in order; `at` is where. */
  ghost predicate Keeps(keys: Keys, events: seq<AgentEvent>, kept: seq<AgentEvent>, at: seq<nat>) {
    && Increasing(at, |events|) && |at| == |kept|
    && (forall i :: 0 <= i < |at| ==> OpensTo(keys, events[at[i]], kept[i]))
    && (forall j, event :: 0 <= j < |events| && OpensTo(keys, events[j], event) ==> j in at)
  }

  /** What is delivered are events sealed with the session's key, in order, and then at most an error. */
  ghost predicate Delivers(keys: Keys, events: seq<AgentEvent>, delivered: seq<Delivery>, at: seq<nat>) {
    && Increasing(at, |events|) && |at| <= |delivered| <= |at| + 1
    && (forall i :: 0 <= i < |at| ==> delivered[i].Delivered? && OpensTo(keys, events[at[i]], delivered[i].event))
    && (forall i :: |at| <= i < |delivered| ==> delivered[i].Failed?)
  }

  lemma {:induction false} GoodKeeps(keys: Keys, events: seq<AgentEvent>) returns (at: seq<nat>)
    ensures Keeps(keys, events, Good(Some(keys), events), at)
  {
    at := [];
    if events != [] {
      hide Opened, Keeps;
      var n := |events| - 1;
      at := GoodKeeps(keys, events[..n]);
      at := KeepsNext(keys, events[..n], events[n], Good(Some(keys), events[..n]), at);
      assert events[..n] + [events[n]] == events;
    }
  }

  lemma KeepsNext(keys: Keys, events: seq<AgentEvent>, e: AgentEvent, kept: seq<AgentEvent>, front: seq<nat>)
    returns (at: seq<nat>)
    requires Keeps(keys, events, kept, front)
    ensures var last := Opened(Some(keys), e);
            Keeps(keys, events + [e], kept + if last.Some? then [last.value] else [], at)
  {
    hide OpensTo, Opened;
    var n, last, more := |events|, Opened(Some(keys), e), events + [e];
    forall event ensures last == Some(event) <==> OpensTo(keys, e, event) { OpenedExactly(keys, e, event); }
    at := front + if last.Some? then [n] else [];
    var now := kept + if last.Some? then [last.value] else [];
    forall i | 0 <= i < |at| ensures OpensTo(keys, more[at[i]], now[i]) {
      if i < |front| { assert more[front[i]] == events[front[i]]; }
    }
    forall j, event | 0 <= j < |more| && OpensTo(keys, more[j], event) ensures j in at {
      if j < n {
        assert more[j] == events[j] && j in front;
      } else {
        assert at[|front|] == n;
      }
    }
  }

  lemma CappedDelivers(keys: Keys, events: seq<AgentEvent>, ending: Ending, room: nat) returns (at: seq<nat>)
    ensures Delivers(keys, events, Capped(Full(Some(keys), events, ending), room), at)
  {
    hide Keeps, Good, TooManyBad, Delivers;
    var cut := CutOff(Some(keys), events, 0);
    var all := GoodKeeps(keys, events[..cut]);
    at := if |all| <= room then all else all[..room];
    var error :=
      if cut < |events| then [Failed(PERSISTENT)] else if ending.Broken? then [Failed(ending.status)] else [];
    PartDelivers(keys, events, cut, Good(Some(keys), events[..cut]), all, error, room);
  }

  /** What a receiver gets of some deliveries and an error. */
  lemma CappedIs(good: seq<AgentEvent>, error: seq<Delivery>, room: nat)
    requires |error| <= 1
    ensures var d, n := Capped(Deliveries(good) + error, room), if |good| <= room then |good| else room;
            && n <= |d| <= n + 1
            && (forall i :: 0 <= i < n ==> d[i] == Delivered(good[i]))
            && (|d| > n ==> |error| == 1 && d[n] == error[0])
  {
  }

  lemma PartDelivers(keys: Keys, events: seq<AgentEvent>, cut: nat, good: seq<AgentEvent>, all: seq<nat>,
                     error: seq<Delivery>, room: nat)
    requires cut <= |events| && Keeps(keys, events[..cut], good, all)
    requires |error| <= 1 && (error != [] ==> error[0].Failed?)
    ensures Delivers(keys, events, Capped(Deliveries(good) + error, room), if |all| <= room then all else all[..room])
  {
    hide OpensTo, Capped, Deliveries, Increasing, Keeps;
    CappedIs(good, error, room);
    KeptPart(keys, events, cut, good, all, if |all| <= room then |all| else room);
  }

  /** The first `k` events kept of a part of the stream, as events of the stream. */
  lemma KeptPart(keys: Keys, events: seq<AgentEvent>, cut: nat, good: seq<AgentEvent>, all: seq<nat>, k: nat)
    requires cut <= |events| && Keeps(keys, events[..cut], good, all) && k <= |all|
    ensures |all| == |good| && Increasing(all, |events|) && Increasing(all[..k], |events|)
    ensures forall i :: 0 <= i < |all| ==> all[i] < |events| && OpensTo(keys, events[all[i]], good[i])
  {
    hide OpensTo, Increasing;
    IncreasingPart(all, cut, |events|, k);
    forall i | 0 <= i < |all| ensures OpensTo(keys, events[all[i]], good[i]) {
      assert OpensTo(keys, events[..cut][all[i]], good[i]);
    }
  }

  lemma IncreasingPart(all: seq<nat>, cut: nat, n: nat, k: nat)
    requires Increasing(all, cut) && cut <= n && k <= |all|
    ensures Increasing(all, n) && Increasing(all[..k], n) && forall i :: 0 <= i < |all| ==> all[i] < cut
  {
  }

  /** Nothing that was not sealed with the session's key gets through: five such events in a row end the stream. */
  lemma NothingElseArrives(keys: Keys, events: seq<AgentEvent>, ending: Ending)
    requires forall i, event :: 0 <= i < |events| ==> !OpensTo(keys, events[i], event)
    ensures Good(Some(keys), events) == []
    ensures Full(Some(keys), events, ending)
         == if |events| >= 5 then [Failed(PERSISTENT)] else if ending.Broken? then [Failed(ending.status)] else []
  {
    hide OpensTo, Opened, Good, Keeps, TooManyBad;
    var at := GoodKeeps(keys, events);
    NoneKept(keys, events, Good(Some(keys), events), at);
    var cut := CutOff(Some(keys), events, 0);
    var some := GoodKeeps(keys, events[..cut]);
    NoneKept(keys, events[..cut], Good(Some(keys), events[..cut]), some);
    assert Deliveries([]) == [];
    FiveInARow(keys, events);
    if |events| >= 5 { assert TooManyBad(Some(keys), events, 4); }
    assert cut < |events| <==> |events| >= 5;
  }

  lemma FiveInARow(keys: Keys, events: seq<AgentEvent>)
    requires forall i, event :: 0 <= i < |events| ==> !OpensTo(keys, events[i], event)
    ensures forall i :: 0 <= i < |events| ==> (TooManyBad(Some(keys), events, i) <==> i >= 4)
  {
    hide OpensTo, Opened;
    forall i | 0 <= i < |events| ensures Opened(Some(keys), events[i]).None? {
      if Opened(Some(keys), events[i]).Some? { OpenedExactly(keys, events[i], Opened(Some(keys), events[i]).value); }
    }
  }

  lemma NoneKept(keys: Keys, events: seq<AgentEvent>, kept: seq<AgentEvent>, at: seq<nat>)
    requires Keeps(keys, events, kept, at)
    requires forall i, event :: 0 <= i < |events| ==> !OpensTo(keys, events[i], event)
    ensures kept == []
  {
    hide OpensTo, Keeps;
    if kept != [] { FirstKept(keys, events, kept, at); }
  }

  lemma FirstKept(keys: Keys, events: seq<AgentEvent>, kept: seq<AgentEvent>, at: seq<nat>)
    requires Keeps(keys, events, kept, at) && kept != []
    ensures |at| > 0 && at[0] < |events| && OpensTo(keys, events[at[0]], kept[0])
  {
    hide OpensTo;
  }

  /** While a session is active, plaintext is refused, whoever put it in the stream. */
  lemma PlaintextIsRefused(keys: Keys, events: seq<AgentEvent>, ending: Ending)
    requires forall i :: 0 <= i < |events| ==> events[i].Plain?
    ensures Good(Some(keys), events) == []
    ensures Full(Some(keys), events, ending)
         == if |events| >= 5 then [Failed(PERSISTENT)] else if ending.Broken? then [Failed(ending.status)] else []
  {
    hide Full, Good;
    NothingElseArrives(keys, events, ending);
  }

  /** Without a session, events are passed on as they are. */
  lemma WithoutSession(events: seq<AgentEvent>, ending: Ending)
    ensures Good(None, events) == events
    ensures Full(None, events, ending) == Deliveries(events) + if ending.Broken? then [Failed(ending.status)] else []
  {
    hide Good;
    GoodIsAll(events);
    forall i | 0 <= i < |events| ensures !TooManyBad(None, events, i) { assert Opened(None, events[i]).Some?; }
    assert CutOff(None, events, 0) == |events|;
    assert events[..|events|] == events;
  }

  // ----- the readers

  /** The reader. The receiver is dropped after `room` deliveries. */
  method ReadEvents(keys: Option<Keys>, events: seq<AgentEvent>, ending: Ending, room: nat)
    returns (delivered: seq<Delivery>)
    ensures delivered == Capped(Full(keys, events, ending), room)
    ensures keys.Some? ==> exists at :: Delivers(keys.value, events, delivered, at)
  {
    hide Opened, BadTail, TooManyBad, Good, Capped, Full, Delivers;
    if keys.Some? { ghost var at := CappedDelivers(keys.value, events, ending, room); }
    delivered := [];
    var failures := 0;
    var i := 0;
    ghost var good: seq<AgentEvent> := [];
    GoodNone(keys, events);
    while i < |events|
      invariant 0 <= i <= CutOff(keys, events, 0)
      invariant good == Good(keys, events[..i]) && delivered == Deliveries(good) && |good| <= room
      invariant failures < MAX_CONSECUTIVE_DECRYPT_FAILURES && BadTail(keys, events, i, failures)
    {
      GoodNext(keys, events, i);
      BadNext(keys, events, i, failures);
      var event := Opened(keys, events[i]);
      if event.None? {
        failures := failures + 1;
        if failures >= MAX_CONSECUTIVE_DECRYPT_FAILURES {
          if |delivered| < room {
            delivered := delivered + [Failed(PERSISTENT)];
          }
          CutsOff(keys, events, ending, i, room);
          return;
        }
      } else {
        failures := 0;
        if |delivered| >= room {
          LeavesEarly(keys, events, ending, i + 1, room);
          return;
        }
        delivered := delivered + [Delivered(event.value)];
        good := good + [event.value];
      }
      i := i + 1;
    }
    if ending.Broken? && |delivered| < room {
      delivered := delivered + [Failed(ending.status)];
    }
    CutsOff(keys, events, ending, i, room);
  }

  lemma GoodNone(keys: Option<Keys>, events: seq<AgentEvent>)
    ensures Good(keys, events[..0]) == [] && Deliveries([]) == [] && BadTail(keys, events, 0, 0)
  {
  }

  /** A receiver that stays gets the good events, and then the error if there is one and room for it. */
  lemma CutsOff(keys: Option<Keys>, events: seq<AgentEvent>, ending: Ending, i: nat, room: nat)
    requires i == CutOff(keys, events, 0) && |Good(keys, events[..i])| <= room
    ensures var good := Deliveries(Good(keys, events[..i]));
            var error :=
              if i < |events| then [Failed(PERSISTENT)] else if ending.Broken? then [Failed(ending.status)] else [];
            Capped(Full(keys, events, ending), room) == if |good| < room then good + error else good
  {
    hide Good;
  }

  /** `decrypt_resume_events`: the same events at once, skipping those that cannot be opened. */
  method DecryptResumeEvents(keys: Option<Keys>, events: seq<AgentEvent>) returns (kept: seq<AgentEvent>)
    ensures kept == Good(keys, events)
    ensures keys.Some? ==> exists at :: Keeps(keys.value, events, kept, at)
  {
    if keys.Some? { ghost var at := GoodKeeps(keys.value, events); }
    if keys.None? {
      GoodIsAll(events);
      return events;
    }
    kept := [];
    for i := 0 to |events|
      invariant kept == Good(keys, events[..i])
    {
      GoodNext(keys, events, i);
      var event := DecryptEvent(keys.value, events[i]);
      if event.Some? {
        kept := kept + [event.value];
      }
    }
    assert events[..|events|] == events;
  }

  lemma {:induction false} GoodIsAll(events: seq<AgentEvent>)
    ensures Good(None, events) == events
  {
    if events != [] {
      GoodIsAll(events[..|events| - 1]);
    }
  }

  /** Five events in a row cannot be opened. */
  ghost predicate Persistent(keys: Option<Keys>, events: seq<AgentEvent>) {
    exists i :: 0 <= i < |events| && TooManyBad(keys, events, i)
  }

  /**
   * The live stream delivers exactly what resuming the session would show, and no error, unless
   * five events in a row cannot be opened; then it delivers a prefix of that, and one error.
   */
  lemma StreamAgainstResume(keys: Option<Keys>, events: seq<AgentEvent>)
    ensures !Persistent(keys, events) <==> Full(keys, events, Closed) == Deliveries(Good(keys, events))
    ensures Persistent(keys, events) ==>
              exists k :: 0 <= k <= |Good(keys, events)|
                          && Full(keys, events, Closed) == Deliveries(Good(keys, events)[..k]) + [Failed(PERSISTENT)]
  {
    hide TooManyBad, Good, Deliveries;
    var cut := CutOff(keys, events, 0);
    assert events[..|events|] == events;
    assert Persistent(keys, events) <==> cut < |events|;
    if cut < |events| {
      GoodGrows(keys, events, cut, |events|);
      var k := |Good(keys, events[..cut])|;
      assert Good(keys, events)[..k] == Good(keys, events[..cut]);
      EndsWithError(Good(keys, events[..cut]), Good(keys, events));
    }
  }

  lemma EndsWithError(good: seq<AgentEvent>, all: seq<AgentEvent>)
    ensures Deliveries(good) + [Failed(PERSISTENT)] != Deliveries(all)
  {
    var d := Deliveries(good) + [Failed(PERSISTENT)];
    assert d[|good|] == Failed(PERSISTENT);
  }

  // ----- end to end

  /** Events as a peer with the cipher `sender` sends them. */
  predicate SealedBy(sender: Cipher, encode: AgentEvent -> seq<Byte>, event: AgentEvent, sent: AgentEvent) {
    sent.Envelope? && |sent.nonce| == NONCE_SIZE && Some(sent.ciphertext) == sender.seal(sent.nonce, encode(event))
  }

  /** Everything a peer with the same key sends is delivered, whole and in order. */
  lemma {:induction false} SealedEventsArrive(
    sender: Cipher, encode: AgentEvent -> seq<Byte>, keys: Keys, events: seq<AgentEvent>, sent: seq<AgentEvent>)
    requires Opens(sender, keys.cipher) && forall e :: keys.decode(encode(e)) == Some(e)
    requires |sent| == |events| && forall i :: 0 <= i < |events| ==> SealedBy(sender, encode, events[i], sent[i])
    ensures Good(Some(keys), sent) == events && Full(Some(keys), sent, Closed) == Deliveries(events)
  {
    forall i | 0 <= i < |sent| ensures Opened(Some(keys), sent[i]) == Some(events[i]) {
      assert SealedBy(sender, encode, events[i], sent[i]);
    }
    AllArrive(Some(keys), events, sent);
    forall i | 0 <= i < |sent| ensures !TooManyBad(Some(keys), sent, i) {
      assert Opened(Some(keys), sent[i]).Some?;
    }
    StreamAgainstResume(Some(keys), sent);
  }

  lemma {:induction false} AllArrive(keys: Option<Keys>, events: seq<AgentEvent>, sent: seq<AgentEvent>)
    requires |sent| == |events| && forall i :: 0 <= i < |sent| ==> Opened(keys, sent[i]) == Some(events[i])
    ensures Good(keys, sent) == events
  {
    if sent != [] {
      AllArrive(keys, events[..|events| - 1], sent[..|sent| - 1]);
    }
  }
}
