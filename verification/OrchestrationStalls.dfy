/**
 * When an orchestration can stall, that is, wait with nothing to launch while a step is running:
 * exactly when it has steps to hold on to that every refused step waits for, and other steps that can
 * complete while these are held.
 */
module OrchestrationStalls {
  import opened DependencyGraph
  import opened DagValidation
  import opened DagScheduler
  import opened SchedulerLaws
  import opened Orchestration
  import opened OrchestrationSafety
  import opened OrchestrationLog
  import opened OrchestrationRuns
  import opened OrchestrationProgress
  import opened OrchestrationChains
  import opened OrchestrationTurns

  /** `x` waits for a step of `held`. */
  ghost predicate Below(deps: Deps, x: Id, held: set<Id>) {
    exists y :: y in held && DependsOn(deps, x, y)
  }

  /** `x` and the steps of `held` have nothing to do with one another. */
  ghost predicate Apart(deps: Deps, x: Id, held: set<Id>) {
    forall y :: y in held ==> !Comparable(deps, x, y)
  }

  /** No step of `held` waits for another. */
  ghost predicate Antichain(deps: Deps, held: set<Id>) {
    forall x, y :: x in held && y in held ==> !DependsOn(deps, x, y)
  }

  /** These steps can be running together, with every step that is certain to be refused waiting for one of them. */
  ghost predicate Holdable(c: Config, held: set<Id>) {
    && held != {} && held <= Elements(c.steps) && Antichain(c.deps, held)
    && forall x :: Refused(c, x) ==> Below(c.deps, x, held)
  }

  ghost predicate Outside(c: Config, x: Id, held: set<Id>) {
    x in c.steps && x !in held && !Below(c.deps, x, held)
  }

  ghost predicate TwoOutside(c: Config, x: Id, y: Id, held: set<Id>) {
    Outside(c, x, held) && Outside(c, y, held) && !Comparable(c.deps, x, y)
  }

  /**
   * Something else can wake the loop while the steps are held: a step that has nothing to do with
   * any of them, or two steps before them that have nothing to do with one another.
   */
  ghost predicate Distracted(c: Config, held: set<Id>) {
    || (exists x :: x in c.steps && Apart(c.deps, x, held))
    || (exists x, y :: TwoOutside(c, x, y, held))
  }

  ghost predicate Stallable(c: Config) {
    exists held :: Holdable(c, held) && Distracted(c, held)
  }

  // ----- choosing turns that lead to a stall

  ghost predicate NoneDead(s: Sched) {
    forall x :: x in s.states ==> !Dead(s.states[x])
  }

  /** Steps that have not completed. */
  ghost function Open(s: Sched): set<Id> {
    set x | x in s.states && s.states[x] != Completed
  }

  /** A state from which turns can be taken. */
  ghost predicate Calm(c: Config, s: State) {
    Reached(c, s) && AllBusy(s) && s.pc.Top? && NoneDead(s.sched)
  }

  lemma TurnCloses(s: Sched, t: Sched, done: set<Id>)
    requires Advanced(s, t, done) && NoneDead(s)
    ensures NoneDead(t) && Open(t) == Open(s) - done
  {
    forall x ensures x in Open(t) <==> x in Open(s) - done {
      if x in s.states || x in t.states { assert x in s.states && x in t.states; }
    }
    forall x | x in t.states ensures !Dead(t.states[x]) { assert x in s.states; }
  }

  /** `y` is live or waits for a step that is. */
  ghost predicate HasLive(deps: Deps, s: Sched, y: Id) {
    exists x :: Live(s, x) && (x == y || DependsOn(deps, y, x))
  }

  lemma LiveThrough(deps: Deps, s: Sched, z: Id, y: Id)
    requires y in DepsOf(deps, z) && HasLive(deps, s, y)
    ensures HasLive(deps, s, z)
  {
    hide DependsOn;
    var x :| Live(s, x) && (x == y || DependsOn(deps, y, x));
    DirectDependency(deps, z, y);
    if x != y { ExtendDependency(deps, z, y, x); }
  }

  lemma StuckWaits(c: Config, s: Sched, z: Id, stuck: set<Id>)
    requires Consistent(c.deps, s) && NoneDead(s) && z in stuck
    requires stuck == set y | y in s.states && y in Open(s) && !HasLive(c.deps, s, y)
    ensures WaitsIn(c.deps, z, stuck)
  {
    hide DependsOn;
    assert !Live(s, z);
    AgreesIn(c.deps, s, z);
    UnmetZero(DepsOf(c.deps, z), Done(s));
    var y :| y in DepsOf(c.deps, z) && y !in Done(s);
    if HasLive(c.deps, s, y) { LiveThrough(c.deps, s, z, y); }
  }

  /** Every open step is live or waits for one that is. */
  lemma LiveUpstream(c: Config, s: Sched, y: Id) returns (x: Id)
    requires Acyclic(c.deps) && Consistent(c.deps, s) && NoneDead(s) && y in Open(s)
    ensures Live(s, x) && (x == y || DependsOn(c.deps, y, x))
  {
    hide Acyclic, DependsOn, WaitsIn, Consistent;
    var stuck := set z | z in s.states && z in Open(s) && !HasLive(c.deps, s, z);
    forall z | z in stuck ensures WaitsIn(c.deps, z, stuck) {
      StuckWaits(c, s, z, stuck);
    }
    TrapIsEmpty(c.deps, stuck);
    assert y !in stuck;
    x :| Live(s, x) && (x == y || DependsOn(c.deps, y, x));
  }

  /** A live step waits for nothing that is open, so it is not refused while the held steps are open. */
  lemma LiveIsNotBelow(c: Config, s: Sched, x: Id, held: set<Id>)
    requires Consistent(c.deps, s) && Live(s, x) && held <= Open(s)
    ensures !Below(c.deps, x, held)
  {
    hide Consistent, DependsOn;
    forall y | y in held && DependsOn(c.deps, x, y) ensures false {
      DownstreamWaits(c.deps, s, y, x);
    }
  }

  lemma HeldOpenNoneRefused(c: Config, s: State, held: set<Id>)
    requires Planned(c, s) && Holdable(c, held) && held <= Open(s.sched)
    ensures NoneRefused(c, s.sched)
  {
    hide Consistent, LoopOk, Below, Refused;
    forall x | IsIn(s.sched, x, Ready) ensures !Refused(c, x) {
      LiveIsNotBelow(c, s.sched, x, held);
    }
  }

  lemma LiveIsNotTerminal(s: Sched, x: Id)
    requires Live(s, x)
    ensures !AllTerminal(s)
  {
  }

  lemma TopWaits(c: Config, s: State)
    requires s.pc.Top? && Select(c.steps, s.sched.states, Ready) == [] && !AllTerminal(s.sched) && s.tally.failed == 0
    ensures Enabled(c, s, Loop) && Apply(c, s, Loop) == s.(pc := WaitIdle)
  {
    hide Select, AllTerminal;
  }

  /** With nothing ready and something open, the loop waits with nothing to launch. */
  lemma GoIdle(c: Config, s: State, y: Id) returns (t: State)
    requires Accepted(c) && Calm(c, s) && y in Open(s.sched) && NoneReady(s.sched)
    ensures Reached(c, t) && t.pc.WaitIdle?
  {
    hide Reached, AllBusy, NoneDead, Known, Distinct, Acyclic;
    ReachedSafe(c, s);
    hide Safe, AllTracked, AllAgreed, LoopOk, Consistent, Open, NoneReady, AllTerminal, Live;
    var x := LiveUpstream(c, s.sched, y);
    LiveIsNotTerminal(s.sched, x);
    NothingSelected(c, s.sched);
    hide Select, Enabled, Apply, Planned;
    TopWaits(c, s);
    t := ReachedNext(c, s, Loop);
  }

  // ----- waves

  /** At the top of the loop with nothing but steps of `held` running and holding permits. */
  ghost predicate Poised(c: Config, s: State, held: set<Id>) {
    Calm(c, s) && Held(s.tasks) <= held && StepsIn(s.sched, Running) <= held
  }

  lemma FreeIs(c: Config, s: State, held: set<Id>)
    requires Reached(c, s)
    ensures forall x :: x in Free(c, s.sched, held) <==> IsIn(s.sched, x, Ready) && x !in held
  {
    hide Safe, Planned, Leads, AllTracked, AllAgreed, Queue;
    ReachedSafe(c, s);
    QueueIs(c, s);
  }

  /** An open step that is not held and waits for no held one is free, or waits for a free one. */
  lemma FreeUpstream(c: Config, s: State, held: set<Id>, z: Id) returns (x: Id)
    requires Accepted(c) && Poised(c, s, held) && z in Open(s.sched) && z !in held && !Below(c.deps, z, held)
    ensures x in Free(c, s.sched, held) && (x == z || DependsOn(c.deps, z, x))
  {
    hide DependsOn, Known, Distinct, Acyclic, Reached, AllBusy, NoneDead, Open, Free;
    ReachedSafe(c, s);
    hide Safe, AllTracked, AllAgreed, LoopOk, Consistent;
    FreeIs(c, s, held);
    x := LiveUpstream(c, s.sched, z);
    RunningIsHeld(s.sched, held, x);
  }

  lemma RunningIsHeld(s: Sched, held: set<Id>, x: Id)
    requires StepsIn(s, Running) <= held
    ensures IsIn(s, x, Running) ==> x in held
  {
    assert IsIn(s, x, Running) ==> x in StepsIn(s, Running);
  }

  /** The step that a wave may leave to the end: the last to be launched, unless that is held. */
  lemma LastFree(c: Config, s: State, held: set<Id>) returns (y: Id)
    requires Free(c, s.sched, held) != {}
    ensures y in Free(c, s.sched, held) && LastIn(Queue(c, s.sched), held + {y})
  {
    hide Queue;
    var q := Queue(c, s.sched);
    y :| y in Free(c, s.sched, held);
    assert q != [];
    if q[|q| - 1] !in held {
      y := q[|q| - 1];
      assert y in q;
    }
  }

  /** After a wave, only held steps are running, and what the wave launched has completed. */
  lemma WaveKeeps(c: Config, s: State, t: State, held: set<Id>)
    requires Poised(c, s, held) && Reached(c, t) && AllBusy(t) && t.pc.Top? && Held(t.tasks) <= held
    requires Advanced(s.sched, t.sched, Free(c, s.sched, held)) && Free(c, s.sched, held) != {}
    ensures Poised(c, t, held) && Open(t.sched) == Open(s.sched) - Free(c, s.sched, held)
    ensures |Open(t.sched)| < |Open(s.sched)|
  {
    hide Reached, AllBusy, Held, Free;
    FreeIs(c, s, held);
    TurnCloses(s.sched, t.sched, Free(c, s.sched, held));
    forall x | x in StepsIn(t.sched, Running) ensures x in held {
      assert x in s.sched.states;
      assert IsIn(s.sched, x, Ready) || x in StepsIn(s.sched, Running);
    }
    var y :| y in Free(c, s.sched, held);
    assert y in Open(s.sched);
    SubsetSize(Open(t.sched), Open(s.sched));
  }

  /** What became ready in a wave of one step waits for that step. */
  lemma NewlyReady(c: Config, s: State, t: State, y: Id, z: Id)
    requires Planned(c, s) && Planned(c, t) && Advanced(s.sched, t.sched, {y}) && IsIn(t.sched, z, Ready)
    ensures y in DepsOf(c.deps, z)
  {
    hide Consistent, LoopOk;
    ReadyAfterDependencies(c.deps, t.sched, z);
    assert z in s.sched.states && s.sched.states[z] == Pending;
    AgreesIn(c.deps, s.sched, z);
    UnmetZero(DepsOf(c.deps, z), Done(s.sched));
    var d :| d in DepsOf(c.deps, z) && d !in Done(s.sched);
    assert d in StepsIn(t.sched, Completed) && d in s.sched.states;
  }

  /**
   * There is a notification left over, or nothing is ready, or something is still open that can
   * wake the loop besides the held steps.
   */
  ghost predicate Promising(c: Config, s: State, held: set<Id>) {
    || s.permit || NoneReady(s.sched)
    || (exists x :: x in Open(s.sched) && Apart(c.deps, x, held))
    || (exists x, y :: x in Open(s.sched) && y in Open(s.sched) && TwoOutside(c, x, y, held))
  }

  lemma ApartIsOutside(c: Config, x: Id, held: set<Id>)
    requires Apart(c.deps, x, held)
    ensures x !in held && !Below(c.deps, x, held)
  {
    hide DependsOn;
  }

  /** With nothing free, the promise is the notification. */
  lemma NothingFree(c: Config, s: State, held: set<Id>)
    requires Accepted(c) && Poised(c, s, held) && Promising(c, s, held) && Free(c, s.sched, held) == {}
    ensures s.permit || NoneReady(s.sched)
  {
    hide Accepted, Poised, Free, Open, Apart, Below;
    if x :| x in Open(s.sched) && Apart(c.deps, x, held) {
      ApartIsOutside(c, x, held);
      var z := FreeUpstream(c, s, held, x);
    } else if x, y :| x in Open(s.sched) && y in Open(s.sched) && TwoOutside(c, x, y, held) {
      var z := FreeUpstream(c, s, held, x);
    }
  }

  /** Of two unrelated steps, neither is what all the free ones wait for. */
  lemma PairStays(c: Config, s: State, held: set<Id>, y: Id, x: Id, z: Id)
    requires Accepted(c) && Poised(c, s, held) && Free(c, s.sched, held) == {y}
    requires x in Open(s.sched) && z in Open(s.sched) && TwoOutside(c, x, z, held)
    ensures x != y && z != y
  {
    hide Accepted, Poised, Free, Open, Below, DependsOn;
    var a := FreeUpstream(c, s, held, x);
    var b := FreeUpstream(c, s, held, z);
  }

  lemma Through(deps: Deps, h: Id, z: Id, y: Id)
    requires DependsOn(deps, h, z) && y in DepsOf(deps, z)
    ensures DependsOn(deps, h, y)
  {
    var p :| PathBetween(deps, p, h, z);
    assert PathBetween(deps, p + [y], h, y);
  }

  /** What waits for a step that has nothing to do with the held ones has nothing to do with them either. */
  lemma NextIsApart(c: Config, t: State, held: set<Id>, y: Id, z: Id)
    requires Planned(c, t) && held <= Open(t.sched) && IsIn(t.sched, z, Ready)
    requires Apart(c.deps, y, held) && y in DepsOf(c.deps, z)
    ensures Apart(c.deps, z, held) && z in Open(t.sched)
  {
    hide DependsOn, LoopOk, Consistent;
    LiveIsNotBelow(c, t.sched, z, held);
    DirectDependency(c.deps, z, y);
    forall h | h in held ensures !Comparable(c.deps, z, h) {
      assert !Comparable(c.deps, y, h);
      if DependsOn(c.deps, h, z) { Through(c.deps, h, z, y); }
    }
  }

  /** The promise outlasts a wave. */
  lemma PromiseStays(c: Config, s: State, t: State, held: set<Id>, y: Id)
    requires Accepted(c) && Poised(c, s, held) && Promising(c, s, held) && held <= Open(t.sched)
    requires Reached(c, t) && Advanced(s.sched, t.sched, Free(c, s.sched, held)) && y in Free(c, s.sched, held)
    requires Open(t.sched) == Open(s.sched) - Free(c, s.sched, held)
    requires t.permit <==> s.permit || Free(c, s.sched, held) != {y}
    ensures Promising(c, t, held)
  {
    hide Accepted, Reached, AllBusy, Held, Free, Open, Below, DependsOn, Advanced, Apart, NoneDead, StepsIn;
    if !t.permit {
      assert !NoneReady(s.sched) by { FreeIs(c, s, held); }
      if x, z :| x in Open(s.sched) && z in Open(s.sched) && TwoOutside(c, x, z, held) {
        PairStays(c, s, held, y, x, z);
      } else {
        var x :| x in Open(s.sched) && Apart(c.deps, x, held);
        if x == y && !NoneReady(t.sched) {
          var z :| IsIn(t.sched, z, Ready);
          ReachedSafe(c, s);
          ReachedSafe(c, t);
          NewlyReady(c, s, t, y, z);
          NextIsApart(c, t, held, y, z);
        }
      }
    }
  }

  /** One wave after another, until the loop waits with nothing to launch and the held steps running. */
  lemma {:induction false} StallWith(c: Config, s: State, held: set<Id>) returns (t: State)
    requires Accepted(c) && Holdable(c, held) && |held| < c.capacity && held <= Open(s.sched)
    requires Poised(c, s, held) && Promising(c, s, held)
    ensures Reached(c, t) && t.pc.WaitIdle?
    decreases |Open(s.sched)|
  {
    hide Accepted, Reached, AllBusy, Held, Free, Open, Antichain, Below, Advanced, Promising, NoneRefused, NoneDead,
      Refused, StepsIn, NoneReady;
    var z :| z in held;
    if NoneReady(s.sched) {
      t := GoIdle(c, s, z);
    } else {
      HeldNoneRefused(c, s, held);
      if Free(c, s.sched, held) == {} {
        NothingFree(c, s, held);
        AllReadyHeld(c, s, held);
        t := StallNow(c, s, held, z);
      } else {
        var y := LastFree(c, s, held);
        var u := WaveTurn(c, s, held, y);
        WaveKeeps(c, s, u, held);
        HeldStaysOpen(c, s, held);
        PromiseStays(c, s, u, held, y);
        t := StallWith(c, u, held);
      }
    }
  }

  lemma HeldNoneRefused(c: Config, s: State, held: set<Id>)
    requires Reached(c, s) && Holdable(c, held) && held <= Open(s.sched)
    ensures NoneRefused(c, s.sched)
  {
    hide Reached, Holdable, Open, NoneRefused, Safe, Planned, AllTracked, AllAgreed;
    ReachedSafe(c, s);
    HeldOpenNoneRefused(c, s, held);
  }

  lemma AllReadyHeld(c: Config, s: State, held: set<Id>)
    requires Reached(c, s) && Free(c, s.sched, held) == {} && !NoneReady(s.sched)
    ensures Queue(c, s.sched) != [] && LastIn(Queue(c, s.sched), held)
  {
    hide Safe, Planned, Leads, AllTracked, AllAgreed, Queue;
    ReachedSafe(c, s);
    QueueIs(c, s);
    var q := Queue(c, s.sched);
    assert q != [] && q[|q| - 1] in Elements(q);
    forall x | x in Elements(q) ensures x in held {
      assert x !in Free(c, s.sched, held);
    }
  }

  lemma HeldStaysOpen(c: Config, s: State, held: set<Id>)
    requires held <= Open(s.sched)
    ensures held <= Open(s.sched) - Free(c, s.sched, held)
  {
    hide Open, Queue;
  }

  /** A turn after which nothing is ready and a kept step is running. */
  lemma StallNow(c: Config, s: State, kept: set<Id>, z: Id) returns (t: State)
    requires Accepted(c) && Calm(c, s) && NoneRefused(c, s.sched) && Held(s.tasks) <= kept && |kept| <= c.capacity
    requires Queue(c, s.sched) != [] && LastIn(Queue(c, s.sched), kept) && z in kept && z in Open(s.sched)
    requires s.permit || Free(c, s.sched, kept) != {}
    requires Free(c, s.sched, kept) == {} || forall x :: x in Open(s.sched) ==> IsIn(s.sched, x, Ready)
    ensures Reached(c, t) && t.pc.WaitIdle?
  {
    hide Accepted, Reached, AllBusy, Held, Open, Advanced, NoneDead, NoneRefused, Queue, NoneReady;
    var u := KeepTurn(c, s, kept);
    TurnCloses(s.sched, u.sched, Free(c, s.sched, kept));
    if Free(c, s.sched, kept) != {} {
      NonePending(s.sched, u.sched, Free(c, s.sched, kept));
    }
    t := GoIdle(c, u, z);
  }

  lemma NonePending(s: Sched, t: Sched, done: set<Id>)
    requires Advanced(s, t, done) && forall x :: x in Open(s) ==> IsIn(s, x, Ready)
    ensures NoneReady(t)
  {
    forall x | x in t.states ensures t.states[x] != Ready {
      assert x in s.states && (x in Open(s) ==> IsIn(s, x, Ready));
    }
  }

  lemma InitCalm(c: Config)
    requires Accepted(c)
    ensures Calm(c, Init(c)) && !Init(c).permit && Open(Init(c).sched) == Elements(c.steps)
    ensures Held(Init(c).tasks) == {} && StepsIn(Init(c).sched, Running) == {}
  {
    hide Accepted, Safe, Leads;
    InitSafe(c);
    LeadsHere(c, Init(c));
  }

  /** Some run waits with nothing to launch. */
  ghost predicate Stalls(c: Config) {
    exists states, actions :: Run(c, states, actions) && !NeverIdle(states)
  }

  /** The orchestration can be stalled with at most `room` steps held. */
  ghost predicate StallableIn(c: Config, room: nat) {
    exists held :: Holdable(c, held) && Distracted(c, held) && |held| <= room
  }

  /** If the pool has room for one step besides the held ones, some run stalls. */
  lemma SomeRunStalls(c: Config)
    requires Accepted(c) && c.capacity > 0 && StallableIn(c, c.capacity - 1)
    ensures Stalls(c)
  {
    hide Accepted, Calm, Reached, Init, Open, Held, StepsIn, Stalls;
    var held :| Holdable(c, held) && Distracted(c, held) && |held| <= c.capacity - 1;
    InitCalm(c);
    var s := Init(c);
    assert held <= Open(s.sched) && Poised(c, s, held);
    assert Promising(c, s, held) by { DistractedIsPromising(c, s, held); }
    hide Holdable, Promising, Poised, Distracted;
    var t := StallWith(c, s, held);
    StallIsRun(c, t);
  }

  lemma DistractedIsPromising(c: Config, s: State, held: set<Id>)
    requires Distracted(c, held) && Open(s.sched) == Elements(c.steps)
    ensures Promising(c, s, held)
  {
    hide Open, Apart, Below, Comparable, NoneReady;
    if x :| x in c.steps && Apart(c.deps, x, held) {
      assert x in Open(s.sched);
    } else {
      var x, y :| TwoOutside(c, x, y, held);
      assert x in Open(s.sched) && y in Open(s.sched);
    }
  }

  lemma StallIsRun(c: Config, t: State)
    requires Reached(c, t) && t.pc.WaitIdle?
    ensures Stalls(c)
  {
    hide Safe, Init, Trace, Leads;
    var states, actions := LeadsBy(c, Init(c), t);
    assert Run(c, states, actions);
    assert states[|states| - 1].pc.WaitIdle?;
  }

  // ----- what has to have happened for a stall

  ghost predicate Unrelated(c: Config, s: Sched, x: Id, y: Id) {
    IsIn(s, x, Completed) && IsIn(s, y, Completed) && !Comparable(c.deps, x, y)
  }

  /** Two steps have completed that have nothing to do with one another. */
  ghost predicate Spread(c: Config, s: Sched) {
    exists x, y :: Unrelated(c, s, x, y)
  }

  ghost predicate BesideAll(c: Config, s: Sched, w: Id) {
    IsIn(s, w, Completed) && forall z :: IsIn(s, z, Running) ==> !Comparable(c.deps, w, z)
  }

  /** A step has completed that has nothing to do with any running one. */
  ghost predicate Beside(c: Config, s: Sched) {
    exists w :: BesideAll(c, s, w)
  }

  ghost predicate Clear(c: Config, s: Sched) {
    NoneRunning(s) || Beside(c, s)
  }

  /** Whoever has yet to notify, or has notified without being heard, is active. */
  ghost predicate Settled(s: State) {
    MonitorsAreTimely(s) && PermitIsTimely(s)
  }

  ghost predicate PermitBesides(s: State, x: Id) {
    s.permit ==> exists y :: y != x && Active(s, y) && HasNotified(s.tasks, y)
  }

  ghost predicate OneUnrelated(c: Config, s: Sched, x: Id) {
    exists y :: IsIn(s, y, Completed) && !Comparable(c.deps, y, x)
  }

  /** `x` has woken the loop and is still to be looked at. */
  ghost predicate Waker(c: Config, s: State, q: seq<Id>, x: Id) {
    && x in q && IsIn(s.sched, x, Running) && HasNotified(s.tasks, x)
    && ((MonitorsAreTimely(s) && PermitBesides(s, x)) || OneUnrelated(c, s.sched, x))
  }

  ghost predicate Scanning(c: Config, s: State, q: seq<Id>) {
    (Clear(c, s.sched) && Settled(s)) || exists x :: Waker(c, s, q, x)
  }

  ghost predicate InTime(c: Config, s: State) {
    match s.pc
    case Scan(q) => Scanning(c, s, q)
    case Read(q) => Scanning(c, s, q)
    case Top => Settled(s) && Clear(c, s.sched)
    case WaitIdle => false
    case Finished => true
    case Ended => true
    case _ => Settled(s)
  }

  /** Unless something has failed, notifications come in time until two unrelated steps have completed. */
  ghost predicate Timely(c: Config, s: State) {
    s.tally.failed > 0 || Spread(c, s.sched) || (Stalled(s) && Beside(c, s.sched)) || InTime(c, s)
  }

  lemma RunningApart(c: Config, s: State, x: Id, y: Id)
    requires Planned(c, s) && IsIn(s.sched, x, Running) && IsIn(s.sched, y, Running) && x != y
    ensures !Comparable(c.deps, x, y)
  {
    hide Consistent, LoopOk, Comparable;
    if Comparable(c.deps, x, y) { OnlyOneLive(c, s.sched, x, y); }
  }

  /** The same steps are active, and whoever had notified still has. */
  ghost predicate Onwards(s: State, t: State) {
    && (forall x :: Active(t, x) <==> Active(s, x))
    && (forall x :: HasNotified(s.tasks, x) ==> HasNotified(t.tasks, x))
  }

  lemma OthersKeepTimely(c: Config, s: State, a: Action)
    requires Timely(c, s) && Enabled(c, s, a) && !a.Loop? && !a.SpawnFails?
    ensures Timely(c, Apply(c, s, a))
  {
    hide IsIn, Comparable, Spread, Beside, AllTerminal, NoneReady, Clear, OneUnrelated;
    var t := Apply(c, s, a);
    assert t.sched == s.sched && t.pc == s.pc && t.tally == s.tally;
    if MonitorsAreTimely(s) { OthersKeepMonitors(c, s, a); }
    if Settled(s) { OthersKeepPermit(c, s, a); }
    if s.pc.Scan? || s.pc.Read? {
      forall x | Waker(c, s, s.pc.queue, x) ensures Waker(c, t, s.pc.queue, x) { OthersKeepWaker(c, s, a, x); }
    }
    hide Settled, Waker;
  }

  lemma OthersMoveMonitors(c: Config, s: State, a: Action, x: Id)
    requires Enabled(c, s, a) && !a.Loop? && !a.SpawnFails?
    ensures var k, t := s.tasks, Apply(c, s, a).tasks;
            && (x in t.monitors <==> x in k.monitors)
            && (HasNotified(k, x) ==> HasNotified(t, x))
  {
    hide Write;
  }

  lemma OthersKeepMonitors(c: Config, s: State, a: Action)
    requires MonitorsAreTimely(s) && Enabled(c, s, a) && !a.Loop? && !a.SpawnFails?
    ensures MonitorsAreTimely(Apply(c, s, a)) && Onwards(s, Apply(c, s, a))
  {
    hide IsIn, HasNotified;
    var t := Apply(c, s, a);
    assert t.sched == s.sched && t.pc == s.pc;
    forall x ensures (x in t.tasks.monitors <==> x in s.tasks.monitors)
                     && (HasNotified(s.tasks, x) ==> HasNotified(t.tasks, x))
    {
      OthersMoveMonitors(c, s, a, x);
    }
    hide Apply, Enabled;
  }

  lemma OthersKeepPermit(c: Config, s: State, a: Action)
    requires Settled(s) && Enabled(c, s, a) && !a.Loop? && !a.SpawnFails?
    ensures PermitIsTimely(Apply(c, s, a))
  {
    hide IsIn;
    OthersKeepMonitors(c, s, a);
    var t := Apply(c, s, a);
    if a.Notify? {
      assert !HasNotified(s.tasks, a.id) && Active(s, a.id);
      assert Active(t, a.id) && HasNotified(t.tasks, a.id);
    }
  }

  lemma OthersKeepWaker(c: Config, s: State, a: Action, x: Id)
    requires Enabled(c, s, a) && !a.Loop? && !a.SpawnFails? && (s.pc.Scan? || s.pc.Read?)
    requires Waker(c, s, s.pc.queue, x)
    ensures Waker(c, Apply(c, s, a), s.pc.queue, x)
  {
    hide IsIn, OneUnrelated;
    var t := Apply(c, s, a);
    if MonitorsAreTimely(s) && PermitBesides(s, x) {
      OthersKeepMonitors(c, s, a);
      if a.Notify? {
        assert a.id != x && !HasNotified(s.tasks, a.id) && Active(s, a.id);
        assert Active(t, a.id) && HasNotified(t.tasks, a.id);
      }
    }
  }

  lemma LoopKeepsTimely(c: Config, s: State)
    requires Accepted(c) && Safe(c, s) && Timely(c, s) && Enabled(c, s, Loop)
    ensures Timely(c, LoopStep(c, s))
  {
    hide Accepted, Planned, AllTracked, AllAgreed, Logged, Prompted, LoopStep, Timely;
    match s.pc
    case Top => TopKeepsTimely(c, s);
    case WaitIdle => IdleKeepsTimely(c, s);
    case Launched => LaunchedKeepsTimely(c, s);
    case WaitStep => WaitKeepsTimely(c, s);
    case Scan(_) => ScanKeepsTimely(c, s);
    case Read(_) => ReadKeepsTimely(c, s);
    case Finished => FinishKeepsTimely(c, s);
    case _ => LaunchKeepsTimely(c, s);
  }

  lemma TopKeepsTimely(c: Config, s: State)
    requires Accepted(c) && Planned(c, s) && Timely(c, s) && s.pc.Top?
    ensures Timely(c, LoopStep(c, s))
  {
    hide Known, Distinct, Acyclic, AllTerminal, Spread, Beside, LoopOk, Consistent, Settled, NoneRunning, Stalled;
    var t := LoopStep(c, s);
    assert t.sched == s.sched && t.tally == s.tally && t.tasks == s.tasks && t.permit == s.permit;
    TopGoes(c, s);
    if Stalled(s) { StalledStays(c, s, Loop); }
    if Settled(s) { SettledStays(s, t); }
    hide LoopStep;
  }

  lemma SettledStays(s: State, t: State)
    requires Settled(s) && t.sched == s.sched && t.tasks == s.tasks && t.permit == s.permit
    requires !s.pc.Watched? && !t.pc.Watched?
    ensures Settled(t)
  {
    forall x ensures Active(t, x) == Active(s, x) {}
  }

  /** With nothing running the loop launches or finishes; with something running it may stall. */
  lemma TopGoes(c: Config, s: State)
    requires Accepted(c) && Planned(c, s) && s.pc.Top?
    ensures var t := LoopStep(c, s); t.pc.Launch? || t.pc.Finished? || (Stalled(t) && !NoneRunning(t.sched))
  {
    hide Consistent, Known, Distinct, Acyclic, AllTerminal, LoopOk;
    SelectIs(c.steps, s.sched.states, Ready);
    var t, ready := LoopStep(c, s), Select(c.steps, s.sched.states, Ready);
    hide Select;
    if ready == [] {
      forall x ensures !IsIn(s.sched, x, Ready) {
        if x in s.sched.states { assert x in Elements(c.steps); }
      }
      if NoneRunning(s.sched) {
        forall x | x in s.sched.states ensures s.sched.states[x] != Ready && s.sched.states[x] != Running {
          assert !IsIn(s.sched, x, Ready) && !IsIn(s.sched, x, Running);
        }
        NeverStuck(c.deps, s.sched);
      }
    }
  }

  lemma IdleKeepsTimely(c: Config, s: State)
    requires Timely(c, s) && s.pc.WaitIdle? && s.permit
    ensures Timely(c, LoopStep(c, s))
  {
    hide Spread, Beside;
    if Stalled(s) { StalledStays(c, s, Loop); }
  }

  lemma FinishKeepsTimely(c: Config, s: State)
    requires s.pc.Finished?
    ensures Timely(c, LoopStep(c, s))
  {
  }

  lemma SpreadStays(c: Config, s: Sched, t: Sched)
    requires Spread(c, s) && forall x :: IsIn(s, x, Completed) ==> IsIn(t, x, Completed)
    ensures Spread(c, t)
  {
    hide Comparable;
    var x, y :| Unrelated(c, s, x, y);
    assert Unrelated(c, t, x, y);
  }

  lemma LaunchKeepsTimely(c: Config, s: State)
    requires Planned(c, s) && AllAgreed(s) && Timely(c, s) && Enabled(c, s, Loop)
    requires s.pc.Launch? || s.pc.Mapped? || s.pc.Entered? || s.pc.Marked? || s.pc.Watched? || s.pc.Ended?
    ensures Timely(c, LoopStep(c, s))
  {
    hide Spread, Beside, Settled, Planned, AllAgreed, Prompt, Spawnable;
    var t := LoopStep(c, s);
    assert t.tally.failed == s.tally.failed;
    if Spread(c, s.sched) {
      assert forall x :: IsIn(s.sched, x, Completed) ==> IsIn(t.sched, x, Completed) by { LaunchKeepsCompleted(c, s); }
      SpreadStays(c, s.sched, t.sched);
    } else if Settled(s) {
      LaunchKeepsSettled(c, s);
    }
    hide LoopStep;
  }

  lemma LaunchKeepsCompleted(c: Config, s: State)
    requires Planned(c, s)
    requires s.pc.Launch? || s.pc.Mapped? || s.pc.Entered? || s.pc.Marked? || s.pc.Watched? || s.pc.Ended?
    ensures forall x :: IsIn(s.sched, x, Completed) ==> IsIn(LoopStep(c, s).sched, x, Completed)
  {
    hide Consistent, Prompt, Distinct;
    if s.pc.Watched? {
      var q := s.pc.queue;
      assert q[0] in q && IsIn(s.sched, q[0], Ready);
    }
  }

  lemma LaunchKeepsSettled(c: Config, s: State)
    requires Planned(c, s) && AllAgreed(s) && Settled(s)
    requires s.pc.Launch? || s.pc.Mapped? || s.pc.Entered? || s.pc.Marked? || s.pc.Watched?
    ensures Settled(LoopStep(c, s))
  {
    hide Consistent, Distinct, Prompt;
    var q, t := s.pc.queue, LoopStep(c, s);
    if q != [] {
      assert q[0] in q && IsIn(s.sched, q[0], Ready);
      assert Agreed(s.tasks, s.sched, s.pc, q[0]);
    }
    forall x ensures Active(s, x) ==> Active(t, x) {}
    forall x ensures HasNotified(s.tasks, x) ==> HasNotified(t.tasks, x) {}
  }

  lemma LaunchedKeepsTimely(c: Config, s: State)
    requires Planned(c, s) && Timely(c, s) && s.pc.Launched?
    ensures Timely(c, LoopStep(c, s))
  {
    hide Consistent, Spread, Beside;
    SelectIs(c.steps, s.sched.states, Running);
    var t, running := LoopStep(c, s), Select(c.steps, s.sched.states, Running);
    hide Select;
    forall x ensures Active(s, x) == Active(t, x) && (IsIn(s.sched, x, Running) ==> x in running) {
      if IsIn(s.sched, x, Running) { assert x in Elements(c.steps); }
    }
  }

  lemma WaitKeepsTimely(c: Config, s: State)
    requires Planned(c, s) && Timely(c, s) && s.pc.WaitStep? && s.permit
    ensures Timely(c, LoopStep(c, s))
  {
    hide Consistent, Spread, Beside;
    SelectIs(c.steps, s.sched.states, Running);
    var t, running := LoopStep(c, s), Select(c.steps, s.sched.states, Running);
    hide Select;
    forall x ensures Active(s, x) == Active(t, x) {}
    if Settled(s) {
      var x :| Active(s, x) && HasNotified(s.tasks, x);
      assert x in Elements(c.steps) && x in running;
      assert Waker(c, t, running, x);
    }
  }

  lemma ScanKeepsTimely(c: Config, s: State)
    requires Planned(c, s) && AllTracked(s) && Timely(c, s) && s.pc.Scan?
    ensures Timely(c, LoopStep(c, s))
  {
    hide Consistent, Distinct, Spread, Beside, OneUnrelated;
    var q, t := s.pc.queue, LoopStep(c, s);
    assert t.sched == s.sched && t.tasks == s.tasks && t.tally == s.tally && t.permit == s.permit;
    forall x ensures Active(s, x) == Active(t, x) {}
    if x :| Waker(c, s, q, x) {
      assert Tracked(s.tasks, s.pc, x);
      assert q == [q[0]] + q[1..];
      assert Waker(c, t, t.pc.queue, x);
    }
  }

  lemma ReadKeepsTimely(c: Config, s: State)
    requires Planned(c, s) && AllTracked(s) && AllAgreed(s) && Timely(c, s) && s.pc.Read?
    ensures Timely(c, LoopStep(c, s))
  {
    hide Timely, Consistent, Failing, Completing, BlockedBy;
    var h, t := s.pc.queue[0], LoopStep(c, s);
    ReadSettles(c, s);
    assert t.tally.failed > 0 || CompletedNow(s.sched, t.sched, h) by { ReadOutcome(c, s); }
    hide LoopStep, AllTracked, AllAgreed;
    if t.tally.failed > 0 {
      FailedIsTimely(c, t);
    } else {
      assert s.tally.failed == 0 by { FailuresStay(c, s); }
      CompletionIsTimely(c, s, t, h);
    }
  }

  lemma FailedIsTimely(c: Config, s: State)
    requires s.tally.failed > 0
    ensures Timely(c, s)
  {
  }

  lemma FailuresStay(c: Config, s: State)
    requires s.pc.Read?
    ensures LoopStep(c, s).tally.failed >= s.tally.failed
  {
    hide Failing, Completing, BlockedBy;
  }

  /** `h` was running and has completed, and what had completed still has. */
  ghost predicate CompletedNow(s: Sched, t: Sched, h: Id) {
    && IsIn(s, h, Running) && IsIn(t, h, Completed)
    && forall x :: IsIn(s, x, Completed) ==> IsIn(t, x, Completed)
  }

  lemma ReadOutcome(c: Config, s: State)
    requires Planned(c, s) && AllTracked(s) && AllAgreed(s) && s.pc.Read?
    ensures var t := LoopStep(c, s); t.tally.failed > 0 || CompletedNow(s.sched, t.sched, s.pc.queue[0])
  {
    hide Consistent, Distinct, Failing, BlockedBy, Freed, Done;
    var h := s.pc.queue[0];
    assert h in s.pc.queue && IsIn(s.sched, h, Running);
    assert Tracked(s.tasks, s.pc, h) && Agreed(s.tasks, s.sched, s.pc, h);
    CompletingMoves(c.deps, s.sched, h);
    hide Completing;
  }

  lemma CompletionIsTimely(c: Config, s: State, t: State, h: Id)
    requires Planned(c, s) && Timely(c, s) && s.pc.Read? && s.pc.queue != [] && h == s.pc.queue[0] && s.tally.failed == 0
    requires CompletedNow(s.sched, t.sched, h) && t.pc == Scan(s.pc.queue[1..])
    requires t.tasks == s.tasks && t.permit == s.permit
    requires forall x :: IsIn(t.sched, x, Running) <==> IsIn(s.sched, x, Running) && x != h
    ensures Timely(c, t)
  {
    hide Planned, Comparable, MonitorsAreTimely, PermitIsTimely;
    if Spread(c, s.sched) {
      var x, y :| Unrelated(c, s.sched, x, y);
      assert Unrelated(c, t.sched, x, y);
    } else if Clear(c, s.sched) {
      assert !NoneRunning(s.sched);
      var w :| BesideAll(c, s.sched, w);
      assert Unrelated(c, t.sched, w, h);
    } else {
      var x :| Waker(c, s, s.pc.queue, x);
      if x == h { WakerCompletes(c, s, t, h); } else { OtherCompletes(c, s, t, h, x); }
    }
  }

  lemma WakerCompletes(c: Config, s: State, t: State, h: Id)
    requires Planned(c, s) && s.pc.Read? && CompletedNow(s.sched, t.sched, h) && Waker(c, s, s.pc.queue, h)
    requires t.pc.Scan? && t.tasks == s.tasks && t.permit == s.permit
    requires forall x :: IsIn(t.sched, x, Running) <==> IsIn(s.sched, x, Running) && x != h
    ensures Timely(c, t)
  {
    hide Consistent, LoopOk, Comparable;
    if OneUnrelated(c, s.sched, h) {
      var y :| IsIn(s.sched, y, Completed) && !Comparable(c.deps, y, h);
      assert Unrelated(c, t.sched, y, h);
    } else {
      forall z | IsIn(t.sched, z, Running) ensures !Comparable(c.deps, h, z) { RunningApart(c, s, h, z); }
      assert BesideAll(c, t.sched, h);
      forall x ensures Active(t, x) <==> Active(s, x) && x != h {}
      assert Settled(t);
    }
  }

  lemma OtherCompletes(c: Config, s: State, t: State, h: Id, x: Id)
    requires Planned(c, s) && s.pc.Read? && s.pc.queue != [] && h == s.pc.queue[0] && CompletedNow(s.sched, t.sched, h)
    requires Waker(c, s, s.pc.queue, x) && x != h && t.pc == Scan(s.pc.queue[1..]) && t.tasks == s.tasks
    requires forall x :: IsIn(t.sched, x, Running) <==> IsIn(s.sched, x, Running) && x != h
    ensures Timely(c, t)
  {
    hide Planned, Comparable, MonitorsAreTimely, PermitBesides;
    RunningApart(c, s, h, x);
    assert s.pc.queue == [h] + s.pc.queue[1..];
    assert OneUnrelated(c, t.sched, x);
    assert Waker(c, t, t.pc.queue, x);
  }

  lemma StepKeepsTimely(c: Config, s: State, a: Action)
    requires Accepted(c) && Safe(c, s) && Timely(c, s) && Enabled(c, s, a)
    ensures Timely(c, Apply(c, s, a))
  {
    hide Accepted, Planned, AllTracked, AllAgreed, Logged, Prompted, Timely, LoopStep, Failing, BlockedBy;
    match a
    case Loop => LoopKeepsTimely(c, s);
    case SpawnFails(reason) => FailedIsTimely(c, Apply(c, s, a));
    case _ => OthersKeepTimely(c, s, a);
  }

  lemma {:induction false} RunsAreTimely(c: Config, states: seq<State>, actions: seq<Action>, i: nat)
    requires Accepted(c) && Run(c, states, actions) && i < |states|
    ensures Timely(c, states[i])
  {
    hide Accepted, Safe, Enabled, Apply, Timely, Init;
    if i == 0 {
      InitTimely(c);
    } else {
      RunsAreTimely(c, states, actions, i - 1);
      RunsAreSafe(c, states, actions, i - 1);
      assert Enabled(c, states[i - 1], actions[i - 1]);
      StepKeepsTimely(c, states[i - 1], actions[i - 1]);
    }
  }

  lemma InitTimely(c: Config)
    ensures Timely(c, Init(c))
  {
  }

  // ----- a refused step is never launched

  /** The loop has not got past asking for a refused step to be spawned. */
  ghost predicate NeverLaunched(c: Config, s: State) {
    forall x :: Refused(c, x) ==>
      && !IsIn(s.sched, x, Running) && !IsIn(s.sched, x, Completed)
      && !BeingEntered(s.pc, x) && !BeingAnnounced(s.pc, x)
  }

  lemma ReadKeepsUnlaunched(c: Config, s: State)
    requires Planned(c, s) && NeverLaunched(c, s) && s.pc.Read? && s.pc.queue != []
    ensures NeverLaunched(c, ReadStep(c, s, s.pc.queue))
  {
    hide Consistent, Failing, BlockedBy, Completing, Refused, Log;
    var q := s.pc.queue;
    assert q[0] in q && IsIn(s.sched, q[0], Running);
    OutcomeSameTries(c.deps, s.sched, q[0]);
  }

  lemma LaunchKeepsUnlaunched(c: Config, s: State)
    requires NeverLaunched(c, s) && LoopEnabled(c, s)
    requires s.pc.Mapped? || s.pc.Entered? || s.pc.Marked? || s.pc.Watched?
    ensures NeverLaunched(c, LoopStep(c, s))
  {
    hide Select, AllTerminal, ReadStep, Held, LaunchStep, Log, AfterTop, AfterScan;
  }

  lemma LoopKeepsUnlaunched(c: Config, s: State)
    requires Planned(c, s) && NeverLaunched(c, s) && LoopEnabled(c, s)
    ensures NeverLaunched(c, LoopStep(c, s))
  {
    hide Planned, Select, AllTerminal, ReadStep, Spawnable, LaunchStep, Log, Refused, IsIn;
    if s.pc.Read? && s.pc.queue != [] {
      ReadKeepsUnlaunched(c, s);
    } else if s.pc.Mapped? || s.pc.Entered? || s.pc.Marked? || s.pc.Watched? {
      LaunchKeepsUnlaunched(c, s);
    }
  }

  lemma RefusalKeepsUnlaunched(c: Config, s: State, reason: string)
    requires Planned(c, s) && NeverLaunched(c, s) && s.pc.Mapped? && s.pc.queue != []
    ensures NeverLaunched(c, SpawnFailed(c, s, s.pc.queue, reason))
  {
    hide Consistent, Failing, Log, Refused;
    var q := s.pc.queue;
    assert q[0] in q && IsIn(s.sched, q[0], Ready);
    FailureRunsNone(c, s.sched, q[0]);
  }

  lemma StepKeepsUnlaunched(c: Config, s: State, a: Action)
    requires Planned(c, s) && NeverLaunched(c, s) && Enabled(c, s, a)
    ensures NeverLaunched(c, Apply(c, s, a))
  {
    hide Planned, LoopStep, SpawnFailed, TaskStep, Refused, IsIn, BeingEntered, BeingAnnounced;
    match a
    case Loop => LoopKeepsUnlaunched(c, s);
    case SpawnFails(reason) => RefusalKeepsUnlaunched(c, s, reason);
    case _ =>
  }

  lemma FailureRunsNone(c: Config, s: Sched, id: Id)
    requires Consistent(c.deps, s) && IsIn(s, id, Ready)
    ensures var t := Failing(c.deps, s, id);
            forall x :: IsIn(t, x, Running) || IsIn(t, x, Completed) ==> IsIn(s, x, Running) || IsIn(s, x, Completed)
  {
    hide Consistent, Downstream, Done;
    FailingMoves(c.deps, s, id);
    hide Failing;
  }

  lemma {:induction false} RefusedIsNeverLaunched(c: Config, states: seq<State>, actions: seq<Action>, i: nat)
    requires Accepted(c) && Run(c, states, actions) && i < |states|
    ensures NeverLaunched(c, states[i])
  {
    hide Accepted, Safe, Enabled, Apply;
    if i > 0 {
      hide NeverLaunched, Init;
      RefusedIsNeverLaunched(c, states, actions, i - 1);
      RunsAreSafe(c, states, actions, i - 1);
      assert Enabled(c, states[i - 1], actions[i - 1]);
      SafeIsPlanned(c, states[i - 1]);
      StepKeepsUnlaunched(c, states[i - 1], actions[i - 1]);
    }
  }

  lemma SafeIsPlanned(c: Config, s: State)
    requires Safe(c, s)
    ensures Planned(c, s)
  {
  }

  // ----- the exact condition

  lemma NoFailuresNoneDead(c: Config, s: State)
    requires Acyclic(c.deps) && Planned(c, s) && Logged(c, s) && s.tally.failed == 0
    ensures NoneDead(s.sched)
  {
    hide Acyclic, Consistent, LoopOk, Lawful, Kept, StartedIn, CompletedIn, FailedIn, BlockedIn;
    assert |StepsIn(s.sched, Failed)| == 0;
    hide Logged;
    assert StepsIn(s.sched, Failed) == {};
    BlockedNeedsFailure(c.deps, s.sched);
    forall x | x in s.sched.states ensures !Dead(s.sched.states[x]) {
      assert x !in StepsIn(s.sched, Failed) && x !in StepsIn(s.sched, Blocked);
    }
  }

  lemma SomethingRuns(c: Config, s: State)
    requires Accepted(c) && Planned(c, s) && NoneDead(s.sched) && Stalled(s)
    ensures StepsIn(s.sched, Running) != {}
  {
    hide Accepted, Planned, NoneDead;
    var y :| y in s.sched.states && !Terminal(s.sched.states[y]);
    assert y in Open(s.sched);
    hide Stalled, Open, StepsIn;
    var z := StallLive(c, s, y);
  }

  lemma RefusedIsBelow(c: Config, s: State, x: Id)
    requires Accepted(c) && Planned(c, s) && NoneDead(s.sched) && NeverLaunched(c, s) && Stalled(s) && Refused(c, x)
    ensures Below(c.deps, x, StepsIn(s.sched, Running))
  {
    hide Accepted, Planned, NoneDead, NeverLaunched, Stalled, Refused, Open, StepsIn, DependsOn;
    RefusedIsOpen(c, s, x);
    var w := StallLive(c, s, x);
  }

  lemma RunningAreSteps(c: Config, s: State)
    requires Planned(c, s)
    ensures StepsIn(s.sched, Running) <= Elements(c.steps)
  {
    hide Consistent, LoopOk;
  }

  /** The running steps of a stall can be held. */
  lemma StallHolds(c: Config, s: State)
    requires Accepted(c) && Planned(c, s) && NoneDead(s.sched) && NeverLaunched(c, s) && Stalled(s)
    ensures Holdable(c, StepsIn(s.sched, Running))
  {
    hide Accepted, Planned, NoneDead, NeverLaunched, Stalled, Refused, DependsOn, Below;
    var held := StepsIn(s.sched, Running);
    SomethingRuns(c, s);
    RunningAreSteps(c, s);
    forall x, y | x in held && y in held ensures !DependsOn(c.deps, x, y) { RunningIndependent(c, s, x, y); }
    forall x | Refused(c, x) ensures Below(c.deps, x, held) { RefusedIsBelow(c, s, x); }
  }

  lemma StallLive(c: Config, s: State, y: Id) returns (x: Id)
    requires Accepted(c) && Planned(c, s) && NoneDead(s.sched) && Stalled(s) && y in Open(s.sched)
    ensures x in StepsIn(s.sched, Running) && (x == y || DependsOn(c.deps, y, x))
  {
    hide Known, Distinct, Acyclic, DependsOn, LoopOk, Consistent, NoneDead, Open;
    x := LiveUpstream(c, s.sched, y);
    assert !IsIn(s.sched, x, Ready);
  }

  lemma RefusedIsOpen(c: Config, s: State, x: Id)
    requires Planned(c, s) && NeverLaunched(c, s) && Refused(c, x)
    ensures x in Open(s.sched) && x !in StepsIn(s.sched, Running)
  {
    hide Consistent, LoopOk;
    assert x in Elements(c.steps);
  }

  lemma RunningIndependent(c: Config, s: State, x: Id, y: Id)
    requires Planned(c, s) && IsIn(s.sched, x, Running) && IsIn(s.sched, y, Running)
    ensures !DependsOn(c.deps, x, y)
  {
    hide Consistent, LoopOk, DependsOn;
    if DependsOn(c.deps, x, y) { DownstreamWaits(c.deps, s.sched, y, x); }
  }

  lemma StallDistracted(c: Config, s: State)
    requires Planned(c, s) && (Spread(c, s.sched) || Beside(c, s.sched))
    ensures Distracted(c, StepsIn(s.sched, Running))
  {
    hide Consistent, LoopOk, Comparable, DependsOn;
    var held := StepsIn(s.sched, Running);
    if Spread(c, s.sched) {
      var x, y :| Unrelated(c, s.sched, x, y);
      CompletedIsOutside(c, s, x);
      CompletedIsOutside(c, s, y);
      assert TwoOutside(c, x, y, held);
    } else {
      var w :| BesideAll(c, s.sched, w);
      assert w in Elements(c.steps);
      assert Apart(c.deps, w, held);
    }
  }

  lemma CompletedIsOutside(c: Config, s: State, x: Id)
    requires Planned(c, s) && IsIn(s.sched, x, Completed)
    ensures Outside(c, x, StepsIn(s.sched, Running))
  {
    hide Consistent, LoopOk, DependsOn;
    assert x in Elements(c.steps);
    forall y | y in StepsIn(s.sched, Running) && DependsOn(c.deps, x, y) ensures false {
      DownstreamWaits(c.deps, s.sched, y, x);
    }
  }

  // ----- how many steps can be held

  /** The running steps that have not been found to have exited. */
  ghost function Unfinished(s: State): set<Id> {
    set x | x in StepsIn(s.sched, Running) && (x in s.tasks.running || !(s.pc.Scan? || s.pc.Read?) || x !in s.pc.queue)
  }

  /** Permits are never overdrawn, and from a scan to the next launch every running step had one. */
  ghost predicate Fitting(c: Config, s: State) {
    && |Held(s.tasks)| <= c.capacity
    && (s.pc.Entered? || s.pc.Marked? ==> |Held(s.tasks)| < c.capacity)
    && (s.pc.Scan? || s.pc.Read? || s.pc.Top? || s.pc.WaitIdle? ==> |Unfinished(s)| <= c.capacity)
  }

  lemma OthersShrink(c: Config, s: State, a: Action)
    requires Enabled(c, s, a) && !a.Loop? && !a.SpawnFails?
    ensures var t := Apply(c, s, a);
            t.pc == s.pc && t.sched == s.sched && Held(t.tasks) <= Held(s.tasks) && Unfinished(t) <= Unfinished(s)
  {
    hide Write, StepsIn;
  }

  lemma OthersKeepFitting(c: Config, s: State, a: Action)
    requires Fitting(c, s) && Enabled(c, s, a) && !a.Loop? && !a.SpawnFails?
    ensures Fitting(c, Apply(c, s, a))
  {
    hide Held, Unfinished, Apply, Enabled;
    OthersShrink(c, s, a);
    SubsetSize(Held(Apply(c, s, a).tasks), Held(s.tasks));
    SubsetSize(Unfinished(Apply(c, s, a)), Unfinished(s));
  }

  /** When a scan begins, a running step that is in the `running` map has a permit. */
  lemma ScanBegins(c: Config, s: State)
    requires Planned(c, s) && AllTracked(s) && AllAgreed(s) && Fitting(c, s) && (s.pc.WaitStep? || s.pc.Launched?)
    ensures Fitting(c, LoopStep(c, s))
  {
    hide Consistent, LoopOk;
    var t := LoopStep(c, s);
    SelectIs(c.steps, s.sched.states, Running);
    forall x | x in Unfinished(t) && (t.pc.Scan? || t.pc.Read?) ensures x in Held(s.tasks) {
      assert Tracked(s.tasks, s.pc, x) && Agreed(s.tasks, s.sched, s.pc, x);
      assert x in Elements(c.steps);
    }
    if t.pc.Scan? { SubsetSize(Unfinished(t), Held(s.tasks)); }
  }

  /** What has been looked at is no longer running, and nothing else starts to run. */
  lemma OutcomeRuns(c: Config, s: Sched, id: Id)
    requires Consistent(c.deps, s) && IsIn(s, id, Running)
    ensures StepsIn(Completing(c.deps, s, id), Running) <= StepsIn(s, Running) - {id}
    ensures StepsIn(Failing(c.deps, s, id), Running) <= StepsIn(s, Running) - {id}
  {
    hide Consistent, Downstream, Freed, Done, Completing, Failing;
    CompletingMoves(c.deps, s, id);
    FailingMoves(c.deps, s, id);
    RunsLess(s, Completing(c.deps, s, id), id);
    RunsLess(s, Failing(c.deps, s, id), id);
  }

  lemma RunsLess(s: Sched, t: Sched, id: Id)
    requires t.states.Keys == s.states.Keys && id in s.states && t.states[id] != Running
    requires forall x :: x in s.states && x != id && t.states[x] == Running ==> s.states[x] == Running
    ensures StepsIn(t, Running) <= StepsIn(s, Running) - {id}
  {
  }

  lemma ReadKeepsFitting(c: Config, s: State)
    requires Planned(c, s) && AllTracked(s) && AllAgreed(s) && Fitting(c, s) && s.pc.Read?
    ensures Fitting(c, LoopStep(c, s))
  {
    hide Consistent, LoopOk, Completing, Failing, BlockedBy, Held, StepsIn;
    var q, t := s.pc.queue, LoopStep(c, s);
    ReadIsRunning(c, s);
    ReadFindsResult(c, s);
    OutcomeRuns(c, s.sched, q[0]);
    assert t.tasks == s.tasks && t.pc == Scan(q[1..]);
    assert StepsIn(t.sched, Running) <= StepsIn(s.sched, Running) - {q[0]};
    assert forall x :: x in q <==> x == q[0] || x in q[1..];
    assert Unfinished(t) <= Unfinished(s);
    SubsetSize(Unfinished(t), Unfinished(s));
  }

  lemma ReadIsRunning(c: Config, s: State)
    requires Planned(c, s) && s.pc.Read?
    ensures s.pc.queue != [] && IsIn(s.sched, s.pc.queue[0], Running)
  {
    hide Consistent;
    assert s.pc.queue[0] in s.pc.queue;
  }

  lemma LaunchKeepsFitting(c: Config, s: State)
    requires Fitting(c, s) && LoopEnabled(c, s)
    requires s.pc.Launch? || s.pc.Mapped? || s.pc.Entered? || s.pc.Marked? || s.pc.Watched?
    ensures Fitting(c, LoopStep(c, s))
  {
    hide Unfinished, Select, Prompt, ReadStep;
    var t := LoopStep(c, s);
    if s.pc.Marked? && s.pc.queue != [] {
      assert Held(t.tasks) <= Held(s.tasks) + {s.pc.queue[0]};
      SubsetSize(Held(t.tasks), Held(s.tasks) + {s.pc.queue[0]});
    } else {
      assert Held(t.tasks) == Held(s.tasks);
    }
  }

  lemma ScanKeepsFitting(c: Config, s: State)
    requires Fitting(c, s) && (s.pc.Scan? || s.pc.Top? || s.pc.WaitIdle?)
    ensures Fitting(c, LoopStep(c, s))
  {
    hide Held, StepsIn, Select, AllTerminal;
    var t := LoopStep(c, s);
    assert t.tasks == s.tasks && t.sched == s.sched;
    if s.pc.Scan? && s.pc.queue != [] {
      var q := s.pc.queue;
      assert forall x :: x in q <==> x == q[0] || x in q[1..];
    }
    if t.pc.Scan? || t.pc.Read? || t.pc.Top? || t.pc.WaitIdle? {
      assert Unfinished(t) <= Unfinished(s);
      SubsetSize(Unfinished(t), Unfinished(s));
    }
  }

  lemma LoopKeepsFitting(c: Config, s: State)
    requires Planned(c, s) && AllTracked(s) && AllAgreed(s) && Fitting(c, s) && LoopEnabled(c, s)
    ensures Fitting(c, LoopStep(c, s))
  {
    hide Planned, AllTracked, AllAgreed, Held, Unfinished, Select, AfterTop, AfterScan, ReadStep, LaunchStep;
    match s.pc
    case WaitStep => ScanBegins(c, s);
    case Launched => ScanBegins(c, s);
    case Read(_) => ReadKeepsFitting(c, s);
    case Scan(_) => ScanKeepsFitting(c, s);
    case Top => ScanKeepsFitting(c, s);
    case WaitIdle => ScanKeepsFitting(c, s);
    case Finished =>
    case Ended =>
    case _ => LaunchKeepsFitting(c, s);
  }

  lemma {:induction false} RunsAreFitting(c: Config, states: seq<State>, actions: seq<Action>, i: nat)
    requires Accepted(c) && Run(c, states, actions) && i < |states|
    ensures Fitting(c, states[i])
  {
    hide Accepted, Safe, Enabled, Apply, Fitting, Planned, AllTracked, AllAgreed;
    if i == 0 {
      InitFits(c);
    } else {
      RunsAreFitting(c, states, actions, i - 1);
      RunsAreSafe(c, states, actions, i - 1);
      StepFits(c, states[i - 1], actions[i - 1]);
    }
  }

  lemma InitFits(c: Config)
    ensures Fitting(c, Init(c))
  {
    assert Held(Init(c).tasks) == {} && Unfinished(Init(c)) == {};
  }

  lemma StepFits(c: Config, s: State, a: Action)
    requires Safe(c, s) && Fitting(c, s) && Enabled(c, s, a)
    ensures Fitting(c, Apply(c, s, a))
  {
    hide Fitting, LoopStep, Planned, AllTracked, AllAgreed, Logged, Prompted;
    match a
    case Loop => LoopKeepsFitting(c, s);
    case SpawnFails(reason) => FailedSpawnFits(c, s, reason);
    case _ => OthersKeepFitting(c, s, a);
  }

  lemma FailedSpawnFits(c: Config, s: State, reason: string)
    requires Fitting(c, s) && s.pc.Mapped? && s.pc.queue != []
    ensures Fitting(c, SpawnFailed(c, s, s.pc.queue, reason))
  {
    hide Failing, BlockedBy, Unfinished;
    assert Held(SpawnFailed(c, s, s.pc.queue, reason).tasks) == Held(s.tasks);
  }

  /** An orchestration that stalls is stallable with as many steps as the pool has room for. */
  lemma StallNeeds(c: Config, states: seq<State>, actions: seq<Action>, i: nat)
    requires Accepted(c) && Run(c, states, actions) && i < |states| && states[i].pc.WaitIdle?
    ensures StallableIn(c, c.capacity)
  {
    hide Run, Known, Distinct, Acyclic, Holdable, Distracted, Spread, Beside, NeverLaunched, Planned, AllTracked, AllAgreed,
      Logged, Prompted, NoneDead, Timely, Stalled, Held, StepsIn;
    var s := states[i];
    RunsAreSafe(c, states, actions, i);
    RunsAreTimely(c, states, actions, i);
    RunsAreFitting(c, states, actions, i);
    assert Unfinished(s) == StepsIn(s.sched, Running);
    RefusedIsNeverLaunched(c, states, actions, i);
    IdleIsForever(c, states, actions, i, i);
    IdleIsSpread(c, s);
    NoFailuresNoneDead(c, s);
    StallHolds(c, s);
    StallDistracted(c, s);
  }

  lemma IdleIsSpread(c: Config, s: State)
    requires Timely(c, s) && s.pc.WaitIdle? && Stalled(s)
    ensures (Spread(c, s.sched) || Beside(c, s.sched)) && s.tally.failed == 0
  {
    hide Spread, Beside;
  }

  lemma StalledRun(c: Config)
    requires Accepted(c) && Stalls(c)
    ensures StallableIn(c, c.capacity)
  {
    hide Accepted, Run, StallableIn;
    var states: seq<State>, actions :| Run(c, states, actions) && !NeverIdle(states);
    var i :| 0 <= i < |states| && states[i].pc.WaitIdle?;
    StallNeeds(c, states, actions, i);
  }

  /** The pool has room for every step at once. */
  predicate Roomy(c: Config) {
    |c.steps| <= c.capacity
  }

  /** Something that is not held wakes the loop, so not every step is held. */
  lemma SomeNotHeld(c: Config, held: set<Id>) returns (x: Id)
    requires Distracted(c, held)
    ensures x in c.steps && x !in held
  {
    hide Below, DependsOn, Comparable, Apart;
    if w :| w in c.steps && Apart(c.deps, w, held) {
      ApartIsOutside(c, w, held);
      x := w;
    } else {
      var v, w :| TwoOutside(c, v, w, held);
      x := v;
    }
  }

  lemma NotAllAreHeld(c: Config, held: set<Id>)
    requires Accepted(c) && held <= Elements(c.steps) && Distracted(c, held)
    ensures |held| < |c.steps|
  {
    hide Known, Acyclic, Distracted;
    var x := SomeNotHeld(c, held);
    SubsetSize(held, Elements(c.steps) - {x});
    DistinctCount(c.steps);
  }

  lemma HeldAreSteps(c: Config, held: set<Id>)
    requires Holdable(c, held)
    ensures held <= Elements(c.steps)
  {
    hide Antichain, Below, Refused;
  }

  /**
   * A pool with room for one step more than can be held stalls some run, and one without room for
   * those does not; with room for every step, some run stalls exactly if the orchestration is stallable.
   */
  lemma WhoCanStall(c: Config)
    requires Accepted(c)
    ensures c.capacity > 0 && StallableIn(c, c.capacity - 1) ==> Stalls(c)
    ensures Stalls(c) ==> StallableIn(c, c.capacity)
    ensures Roomy(c) ==> (Stalls(c) <==> Stallable(c))
  {
    hide Accepted, Stalls, Holdable, Distracted;
    if c.capacity > 0 && StallableIn(c, c.capacity - 1) { SomeRunStalls(c); }
    if Stalls(c) { StalledRun(c); }
    if Stallable(c) && Roomy(c) {
      var held :| Holdable(c, held) && Distracted(c, held);
      assert held <= Elements(c.steps) by { HeldAreSteps(c, held); }
      NotAllAreHeld(c, held);
      SomeRunStalls(c);
    }
  }

  // ----- what that comes to

  lemma NothingAfterRoot(deps: Deps, x: Id, p: seq<Id>)
    requires DepsOf(deps, x) == [] && Path(deps, p)
    ensures p[0] != x
  {
    assert p[1] in DepsOf(deps, p[0]);
  }

  /** A refused step without dependencies keeps every run from stalling, with any pool. */
  lemma RefusedRootNeverStalls(c: Config, x: Id)
    requires Refused(c, x) && DepsOf(c.deps, x) == []
    ensures !Stallable(c)
  {
    hide Antichain, Refused, Distracted;
    forall y ensures !DependsOn(c.deps, x, y) {
      forall p ensures !PathBetween(c.deps, p, x, y) {
        if Path(c.deps, p) { NothingAfterRoot(c.deps, x, p); }
      }
    }
  }

  // ----- without refused steps, any pool will do

  ghost predicate SomeUnrelated(c: Config, s: Sched) {
    exists x, y :: x in Open(s) && y in Open(s) && !Comparable(c.deps, x, y)
  }

  lemma UnrelatedIsOutside(c: Config, s: State, x: Id, y: Id)
    requires Planned(c, s) && x in Open(s.sched) && y in Open(s.sched) && !Comparable(c.deps, x, y)
    ensures TwoOutside(c, x, y, {})
  {
    hide Consistent, LoopOk, Comparable;
    assert x in Elements(c.steps) && y in Elements(c.steps);
  }

  /** Unrelated open steps outlast a wave of one. */
  lemma UnrelatedStays(c: Config, s: State, t: State, y: Id)
    requires Accepted(c) && Poised(c, s, {}) && SomeUnrelated(c, s.sched) && Free(c, s.sched, {}) == {y}
    requires Open(t.sched) == Open(s.sched) - {y}
    ensures SomeUnrelated(c, t.sched)
  {
    hide Accepted, Reached, AllBusy, NoneDead, Held, Free, Open, Comparable, StepsIn, Safe, Planned, AllTracked, AllAgreed;
    ReachedSafe(c, s);
    var x, z :| x in Open(s.sched) && z in Open(s.sched) && !Comparable(c.deps, x, z);
    UnrelatedIsOutside(c, s, x, z);
    PairStays(c, s, {}, y, x, z);
  }

  /** With nothing running and something open, something is ready. */
  lemma SomethingFree(c: Config, s: State, z: Id)
    requires Accepted(c) && Poised(c, s, {}) && z in Open(s.sched)
    ensures Free(c, s.sched, {}) != {}
  {
    hide Accepted, Poised, Free, Open;
    assert !Below(c.deps, z, {});
    var x := FreeUpstream(c, s, {}, z);
  }

  /** Wave after wave completes; of the last one, the last step is kept. */
  lemma {:induction false} StallAny(c: Config, s: State) returns (t: State)
    requires Accepted(c) && c.capacity > 0 && (forall x :: !Refused(c, x)) && Open(s.sched) != {}
    requires Poised(c, s, {}) && (s.permit || SomeUnrelated(c, s.sched))
    ensures Reached(c, t) && t.pc.WaitIdle?
    decreases |Open(s.sched)|
  {
    hide Accepted, Reached, AllBusy, Held, Free, Open, Advanced, NoneDead, Refused, StepsIn, SomeUnrelated;
    var z :| z in Open(s.sched);
    SomethingFree(c, s, z);
    var y := LastFree(c, s, {});
    var free := Free(c, s.sched, {});
    if free == Open(s.sched) {
      t := StallLast(c, s, y);
    } else {
      var u := WaveTurn(c, s, {}, y);
      WaveKeeps(c, s, u, {});
      FreeIsOpen(c, s, {});
      SubsetSize(free, Open(s.sched));
      if !u.permit { UnrelatedStays(c, s, u, y); }
      t := StallAny(c, u);
    }
  }

  lemma FreeIsOpen(c: Config, s: State, held: set<Id>)
    requires Reached(c, s)
    ensures Free(c, s.sched, held) <= Open(s.sched)
  {
    hide Reached, Free;
    FreeIs(c, s, held);
  }

  /** Everything open is ready: all of it is launched, and all but the last of it completes. */
  lemma StallLast(c: Config, s: State, y: Id) returns (t: State)
    requires Accepted(c) && c.capacity > 0 && (forall x :: !Refused(c, x)) && Poised(c, s, {})
    requires Free(c, s.sched, {}) == Open(s.sched) && (s.permit || SomeUnrelated(c, s.sched))
    requires y in Free(c, s.sched, {}) && LastIn(Queue(c, s.sched), {} + {y})
    ensures Reached(c, t) && t.pc.WaitIdle?
  {
    hide Accepted, Reached, AllBusy, Held, Open, NoneDead, Refused, StepsIn, Queue;
    FreeIs(c, s, {});
    assert {} + {y} == {y};
    if !s.permit {
      var x, z :| x in Open(s.sched) && z in Open(s.sched) && !Comparable(c.deps, x, z);
      assert x != z;
      assert x in Free(c, s.sched, {y}) || z in Free(c, s.sched, {y});
    }
    t := StallNow(c, s, {y}, y);
  }

  /** Without refused steps, some run stalls exactly if the pool has any room and the steps are no chain. */
  lemma UnrefusedStalls(c: Config)
    requires Accepted(c) && forall x :: !Refused(c, x)
    ensures Stalls(c) <==> c.capacity > 0 && !Chain(c)
  {
    hide Accepted, Calm, Reached, Init, Open, Held, StepsIn, Stalls, Comparable, Refused;
    if Stalls(c) {
      StalledRun(c);
      HeldIsSome(c);
    }
    if c.capacity > 0 && !Chain(c) {
      InitCalm(c);
      var s := Init(c);
      var x, y :| x in c.steps && y in c.steps && !Comparable(c.deps, x, y);
      assert x in Open(s.sched) && y in Open(s.sched);
      assert SomeUnrelated(c, s.sched);
      var t := StallAny(c, s);
      StallIsRun(c, t);
    }
  }

  /** Somebody is held, and nobody in a chain. */
  lemma HeldIsSome(c: Config)
    requires StallableIn(c, c.capacity)
    ensures c.capacity > 0 && !Chain(c)
  {
    hide Antichain, Below, Refused, Distracted, Chain;
    var held :| Holdable(c, held) && Distracted(c, held) && |held| <= c.capacity;
    assert |held| > 0;
    if Chain(c) { ChainIsNotDistracted(c, held); }
  }

  lemma ChainIsNotDistracted(c: Config, held: set<Id>)
    requires Chain(c) && Holdable(c, held)
    ensures !Distracted(c, held)
  {
    hide Refused, Antichain, DependsOn;
    var y :| y in held;
    assert y in Elements(c.steps);
    forall x | x in c.steps ensures !Apart(c.deps, x, held) { assert Comparable(c.deps, x, y); }
    forall x, y ensures !TwoOutside(c, x, y, held) {}
  }

  /** Without refused steps, an orchestration is stallable exactly if it is not a chain. */
  lemma UnrefusedStallable(c: Config)
    requires Accepted(c) && forall x :: !Refused(c, x)
    ensures Stallable(c) <==> !Chain(c)
  {
    hide Refused, Known, Distinct, DependsOn;
    if Chain(c) {
      forall held | Holdable(c, held) ensures !Distracted(c, held) { ChainIsNotDistracted(c, held); }
    } else {
      var x, y :| x in c.steps && y in c.steps && !Comparable(c.deps, x, y);
      assert Antichain(c.deps, {y}) by { assert !DependsOn(c.deps, y, y); }
      assert Apart(c.deps, x, {y});
      assert Holdable(c, {y}) && Distracted(c, {y});
    }
  }
}
