/**
 * Trust on first use: which daemon fingerprints a client has stored, and which session a relay
 * connection may converse with.
 */
module Trust {
  import opened Options

  datatype KnownDaemon = KnownDaemon(fingerprint: string, firstSeen: int, lastSeen: int, verified: bool)

  type Daemons = map<string, KnownDaemon>

  datatype Check = TrustOnFirstUse | Matched | Mismatch(expected: string, actual: string)

  /** A crypto session, named by a number, with the daemon it was agreed with. */
  datatype Session = Session(key: nat, machine: string, fingerprint: string)

  /** What a client connection knows. */
  datatype Knowledge = Knowledge(daemons: Daemons, crypto: Option<Session>)

  // ----- the store

  function CheckIn(d: Daemons, machine: string, fingerprint: string): Check {
    if machine !in d then TrustOnFirstUse
    else if d[machine].fingerprint == fingerprint then Matched
    else Mismatch(d[machine].fingerprint, fingerprint)
  }

  function Recorded(d: Daemons, machine: string, fingerprint: string, now: int): Daemons {
    if machine in d then d[machine := d[machine].(lastSeen := now)]
    else d[machine := KnownDaemon(fingerprint, now, now, false)]
  }

  function Verified(d: Daemons, machine: string): Daemons {
    if machine in d then d[machine := d[machine].(verified := true)] else d
  }

  function Updated(d: Daemons, machine: string, fingerprint: string, now: int): Daemons {
    if machine in d then d[machine := KnownDaemon(fingerprint, now, now, false)] else d
  }

  /** Nothing but the machine's own entry has changed. */
  predicate OnlyAt(before: Daemons, after: Daemons, machine: string) {
    before - {machine} == after - {machine}
  }

  class FingerprintStore {
    var daemons: Daemons

    constructor ()
      ensures daemons == map[]
    {
      daemons := map[];
    }

    function Check(machine: string, fingerprint: string): Check
      reads this
    {
      CheckIn(daemons, machine, fingerprint)
    }

    method Record(machine: string, fingerprint: string, now: int)
      modifies this
      ensures machine in daemons && OnlyAt(old(daemons), daemons, machine)
      ensures machine in old(daemons) ==> daemons[machine] == old(daemons)[machine].(lastSeen := now)
      ensures machine !in old(daemons) ==> daemons[machine] == KnownDaemon(fingerprint, now, now, false)
    {
      if machine !in daemons {
        daemons := daemons[machine := KnownDaemon(fingerprint, now, now, false)];
      }
      daemons := daemons[machine := daemons[machine].(lastSeen := now)];
    }

    method MarkVerified(machine: string) returns (found: bool)
      modifies this
      ensures (found <==> machine in old(daemons)) && (!found ==> daemons == old(daemons))
      ensures found ==> machine in daemons && OnlyAt(old(daemons), daemons, machine)
                        && daemons[machine] == old(daemons)[machine].(verified := true)
    {
      found := machine in daemons;
      if found {
        daemons := daemons[machine := daemons[machine].(verified := true)];
      }
    }

    method UpdateFingerprint(machine: string, fingerprint: string, now: int) returns (found: bool)
      modifies this
      ensures (found <==> machine in old(daemons)) && (!found ==> daemons == old(daemons))
      ensures found ==> machine in daemons && OnlyAt(old(daemons), daemons, machine)
                        && daemons[machine] == KnownDaemon(fingerprint, now, now, false)
    {
      found := machine in daemons;
      if found {
        var entry := daemons[machine];
        entry := entry.(fingerprint := fingerprint);
        entry := entry.(firstSeen := now, lastSeen := now);
        entry := entry.(verified := false);
        daemons := daemons[machine := entry];
      }
    }

    method Remove(machine: string) returns (found: bool)
      modifies this
      ensures (found <==> machine in old(daemons)) && machine !in daemons && OnlyAt(old(daemons), daemons, machine)
    {
      found := machine in daemons;
      daemons := daemons - {machine};
    }
  }

  /** The rest and the machine's entry make up the whole. */
  lemma SameDaemons(a: Daemons, b: Daemons, machine: string)
    requires OnlyAt(a, b, machine) && (machine in a <==> machine in b) && (machine in a ==> a[machine] == b[machine])
    ensures a == b
  {
    forall m | m in a || m in b ensures m in a && m in b && a[m] == b[m] {
      if m != machine {
        assert m in a - {machine} || m in b - {machine};
        assert (a - {machine})[m] == (b - {machine})[m];
      }
    }
  }

  // ----- the connection

  /** What a daemon answers to a key exchange: its fingerprint and the session agreed on. */
  datatype Answer = Answer(fingerprint: string, key: nat)

  datatype Action =
    | Exchange(machine: string, answer: Option<Answer>, now: int)  // without an answer the call has failed
    | Accept(machine: string, fingerprint: string, now: int)
    | Verify(machine: string)
    | Forget(machine: string)
    | Converse
    | Reconnect  // a new connection, with the store as it was saved

  function Exchanged(k: Knowledge, machine: string, answer: Answer, now: int): Knowledge {
    match CheckIn(k.daemons, machine, answer.fingerprint)
    case Mismatch(_, _) => k
    case _ =>
      Knowledge(Recorded(k.daemons, machine, answer.fingerprint, now),
                Some(Session(answer.key, machine, answer.fingerprint)))
  }

  function Step(k: Knowledge, a: Action): Knowledge {
    match a
    case Exchange(machine, answer, now) => if answer.None? then k else Exchanged(k, machine, answer.value, now)
    case Accept(machine, fingerprint, now) => k.(daemons := Updated(k.daemons, machine, fingerprint, now))
    case Verify(machine) => k.(daemons := Verified(k.daemons, machine))
    case Forget(machine) => k.(daemons := k.daemons - {machine})
    case Converse => k
    case Reconnect => k.(crypto := None)
  }

  datatype ConverseResult = Conversing(session: Option<Session>) | KeyExchangeRequired

  /** A relay connection needs a session to converse. */
  function Conversation(relay: bool, k: Knowledge): ConverseResult {
    if relay && k.crypto.None? then KeyExchangeRequired else Conversing(k.crypto)
  }

  class Connection {
    const relay: bool
    const store: FingerprintStore
    var crypto: Option<Session>

    ghost function Value(): Knowledge
      reads this, store
    {
      Knowledge(store.daemons, crypto)
    }

    constructor (relay: bool, store: FingerprintStore)
      ensures this.relay == relay && this.store == store && crypto == None
    {
      this.relay, this.store, crypto := relay, store, None;
    }

    /** `exchange_keys`; `None` when the call or the key derivation fails. */
    method ExchangeKeys(machine: string, answer: Option<Answer>, now: int) returns (check: Option<Check>)
      modifies this, store
      ensures Value() == Step(old(Value()), Exchange(machine, answer, now))
      ensures check == if answer.None? then None else Some(CheckIn(old(store.daemons), machine, answer.value.fingerprint))
    {
      if answer.None? {
        return None;
      }
      var result := store.Check(machine, answer.value.fingerprint);
      match result {
        case TrustOnFirstUse => store.Record(machine, answer.value.fingerprint, now);
        case Matched => store.Record(machine, answer.value.fingerprint, now);
        case Mismatch(_, _) => return Some(result);
      }
      SameDaemons(store.daemons, Recorded(old(store.daemons), machine, answer.value.fingerprint, now), machine);
      crypto := Some(Session(answer.value.key, machine, answer.value.fingerprint));
      check := Some(result);
    }

    method AcceptFingerprintChange(machine: string, fingerprint: string, now: int)
      modifies store
      ensures Value() == Step(old(Value()), Accept(machine, fingerprint, now))
    {
      var found := store.UpdateFingerprint(machine, fingerprint, now);
      if found {
        SameDaemons(store.daemons, Updated(old(store.daemons), machine, fingerprint, now), machine);
      }
    }

    method VerifyFingerprint(machine: string)
      modifies store
      ensures Value() == Step(old(Value()), Verify(machine))
    {
      var found := store.MarkVerified(machine);
      if found {
        SameDaemons(store.daemons, Verified(old(store.daemons), machine), machine);
      }
    }

    /** `ensure_relay_key_exchange`: only a relay exchanges keys, and a mismatch is an error. */
    method EnsureRelayKeyExchange(machine: string, answer: Option<Answer>, now: int) returns (ok: bool)
      modifies this, store
      ensures relay ==> Value() == Step(old(Value()), Exchange(machine, answer, now))
      ensures !relay ==> Value() == old(Value())
      ensures ok <==> !relay || (answer.Some? && !CheckIn(old(store.daemons), machine, answer.value.fingerprint).Mismatch?)
    {
      if !relay {
        return true;
      }
      var check := ExchangeKeys(machine, answer, now);
      ok := check.Some? && !check.value.Mismatch?;
    }

    /** The guard of `converse`, and the session it goes on to use. */
    method StartConversation() returns (r: ConverseResult)
      ensures r == Conversation(relay, Value())
    {
      if relay && crypto.None? {
        return KeyExchangeRequired;
      }
      r := Conversing(crypto);
    }
  }

  // ----- runs

  /** `states[i + 1]` is what is known after `actions[i]`; nothing is known at first. */
  ghost predicate Run(states: seq<Knowledge>, actions: seq<Action>) {
    && |states| == |actions| + 1 && states[0] == Knowledge(map[], None)
    && forall i :: 0 <= i < |actions| ==> states[i + 1] == Step(states[i], actions[i])
  }

  /** The store has this fingerprint for the machine. */
  predicate Holds(d: Daemons, machine: string, fingerprint: string) {
    machine in d && d[machine].fingerprint == fingerprint
  }

  /** The action changes which fingerprint is stored for a known machine, or drops it. */
  predicate Overrides(a: Action, machine: string) {
    (a.Accept? || a.Forget?) && a.machine == machine
  }

  /** Only accepting a change or forgetting a machine touches the fingerprint stored for it. */
  lemma FingerprintStays(k: Knowledge, a: Action, machine: string)
    requires machine in k.daemons && !Overrides(a, machine)
    ensures Holds(Step(k, a).daemons, machine, k.daemons[machine].fingerprint)
    ensures k.daemons[machine].verified ==> Step(k, a).daemons[machine].verified
  {
  }

  /** Along any stretch of a run, a stored fingerprint is the one stored before unless it was overridden. */
  lemma {:induction false} FingerprintPersists(states: seq<Knowledge>, actions: seq<Action>, machine: string, i: nat, j: nat)
    requires Run(states, actions) && i <= j < |states| && machine in states[i].daemons
    requires forall n :: i <= n < j ==> !Overrides(actions[n], machine)
    ensures Holds(states[j].daemons, machine, states[i].daemons[machine].fingerprint)
    decreases j
  {
    hide Step;
    if i < j {
      FingerprintPersists(states, actions, machine, i, j - 1);
      assert states[j] == Step(states[j - 1], actions[j - 1]);
      FingerprintStays(states[j - 1], actions[j - 1], machine);
    }
  }

  /** Action `m` marked the machine, whose fingerprint has not been touched since. */
  ghost predicate MarkedAt(states: seq<Knowledge>, actions: seq<Action>, machine: string, m: nat, i: nat)
    requires Run(states, actions) && i < |states|
  {
    && m < i && actions[m] == Verify(machine) && machine in states[m].daemons
    && forall n :: m < n < i ==> !Overrides(actions[n], machine)
  }

  lemma VerifiedBy(k: Knowledge, a: Action, machine: string)
    requires machine in Step(k, a).daemons && Step(k, a).daemons[machine].verified
    ensures machine in k.daemons && !Overrides(a, machine)
    ensures a == Verify(machine) || k.daemons[machine].verified
  {
  }

  /**
   * A machine is verified exactly if it was marked after its present fingerprint was stored; the
   * fingerprint that was marked is then the one that is stored.
   */
  lemma {:induction false} VerifiedMeansMarked(states: seq<Knowledge>, actions: seq<Action>, machine: string, i: nat)
    requires Run(states, actions) && i < |states|
    ensures machine in states[i].daemons && states[i].daemons[machine].verified
       <==> exists m :: MarkedAt(states, actions, machine, m, i)
    decreases i
  {
    hide Step;
    if i > 0 && machine in states[i].daemons && states[i].daemons[machine].verified {
      VerifiedBy(states[i - 1], actions[i - 1], machine);
      if actions[i - 1] == Verify(machine) {
        assert MarkedAt(states, actions, machine, i - 1, i);
      } else {
        VerifiedMeansMarked(states, actions, machine, i - 1);
        var m :| MarkedAt(states, actions, machine, m, i - 1);
        assert MarkedAt(states, actions, machine, m, i);
      }
    }
    forall m | MarkedAt(states, actions, machine, m, i)
      ensures machine in states[i].daemons && states[i].daemons[machine].verified
    {
      MarkLasts(states, actions, machine, m, i);
    }
  }

  lemma {:induction false} MarkLasts(states: seq<Knowledge>, actions: seq<Action>, machine: string, m: nat, i: nat)
    requires Run(states, actions) && i < |states| && MarkedAt(states, actions, machine, m, i)
    ensures machine in states[i].daemons && states[i].daemons[machine].verified
    ensures states[i].daemons[machine].fingerprint == states[m].daemons[machine].fingerprint
    decreases i
  {
    assert states[i] == Step(states[i - 1], actions[i - 1]);
    if m < i - 1 {
      MarkLasts(states, actions, machine, m, i - 1);
      assert !Overrides(actions[i - 1], machine);
      FingerprintStays(states[i - 1], actions[i - 1], machine);
    }
  }

  // ----- sessions

  /** Action `n` was a key exchange that installed the session, with its fingerprint then in the store. */
  ghost predicate InstalledAt(states: seq<Knowledge>, actions: seq<Action>, session: Session, n: nat)
    requires Run(states, actions) && n < |actions|
  {
    && actions[n].Exchange? && actions[n].answer == Some(Answer(session.fingerprint, session.key))
    && actions[n].machine == session.machine
    && (session.machine in states[n].daemons ==> Holds(states[n].daemons, session.machine, session.fingerprint))
    && Holds(states[n + 1].daemons, session.machine, session.fingerprint)
    && states[n + 1].crypto == Some(session)
  }

  lemma OnlyExchangeInstalls(k: Knowledge, a: Action)
    requires Step(k, a).crypto != k.crypto && Step(k, a).crypto.Some?
    ensures a.Exchange? && a.answer.Some? && !CheckIn(k.daemons, a.machine, a.answer.value.fingerprint).Mismatch?
    ensures Step(k, a).crypto == Some(Session(a.answer.value.key, a.machine, a.answer.value.fingerprint))
    ensures Holds(Step(k, a).daemons, a.machine, a.answer.value.fingerprint)
  {
  }

  /** First use is exactly an unknown machine, a match exactly the stored fingerprint. */
  lemma CheckExactly(d: Daemons, machine: string, fingerprint: string)
    ensures CheckIn(d, machine, fingerprint) == TrustOnFirstUse <==> machine !in d
    ensures CheckIn(d, machine, fingerprint) == Matched <==> Holds(d, machine, fingerprint)
    ensures forall stored :: CheckIn(d, machine, fingerprint) == Mismatch(stored, fingerprint)
              <==> Holds(d, machine, stored) && stored != fingerprint
  {
  }

  /** A fingerprint that does not match leaves both the store and the session as they were. */
  lemma MismatchChangesNothing(k: Knowledge, machine: string, answer: Answer, now: int)
    ensures CheckIn(k.daemons, machine, answer.fingerprint).Mismatch?
       <==> machine in k.daemons && !Holds(k.daemons, machine, answer.fingerprint)
    ensures CheckIn(k.daemons, machine, answer.fingerprint).Mismatch? ==> Step(k, Exchange(machine, Some(answer), now)) == k
  {
  }

  /** Whatever session there is was installed when the store held its daemon's fingerprint. */
  lemma {:induction false} SessionsWereTrusted(states: seq<Knowledge>, actions: seq<Action>, i: nat) returns (n: nat)
    requires Run(states, actions) && i < |states| && states[i].crypto.Some?
    ensures n < i && InstalledAt(states, actions, states[i].crypto.value, n)
    ensures forall m :: n < m <= i ==> states[m].crypto == states[i].crypto
    decreases i
  {
    hide Step;
    var k, a := states[i - 1], actions[i - 1];
    assert states[i] == Step(k, a);
    if states[i].crypto == k.crypto {
      n := SessionsWereTrusted(states, actions, i - 1);
    } else {
      OnlyExchangeInstalls(k, a);
      n := i - 1;
    }
  }

  /** A relay conversation starts only with such a session. */
  lemma RelayConversationsAreTrusted(states: seq<Knowledge>, actions: seq<Action>, i: nat) returns (n: nat)
    requires Run(states, actions) && i < |states| && Conversation(true, states[i]).Conversing?
    ensures var session := Conversation(true, states[i]).session;
            n < i && session.Some? && InstalledAt(states, actions, session.value, n)
  {
    n := SessionsWereTrusted(states, actions, i);
  }

  /** The present session's fingerprint is still the stored one. */
  predicate StillTrusted(k: Knowledge) {
    k.crypto.Some? && Holds(k.daemons, k.crypto.value.machine, k.crypto.value.fingerprint)
  }

  /** A session stays in use after the stored fingerprint has been changed under it. */
  lemma TrustCanBeOutlived()
    ensures var actions := [Exchange("m", Some(Answer("a", 1)), 0), Accept("m", "b", 1)];
            exists states: seq<Knowledge> :: Run(states, actions) && states[2].crypto == Some(Session(1, "m", "a"))
                             && Holds(states[2].daemons, "m", "b") && !StillTrusted(states[2])
  {
    var actions := [Exchange("m", Some(Answer("a", 1)), 0), Accept("m", "b", 1)];
    var s0 := Knowledge(map[], None);
    var s1 := Step(s0, actions[0]);
    var s2 := Step(s1, actions[1]);
    var states := [s0, s1, s2];
    assert Run(states, actions);
  }

  /** While connected, only taking a session's fingerprint out of the store makes it lose that trust. */
  lemma TrustLostExactly(k: Knowledge, a: Action)
    requires StillTrusted(k) && !a.Reconnect?
    ensures !StillTrusted(Step(k, a))
       <==> Overrides(a, k.crypto.value.machine) && (a.Accept? ==> a.fingerprint != k.crypto.value.fingerprint)
  {
  }

  // ----- when a session outlives its trust

  /** The action installs a session. */
  predicate Installs(k: Knowledge, a: Action) {
    a.Exchange? && a.answer.Some? && !CheckIn(k.daemons, a.machine, a.answer.value.fingerprint).Mismatch?
  }

  /** Action `n` is the last to install a session before state `i`. */
  ghost predicate LastInstall(states: seq<Knowledge>, actions: seq<Action>, n: nat, i: nat)
    requires Run(states, actions) && i < |states|
  {
    && n < i && Installs(states[n], actions[n]) && states[n + 1].crypto == states[i].crypto
    && forall m :: n < m < i ==> !Installs(states[m], actions[m])
  }

  lemma {:induction false} SomeInstallIsLast(states: seq<Knowledge>, actions: seq<Action>, i: nat) returns (n: nat)
    requires Run(states, actions) && i < |states| && states[i].crypto.Some?
    ensures LastInstall(states, actions, n, i)
    decreases i
  {
    assert states[i] == Step(states[i - 1], actions[i - 1]);
    if Installs(states[i - 1], actions[i - 1]) {
      n := i - 1;
    } else {
      n := SomeInstallIsLast(states, actions, i - 1);
    }
  }

  /** A session was installed and nothing has been reconnected since. */
  ghost predicate ConnectedSince(states: seq<Knowledge>, actions: seq<Action>, n: nat, i: nat)
    requires Run(states, actions) && i < |states|
  {
    n < i && Installs(states[n], actions[n]) && forall m :: n < m < i ==> !actions[m].Reconnect?
  }

  lemma CryptoNext(k: Knowledge, a: Action)
    ensures Step(k, a).crypto.Some? <==> Installs(k, a) || (k.crypto.Some? && !a.Reconnect?)
  {
  }

  lemma {:induction false} CryptoSince(states: seq<Knowledge>, actions: seq<Action>, i: nat)
    requires Run(states, actions) && i < |states|
    ensures states[i].crypto.Some? <==> exists n :: ConnectedSince(states, actions, n, i)
    decreases i
  {
    hide Step, Installs;
    if i > 0 {
      assert states[i] == Step(states[i - 1], actions[i - 1]);
      CryptoNext(states[i - 1], actions[i - 1]);
      CryptoSince(states, actions, i - 1);
      if Installs(states[i - 1], actions[i - 1]) {
        assert ConnectedSince(states, actions, i - 1, i);
      } else {
        if states[i - 1].crypto.Some? {
          var n :| ConnectedSince(states, actions, n, i - 1);
          assert !actions[i - 1].Reconnect? ==> ConnectedSince(states, actions, n, i);
        }
        forall n | ConnectedSince(states, actions, n, i) ensures ConnectedSince(states, actions, n, i - 1) {
          assert n != i - 1;
        }
      }
    }
  }

  /** A relay converses exactly if keys were exchanged since it was last connected; other connections always do. */
  lemma ConverseExactly(states: seq<Knowledge>, actions: seq<Action>, i: nat)
    requires Run(states, actions) && i < |states|
    ensures Conversation(true, states[i]) == Conversing(states[i].crypto) <==>
              exists n :: ConnectedSince(states, actions, n, i)
    ensures Conversation(true, states[i]) == KeyExchangeRequired <==>
              !exists n :: ConnectedSince(states, actions, n, i)
    ensures Conversation(false, states[i]) == Conversing(states[i].crypto)
  {
    hide ConnectedSince;
    CryptoSince(states, actions, i);
  }

  // ----- when a daemon was seen

  /** The action is about this machine, and sees it with the fingerprint that is stored or takes it into the store. */
  predicate Sees(k: Knowledge, a: Action, machine: string) {
    (Installs(k, a) || (a.Accept? && machine in k.daemons)) && a.machine == machine
  }

  /** The action stores the fingerprint anew. */
  predicate Stores(k: Knowledge, a: Action, machine: string, fingerprint: string) {
    && Sees(k, a, machine)
    && (a.Exchange? ==> machine !in k.daemons && a.answer.value.fingerprint == fingerprint)
    && (a.Accept? ==> a.fingerprint == fingerprint)
  }

  /** What is stored of the machine was stored by action `first`, and the machine last seen by action `last`. */
  ghost predicate SeenAt(states: seq<Knowledge>, actions: seq<Action>, machine: string, i: nat, first: nat, last: nat)
    requires Run(states, actions) && i < |states| && machine in states[i].daemons
  {
    var d := states[i].daemons[machine];
    && first <= last < i && Stores(states[first], actions[first], machine, d.fingerprint)
    && Sees(states[last], actions[last], machine)
    && d.firstSeen == actions[first].now && d.lastSeen == actions[last].now
    && (forall n :: first < n < i ==> !Overrides(actions[n], machine))
    && (forall n :: last < n < i ==> !Sees(states[n], actions[n], machine))
  }

  lemma SeenNext(k: Knowledge, a: Action, machine: string)
    requires machine in Step(k, a).daemons
    ensures var d := Step(k, a).daemons[machine];
            && (Sees(k, a, machine) ==> d.lastSeen == a.now)
            && (machine !in k.daemons || Overrides(a, machine) ==>
                  Stores(k, a, machine, d.fingerprint) && d.firstSeen == a.now)
            && (machine in k.daemons && !Overrides(a, machine) ==>
                  d.fingerprint == k.daemons[machine].fingerprint && d.firstSeen == k.daemons[machine].firstSeen)
            && (machine in k.daemons && !Sees(k, a, machine) ==> d.lastSeen == k.daemons[machine].lastSeen)
  {
  }

  /** In every run, the store says when the present fingerprint was stored and when the machine was last seen with it. */
  lemma {:induction false} SeenWhen(states: seq<Knowledge>, actions: seq<Action>, machine: string, i: nat)
    returns (first: nat, last: nat)
    requires Run(states, actions) && i < |states| && machine in states[i].daemons
    ensures SeenAt(states, actions, machine, i, first, last)
    decreases i
  {
    hide Step, Installs;
    var k, a := states[i - 1], actions[i - 1];
    assert states[i] == Step(k, a);
    SeenNext(k, a, machine);
    if machine !in k.daemons || Overrides(a, machine) {
      first, last := i - 1, i - 1;
    } else {
      first, last := SeenWhen(states, actions, machine, i - 1);
      if Sees(k, a, machine) { last := i - 1; }
    }
  }

  predicate Forgotten(actions: seq<Action>, machine: string) {
    exists j :: 0 <= j < |actions| && actions[j] == Forget(machine)
  }

  /** The fingerprint accepted last for the machine. */
  function LastAccepted(actions: seq<Action>, machine: string): Option<string> {
    if actions == [] then None
    else
      var a := actions[|actions| - 1];
      if a.Accept? && a.machine == machine then Some(a.fingerprint)
      else LastAccepted(actions[..|actions| - 1], machine)
  }

  lemma ForgottenNext(actions: seq<Action>, a: Action, machine: string)
    ensures Forgotten(actions + [a], machine) <==> Forgotten(actions, machine) || a == Forget(machine)
    ensures LastAccepted(actions + [a], machine)
         == if a.Accept? && a.machine == machine then Some(a.fingerprint) else LastAccepted(actions, machine)
  {
    assert (actions + [a])[..|actions|] == actions;
    if j :| 0 <= j < |actions| && actions[j] == Forget(machine) { assert (actions + [a])[j] == Forget(machine); }
    if a == Forget(machine) { assert (actions + [a])[|actions|] == Forget(machine); }
  }

  /** What is stored for the machine some actions after its fingerprint was `first`, without an install. */
  ghost predicate StoredSince(d: Daemons, machine: string, first: string, since: seq<Action>) {
    if Forgotten(since, machine) then machine !in d
    else
      var last := LastAccepted(since, machine);
      Holds(d, machine, if last.Some? then last.value else first)
  }

  lemma StoredNext(k: Knowledge, a: Action, machine: string, first: string, since: seq<Action>)
    requires StoredSince(k.daemons, machine, first, since) && !Installs(k, a)
    ensures StoredSince(Step(k, a).daemons, machine, first, since + [a])
  {
    ForgottenNext(since, a, machine);
    hide Forgotten, LastAccepted;
  }

  lemma {:induction false} StoredAfter(states: seq<Knowledge>, actions: seq<Action>, n: nat, i: nat)
    requires Run(states, actions) && n < i < |states| && Installs(states[n], actions[n])
    requires forall m :: n < m < i ==> !Installs(states[m], actions[m])
    ensures StoredSince(states[i].daemons, actions[n].machine, actions[n].answer.value.fingerprint, actions[n + 1..i])
    decreases i
  {
    if i == n + 1 {
      assert states[i] == Step(states[n], actions[n]);
    } else {
      hide StoredSince, Installs, Step;
      StoredAfter(states, actions, n, i - 1);
      assert states[i] == Step(states[i - 1], actions[i - 1]);
      assert actions[n + 1..i] == actions[n + 1..i - 1] + [actions[i - 1]];
      StoredNext(states[i - 1], actions[i - 1], actions[n].machine, actions[n].answer.value.fingerprint,
                 actions[n + 1..i - 1]);
    }
  }

  /**
   * In every run, a session is still trusted exactly if, since it was installed, its machine has not
   * been forgotten, and the fingerprint last accepted for the machine, if any was, is the session's.
   */
  lemma TrustOutlivedExactly(states: seq<Knowledge>, actions: seq<Action>, n: nat, i: nat)
    requires Run(states, actions) && i < |states| && states[i].crypto.Some? && LastInstall(states, actions, n, i)
    ensures var session, since := states[i].crypto.value, actions[n + 1..i];
            StillTrusted(states[i])
            <==> && !Forgotten(since, session.machine)
                 && (LastAccepted(since, session.machine).Some? ==>
                       LastAccepted(since, session.machine).value == session.fingerprint)
  {
    hide Forgotten, LastAccepted;
    assert states[n + 1] == Step(states[n], actions[n]);
    StoredAfter(states, actions, n, i);
  }
}
