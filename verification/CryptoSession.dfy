/**
 * Nonces and encryption of one `CryptoSession`. The nonce counter is an atomic shared by any number
 * of threads, each of which loads it and then tries to replace what it loaded by the next value.
 */
module CryptoSession {
  import opened Options
  import opened Bytes

  const MAX: nat := 0xFFFF_FFFF  // u32::MAX
  const NONCE_SIZE: nat := 12

  // ----- the layout of a nonce

  function BigEndian(n: nat): (b: seq<Byte>)
    requires n <= MAX
    ensures |b| == 4
  {
    [n / 0x100_0000, n / 0x1_0000 % 256, n / 256 % 256, n % 256]
  }

  lemma BigEndianIs(n: nat)
    requires n <= MAX
    ensures Num(256, BigEndian(n)) == n
  {
    var b := BigEndian(n);
    NumPush4(256, [], b[0], b[1], b[2], b[3]);
    assert [] + [b[0], b[1], b[2], b[3]] == b;
    assert Num(256, []) == 0;
    hide Num;
    BigEndianSum(n);
  }

  lemma BigEndianSum(n: nat)
    requires n <= MAX
    ensures ((n / 0x100_0000 * 256 + n / 0x1_0000 % 256) * 256 + n / 256 % 256) * 256 + n % 256 == n
  {
    assert n / 256 == n / 0x1_0000 * 256 + n / 256 % 256;
    assert n / 0x1_0000 == n / 0x100_0000 * 256 + n / 0x1_0000 % 256;
  }

  /** The counter and then the session's random prefix. */
  function Nonce(n: nat, prefix: seq<Byte>): seq<Byte>
    requires n <= MAX
  {
    BigEndian(n) + prefix
  }

  lemma NonceInjective(a: nat, b: nat, prefix: seq<Byte>)
    requires a <= MAX && b <= MAX && Nonce(a, prefix) == Nonce(b, prefix)
    ensures a == b
  {
    hide BigEndian;
    assert BigEndian(a) == Nonce(a, prefix)[..4] == Nonce(b, prefix)[..4] == BigEndian(b);
    BigEndianIs(a);
    BigEndianIs(b);
  }

  // ----- threads

  /** Where a thread is in `next_nonce`. */
  datatype Thread = Idle | Loading | Loaded(current: nat)

  type Tid = nat

  /** `nonces` are the counter values of the calls that returned a nonce, in the order of their swaps. */
  datatype State = State(counter: nat, threads: map<Tid, Thread>, nonces: seq<nat>, exhausted: nat)

  datatype Action =
    | Call(t: Tid)
    | Load(t: Tid, value: nat)    // a relaxed load may find any value the counter has had
    | Swap(t: Tid)
    | SwapFails(t: Tid)           // another thread was first, or the weak exchange failed spuriously

  function ThreadOf(s: State, t: Tid): Thread {
    if t in s.threads then s.threads[t] else Idle
  }

  const START := State(0, map[], [], 0)

  predicate Enabled(s: State, a: Action) {
    match a
    case Call(t) => ThreadOf(s, t).Idle?
    case Load(t, value) => ThreadOf(s, t).Loading? && value <= s.counter
    case Swap(t) => ThreadOf(s, t).Loaded? && ThreadOf(s, t).current == s.counter
    case SwapFails(t) => ThreadOf(s, t).Loaded?
  }

  function Apply(s: State, a: Action): State
    requires Enabled(s, a)
  {
    match a
    case Call(t) => s.(threads := s.threads[t := Loading])
    case Load(t, value) =>
      if value == MAX then s.(threads := s.threads[t := Idle], exhausted := s.exhausted + 1)
      else s.(threads := s.threads[t := Loaded(value)])
    case Swap(t) =>
      s.(counter := ThreadOf(s, t).current + 1, threads := s.threads[t := Idle],
         nonces := s.nonces + [ThreadOf(s, t).current])
    case SwapFails(t) => s.(threads := s.threads[t := Loading])
  }

  ghost predicate Run(states: seq<State>, actions: seq<Action>) {
    && |states| == |actions| + 1 && states[0] == START
    && (forall i :: 0 <= i < |actions| ==> Enabled(states[i], actions[i]))
    && (forall i :: 0 <= i < |actions| ==> states[i + 1] == Apply(states[i], actions[i]))
  }

  /** The nonces returned so far are those for 0, 1, 2, ... up to the counter, which has not wrapped. */
  ghost predicate Counted(s: State) {
    && s.counter <= MAX && |s.nonces| == s.counter
    && (forall i :: 0 <= i < |s.nonces| ==> s.nonces[i] == i)
    && (forall t :: ThreadOf(s, t).Loaded? ==> ThreadOf(s, t).current < MAX)
    && (s.exhausted > 0 ==> s.counter == MAX)
  }

  lemma StepCounted(s: State, a: Action)
    requires Counted(s) && Enabled(s, a)
    ensures Counted(Apply(s, a)) && s.nonces <= Apply(s, a).nonces
    ensures s.counter == MAX ==> Apply(s, a).nonces == s.nonces
  {
    var next := Apply(s, a);
    forall t | ThreadOf(next, t).Loaded? ensures ThreadOf(next, t).current < MAX {
      if t != a.t { assert ThreadOf(next, t) == ThreadOf(s, t); }
    }
  }

  lemma {:induction false} RunsAreCounted(states: seq<State>, actions: seq<Action>, i: nat)
    requires Run(states, actions) && i < |states|
    ensures Counted(states[i])
  {
    if i > 0 {
      hide Counted, Apply, Enabled;
      RunsAreCounted(states, actions, i - 1);
      assert Enabled(states[i - 1], actions[i - 1]);
      StepCounted(states[i - 1], actions[i - 1]);
    }
  }

  /**
   * However threads interleave, whatever they load and whichever swaps fail: no two calls get the
   * same nonce, at most 2^32 - 1 get one, and calls are refused only when that many have.
   */
  lemma NoncesAreUnique(states: seq<State>, actions: seq<Action>, i: nat, prefix: seq<Byte>, j: nat, k: nat)
    requires Run(states, actions) && i < |states| && j < k < |states[i].nonces|
    ensures |states[i].nonces| == states[i].counter <= MAX && states[i].nonces[j] <= MAX && states[i].nonces[k] <= MAX
    ensures Nonce(states[i].nonces[j], prefix) != Nonce(states[i].nonces[k], prefix)
  {
    hide Run, Nonce;
    RunsAreCounted(states, actions, i);
    if Nonce(states[i].nonces[j], prefix) == Nonce(states[i].nonces[k], prefix) {
      NonceInjective(states[i].nonces[j], states[i].nonces[k], prefix);
    }
  }

  /** Calls are refused only after every nonce has been handed out, and from then on none succeeds. */
  lemma {:induction false} ExhaustionIsPermanent(states: seq<State>, actions: seq<Action>, i: nat, j: nat)
    requires Run(states, actions) && i <= j < |states| && states[i].exhausted > 0
    ensures |states[i].nonces| == MAX && states[j].nonces == states[i].nonces && states[j].counter == MAX
    decreases j
  {
    hide Apply, Enabled;
    RunsAreCounted(states, actions, i);
    if i < j {
      ExhaustionIsPermanent(states, actions, i, j - 1);
      RunsAreCounted(states, actions, j - 1);
      RunsAreCounted(states, actions, j);
      assert Enabled(states[j - 1], actions[j - 1]);
      StepCounted(states[j - 1], actions[j - 1]);
    }
  }

  /** After exhaustion, whatever a call loads, it does not succeed: its swap is not enabled. */
  lemma ExhaustedSwapsFail(s: State, t: Tid)
    requires Counted(s) && s.counter == MAX
    ensures !Enabled(s, Swap(t))
  {
  }

  // ----- every nonce can be handed out

  ghost predicate Reachable(s: State) {
    exists states, actions :: Run(states, actions) && states[|states| - 1] == s
  }

  lemma ReachNext(s: State, a: Action)
    requires Reachable(s) && Enabled(s, a)
    ensures Reachable(Apply(s, a))
  {
    hide Enabled, Apply;
    var states, actions :| Run(states, actions) && states[|states| - 1] == s;
    var more, taken := states + [Apply(s, a)], actions + [a];
    forall i | 0 <= i < |taken| ensures Enabled(more[i], taken[i]) && more[i + 1] == Apply(more[i], taken[i]) {
      if i < |actions| { assert Enabled(states[i], actions[i]) && states[i + 1] == Apply(states[i], actions[i]); }
    }
    assert Run(more, taken);
  }

  /** Some run hands out `n` nonces, for every `n` up to 2^32 - 1. */
  lemma {:induction false} AllNoncesReachable(n: nat) returns (s: State)
    requires n <= MAX
    ensures Reachable(s) && |s.nonces| == n == s.counter && ThreadOf(s, 0).Idle?
    decreases n
  {
    if n == 0 {
      s := START;
      assert Run([START], []);
    } else {
      hide Reachable;
      s := AllNoncesReachable(n - 1);
      ReachNext(s, Call(0));
      s := Apply(s, Call(0));
      ReachNext(s, Load(0, n - 1));
      s := Apply(s, Load(0, n - 1));
      ReachNext(s, Swap(0));
      s := Apply(s, Swap(0));
    }
  }

  // ----- encryption

  /** The AEAD with the session's key: a nonce and a text to a sealed text, unless that fails, and back. */
  datatype Cipher = Cipher(
    seal: (seq<Byte>, seq<Byte>) -> Option<seq<Byte>>, unseal: (seq<Byte>, seq<Byte>) -> Option<seq<Byte>>)

  /** What the AEAD promises of what it has sealed (section 2.8 of RFC 8439). */
  ghost predicate Opens(sender: Cipher, receiver: Cipher) {
    forall nonce, text :: sender.seal(nonce, text).Some? ==>
      receiver.unseal(nonce, sender.seal(nonce, text).value) == Some(text)
  }

  datatype Encrypted = Encrypted(ciphertext: seq<Byte>, nonce: seq<Byte>)

  datatype Error = NonceExhausted | EncryptionFailed | InvalidNonceLength(expected: nat, actual: nat) | DecryptionFailed

  datatype Result<+T> = Ok(value: T) | Err(error: Error)

  function DecryptWith(cipher: Cipher, ciphertext: seq<Byte>, nonce: seq<Byte>): (r: Result<seq<Byte>>)
    ensures r == Err(InvalidNonceLength(NONCE_SIZE, |nonce|)) <==> |nonce| != NONCE_SIZE
  {
    if |nonce| != NONCE_SIZE then Err(InvalidNonceLength(NONCE_SIZE, |nonce|))
    else
      match cipher.unseal(nonce, ciphertext)
      case Some(text) => Ok(text)
      case None => Err(DecryptionFailed)
  }

  class Session {
    const cipher: Cipher
    const prefix: seq<Byte>
    var nonceCounter: nat

    ghost predicate Valid()
      reads this
    {
      |prefix| == 8 && nonceCounter <= MAX
    }

    constructor (cipher: Cipher, prefix: seq<Byte>)
      requires |prefix| == 8
      ensures Valid() && nonceCounter == 0 && this.cipher == cipher && this.prefix == prefix
    {
      this.cipher, this.prefix, nonceCounter := cipher, prefix, 0;
    }

    /** `next_nonce` in one thread; `spurious` is how often the weak exchange fails for no reason. */
    method NextNonce(spurious: nat) returns (r: Result<seq<Byte>>)
      requires Valid()
      modifies this`nonceCounter
      ensures Valid()
      ensures old(nonceCounter) == MAX ==> r == Err(NonceExhausted) && nonceCounter == MAX
      ensures old(nonceCounter) < MAX ==> r == Ok(Nonce(old(nonceCounter), prefix)) && nonceCounter == old(nonceCounter) + 1
      ensures r.Ok? ==> |r.value| == NONCE_SIZE
    {
      var failures := spurious;
      while true
        invariant nonceCounter == old(nonceCounter) && Valid()
        decreases failures
      {
        var current := nonceCounter;
        if current == MAX {
          return Err(NonceExhausted);
        }
        if failures == 0 {
          var prev := current;
          nonceCounter := current + 1;
          return Ok(BigEndian(prev) + prefix);
        }
        failures := failures - 1;
      }
    }

    /** A nonce is used up whether or not the text can be sealed. */
    method Encrypt(plaintext: seq<Byte>, spurious: nat) returns (r: Result<Encrypted>)
      requires Valid()
      modifies this`nonceCounter
      ensures Valid()
      ensures old(nonceCounter) == MAX ==> r == Err(NonceExhausted) && nonceCounter == MAX
      ensures old(nonceCounter) < MAX ==>
                var nonce := Nonce(old(nonceCounter), prefix);
                && nonceCounter == old(nonceCounter) + 1
                && r == match cipher.seal(nonce, plaintext)
                        case Some(ciphertext) => Ok(Encrypted(ciphertext, nonce))
                        case None => Err(EncryptionFailed)
      ensures r.Ok? ==> |r.value.nonce| == NONCE_SIZE
    {
      var nonce := NextNonce(spurious);
      if nonce.Err? {
        return Err(nonce.error);
      }
      var ciphertext := cipher.seal(nonce.value, plaintext);
      if ciphertext.None? {
        return Err(EncryptionFailed);
      }
      r := Ok(Encrypted(ciphertext.value, nonce.value));
    }

    function Decrypt(ciphertext: seq<Byte>, nonce: seq<Byte>): Result<seq<Byte>> {
      DecryptWith(cipher, ciphertext, nonce)
    }
  }

  /** What one session encrypts, a session with the same key decrypts, whatever was sent in between. */
  method SendAndReceive(sender: Session, receiver: Session, plaintext: seq<Byte>, spurious: nat)
    returns (r: Result<seq<Byte>>)
    requires sender.Valid() && Opens(sender.cipher, receiver.cipher)
    modifies sender`nonceCounter
    ensures sender.Valid()
    ensures r == if old(sender.nonceCounter) == MAX then Err(NonceExhausted)
                 else if sender.cipher.seal(Nonce(old(sender.nonceCounter), sender.prefix), plaintext).None?
                 then Err(EncryptionFailed)
                 else Ok(plaintext)
  {
    var sent := sender.Encrypt(plaintext, spurious);
    if sent.Err? {
      return Err(sent.error);
    }
    r := receiver.Decrypt(sent.value.ciphertext, sent.value.nonce);
  }
}
