/**
 * The A5/1 cipher facade: it owns a register bank, a keystream buffer, the
 * history of bank snapshots taken during the last keystream generation, and
 * the transition statistics it feeds on every step.
 */
module Cipher {
  import opened Wrappers
  import opened Registers
  import opened Statistics

  /** Bitwise XOR of two equally long bit sequences. */
  function Xor(a: seq<bool>, b: seq<bool>): (r: seq<bool>)
    requires |a| == |b|
    ensures |r| == |a|
    ensures forall i :: 0 <= i < |r| ==> r[i] == (a[i] != b[i])
  {
    seq(|a|, i requires 0 <= i < |a| => a[i] != b[i])
  }

  /** Masking twice with the same keystream gives the data back. */
  lemma XorInvolutive(a: seq<bool>, b: seq<bool>)
    requires |a| == |b|
    ensures Xor(Xor(a, b), b) == a
  {
  }

  /** Bit `i` of the keystream from bank state `s`: the output of the step taken after `i` steps. */
  function KeyBit(s: BankState, i: nat): bool
    requires WellFormed(s)
  {
    OutputBit(Next(Advance(s, i)))
  }

  /**
   * The snapshots taken before each of `n` majority steps from `s`: snapshot `i` is the bank after `i` steps.
   * The `else` branch is never taken inside `seq(n, ...)`; it only makes the lambda total over `int`,
   * the shape `SeqExtends` takes.
   */
  function History(s: BankState, n: nat): seq<BankState>
    requires WellFormed(s)
  {
    seq(n, i => if 0 <= i then Advance(s, i) else s)
  }

  /**
   * The output bits of `n` majority steps from `s`, one `KeyBit` per step.
   * As in `History`, the `else` branch is never taken; it only makes the lambda total over `int`.
   */
  function Keystream(s: BankState, n: nat): seq<bool>
    requires WellFormed(s)
  {
    seq(n, i => if 0 <= i then KeyBit(s, i) else false)
  }

  /**
   * Before any `initialize` the bank holds zeros and the keystream is all
   * zeros: nothing guards against generating from an uninitialized cipher.
   */
  lemma UninitializedKeystream(n: nat)
    ensures Keystream(ZeroBank(), n) == Zeros(n)
  {
    var ks := Keystream(ZeroBank(), n);
    forall i | 0 <= i < n
      ensures ks[i] == Zeros(n)[i]
    {
      ZeroBankStaysZero(i);
      ZeroBankIsFixed();
      assert ks[i] == KeyBit(ZeroBank(), i) == OutputBit(ZeroBank());
    }
  }

  /**
   * A keystream buffer and a snapshot history that belong together: one
   * snapshot per bit, bit `i` is the output of the step taken from snapshot
   * `i`, and snapshot `i + 1` is the result of that step.
   */
  ghost predicate TraceMatches(ks: seq<bool>, h: seq<BankState>)
  {
    |ks| == |h| &&
    (forall i :: 0 <= i < |h| ==> WellFormed(h[i]) && ks[i] == OutputBit(Next(h[i]))) &&
    (forall i :: 0 <= i < |h| - 1 ==> WellFormed(h[i]) && h[i + 1] == Next(h[i]))
  }

  /** A generated keystream and its history always belong together. */
  lemma GeneratedTraceMatches(s: BankState, n: nat)
    requires WellFormed(s)
    ensures TraceMatches(Keystream(s, n), History(s, n))
  {
    var ks, h := Keystream(s, n), History(s, n);
    forall i | 0 <= i < |h| - 1
      ensures WellFormed(h[i]) && h[i + 1] == Next(h[i])
    {
      assert h[i + 1] == Advance(s, i + 1);
    }
  }

  /** A sequence built from `n + 1` values of `f` is the one built from `n` values, plus `f(n)`. */
  lemma SeqExtends<T>(n: nat, f: int -> T)
    ensures seq(n + 1, f) == seq(n, f) + [f(n)]
  {
    var longer, shorter := seq(n + 1, f), seq(n, f) + [f(n)];
    forall k | 0 <= k < n + 1
      ensures longer[k] == shorter[k]
    {
      if k < n {
        assert shorter[k] == seq(n, f)[k];
      }
    }
  }

  /** One more majority step extends the history by the state it started from. */
  lemma HistoryExtends(s: BankState, i: nat)
    requires WellFormed(s)
    ensures History(s, i + 1) == History(s, i) + [Advance(s, i)]
  {
    SeqExtends(i, k => if 0 <= k then Advance(s, k) else s);
  }

  /** One more majority step extends the keystream by that step's output bit. */
  lemma KeystreamExtends(s: BankState, i: nat)
    requires WellFormed(s)
    ensures Keystream(s, i + 1) == Keystream(s, i) + [OutputBit(Next(Advance(s, i)))]
  {
    SeqExtends(i, k => if 0 <= k then KeyBit(s, k) else false);
  }

  /** One more step of generation records exactly that step's transition. */
  lemma RecordedStep(tr: map<BankState, seq<BankState>>, fr: map<BankState, nat>, s: BankState, i: nat)
    requires WellFormed(s)
    ensures TransitionsAlong(tr, History(s, i + 2)) ==
      AddTransition(TransitionsAlong(tr, History(s, i + 1)), Advance(s, i), Advance(s, i + 1))
    ensures CountsAlong(fr, History(s, i + 2)) ==
      CountTransition(CountsAlong(fr, History(s, i + 1)), Advance(s, i), Advance(s, i + 1))
  {
    HistoryExtends(s, i + 1);
    var prefix := History(s, i + 1);
    assert prefix[i] == Advance(s, i);
    AlongAppend(tr, fr, prefix, Advance(s, i + 1));
  }

  /** `range(length)` runs no step for a negative length. */
  function StepCount(length: int): (n: nat)
    ensures length >= 0 ==> n == length
    ensures length < 0 ==> n == 0
  {
    if length < 0 then 0 else length
  }

  /** `A51Cipher`. */
  class A51Cipher {
    const bank: RegisterBank
    var keystream: seq<bool>
    var stateHistory: seq<BankState>
    const statistics: A51Statistics<BankState>

    ghost predicate Valid()
      reads this, bank.r1, bank.r2, bank.r3, statistics
    {
      bank.Valid() && statistics.Valid() && TraceMatches(keystream, stateHistory)
    }

    /**
     * The cipher after generating `n` keystream bits from bank state `s` with
     * the statistics tables at `tr` and `fr` beforehand.
     */
    ghost predicate GeneratedFrom(s: BankState, tr: map<BankState, seq<BankState>>, fr: map<BankState, nat>, n: nat)
      requires WellFormed(s)
      reads this, bank.r1, bank.r2, bank.r3, statistics
    {
      && bank.State() == Advance(s, n)
      && keystream == Keystream(s, n)
      && stateHistory == History(s, n)
      && statistics.transitions == TransitionsAlong(tr, History(s, n + 1))
      && statistics.frequency == CountsAlong(fr, History(s, n + 1))
    }

    /** A new cipher: zero registers, empty buffers, empty statistics. */
    constructor ()
      ensures Valid()
      ensures fresh(bank) && fresh(bank.r1) && fresh(bank.r2) && fresh(bank.r3) && fresh(statistics)
      ensures bank.State() == ZeroBank() && keystream == [] && stateHistory == []
      ensures statistics.transitions == map[] && statistics.frequency == map[]
    {
      bank := new RegisterBank();
      keystream := [];
      stateHistory := [];
      statistics := new A51Statistics();
    }

    /**
     * `initialize`: load key and frame into the bank, then clear the keystream
     * buffer and the history. A length error escapes before the clearing, so
     * the buffers keep their contents then. The statistics are never cleared.
     */
    method Initialize(key: seq<bool>, frame: seq<bool>) returns (err: Option<LoadError>)
      requires Valid()
      modifies this, bank.r1, bank.r2, bank.r3
      ensures Valid()
      ensures unchanged(statistics)
      ensures |key| != KeyBits ==> err == Some(KeyLength) && bank.State() == old(bank.State())
      ensures |key| == KeyBits && |frame| != 0 && |frame| != FrameBits ==>
        err == Some(FrameLength) && bank.State() == Load(ZeroBank(), key)
      ensures err.Some? ==> keystream == old(keystream) && stateHistory == old(stateHistory)
      ensures ValidInput(key, frame) ==>
        err == None && bank.State() == InitialState(key, frame) && keystream == [] && stateHistory == []
    {
      err := bank.InitializeKey(key, frame);
      if err.Some? {
        return;
      }
      keystream := [];
      stateHistory := [];
    }

    /**
     * One iteration of the generation loop: snapshot the bank into the
     * history, take a majority step, buffer its output bit and record the
     * transition from `previous` (the snapshot before the step) to the new
     * state, which is returned as the next `previous`.
     */
    method GenerateStep(previous: BankState, ghost s: BankState, ghost tr: map<BankState, seq<BankState>>,
                        ghost fr: map<BankState, nat>, ghost i: nat) returns (current: BankState)
      requires bank.Valid() && statistics.Valid() && WellFormed(s)
      requires GeneratedFrom(s, tr, fr, i) && previous == bank.State()
      modifies this, bank.r1, bank.r2, bank.r3, statistics
      ensures bank.Valid() && statistics.Valid()
      ensures GeneratedFrom(s, tr, fr, i + 1) && current == bank.State()
    {
      assert previous == Advance(s, i);
      stateHistory := stateHistory + [bank.State()];
      var bit := bank.ClockRegisters();
      current := bank.State();
      assert current == Next(previous);
      assert bit == OutputBit(current);
      keystream := keystream + [bit];
      HistoryExtends(s, i);
      KeystreamExtends(s, i);
      RecordedStep(tr, fr, s, i);
      statistics.RecordTransition(previous, current);
    }

    /**
     * `generate_keystream`: clear the buffer and the history, then run
     * `length` majority steps from wherever the bank stands. Before each step
     * the snapshot is appended to the history; the step's output bit is
     * appended to the buffer; the transition from the previous snapshot to the
     * new one is recorded with the statistics.
     */
    method GenerateKeystream(length: int) returns (ks: seq<bool>)
      requires Valid()
      modifies this, bank.r1, bank.r2, bank.r3, statistics
      ensures Valid()
      ensures old(bank.Valid()) && GeneratedFrom(old(bank.State()), old(statistics.transitions), old(statistics.frequency), StepCount(length))
      ensures |keystream| == |stateHistory| == StepCount(length)
      ensures ks == keystream
    {
      keystream := [];
      stateHistory := [];
      var n := StepCount(length);
      ghost var s := bank.State();
      ghost var transitions0, frequency0 := statistics.transitions, statistics.frequency;
      var previous := bank.State();
      var i := 0;
      while i < n
        invariant 0 <= i <= n
        invariant bank.Valid() && statistics.Valid()
        invariant GeneratedFrom(s, transitions0, frequency0, i) && previous == bank.State()
      {
        previous := GenerateStep(previous, s, transitions0, frequency0, i);
        i := i + 1;
      }
      GeneratedTraceMatches(s, n);
      ks := keystream;
    }

    /**
     * `encrypt_decrypt`: regenerate the keystream only when the message is
     * longer than the buffer, then XOR the message with the buffer's prefix.
     */
    method EncryptDecrypt(message: seq<bool>) returns (r: seq<bool>)
      requires Valid()
      modifies this, bank.r1, bank.r2, bank.r3, statistics
      ensures Valid()
      ensures |message| <= |keystream|
      ensures r == Xor(message, keystream[..|message|])
      ensures |message| <= old(|keystream|) ==>
        && keystream == old(keystream) && stateHistory == old(stateHistory)
        && bank.State() == old(bank.State()) && unchanged(statistics)
      ensures |message| > old(|keystream|) ==>
        old(bank.Valid()) && GeneratedFrom(old(bank.State()), old(statistics.transitions), old(statistics.frequency), |message|)
    {
      if |message| > |keystream| {
        var generated := GenerateKeystream(|message|);
      }
      r := Xor(message, keystream[..|message|]);
    }

    /** `get_state_history`: one snapshot per buffered keystream bit, each the state its bit was produced from. */
    function GetStateHistory(): (h: seq<BankState>)
      requires Valid()
      reads this, bank.r1, bank.r2, bank.r3, statistics
      ensures h == stateHistory
      ensures TraceMatches(keystream, h)
    {
      stateHistory
    }
  }

  /**
   * Encrypting and then decrypting the ciphertext gives the message back from
   * any cipher state: the second call finds the buffer long enough and reuses
   * the same prefix, so it does not clock the registers.
   */
  method EncryptThenDecrypt(cipher: A51Cipher, message: seq<bool>) returns (encrypted: seq<bool>, decrypted: seq<bool>)
    requires cipher.Valid()
    modifies cipher, cipher.bank.r1, cipher.bank.r2, cipher.bank.r3, cipher.statistics
    ensures cipher.Valid()
    ensures |encrypted| == |message| && decrypted == message
    ensures old(cipher.keystream) == [] ==>
      encrypted == Xor(message, Keystream(old(cipher.bank.State()), |message|))
  {
    ghost var start := cipher.bank.State();
    encrypted := cipher.EncryptDecrypt(message);
    assert old(cipher.keystream) == [] ==> cipher.keystream[..|message|] == Keystream(start, |message|);
    ghost var mask := cipher.keystream[..|message|];
    decrypted := cipher.EncryptDecrypt(encrypted);
    XorInvolutive(message, mask);
  }

  /**
   * The command-line flow: initialize, encrypt, decrypt. With a valid key and
   * frame the ciphertext is the message masked by the first bits of the
   * keystream of the initial state (so it depends on key, frame and message
   * only), and decryption gives the message back.
   */
  method InitializeAndRoundTrip(cipher: A51Cipher, key: seq<bool>, frame: seq<bool>, message: seq<bool>)
    returns (err: Option<LoadError>, encrypted: seq<bool>, decrypted: seq<bool>)
    requires cipher.Valid()
    modifies cipher, cipher.bank.r1, cipher.bank.r2, cipher.bank.r3, cipher.statistics
    ensures cipher.Valid()
    ensures ValidInput(key, frame) ==> err == None
    ensures err == None ==>
      && encrypted == Xor(message, Keystream(InitialState(key, frame), |message|))
      && decrypted == message
  {
    err := cipher.Initialize(key, frame);
    if err.Some? {
      return err, [], [];
    }
    encrypted, decrypted := EncryptThenDecrypt(cipher, message);
  }
}
