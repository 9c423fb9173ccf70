/**
 * The A5/1 register engine: a single linear feedback shift register (LFSR),
 * the bank of three registers with majority clock control, and the key/frame
 * loading routine.
 *
 * A register is a growable bit sequence. Index 0 is the input end, where
 * feedback bits enter; the last index is the output end. Taps and clock-control
 * bits are fixed indices counted from the input end, so they keep their
 * meaning when a register is longer than its configured size.
 */
module Registers {
  import opened Wrappers

  // The fixed configuration of the three registers.
  const R1Size: nat := 19
  const R2Size: nat := 22
  const R3Size: nat := 23
  const R1Taps: seq<nat> := [13, 16, 17, 18]
  const R2Taps: seq<nat> := [20, 21]
  const R3Taps: seq<nat> := [7, 20, 21, 22]
  const R1ClockBit: nat := 8
  const R2ClockBit: nat := 10
  const R3ClockBit: nat := 10

  // Lengths demanded of the loading material, and the number of warm-up steps.
  const KeyBits: nat := 64
  const FrameBits: nat := 22
  const WarmUpSteps: nat := 100

  /** The two length errors `initialize_key` raises (as ValueError). */
  datatype LoadError = KeyLength | FrameLength

  // ---------------------------------------------------------------------
  // One register, as a value
  // ---------------------------------------------------------------------

  /** A register of `n` zero bits. */
  function Zeros(n: nat): (z: seq<bool>)
    ensures |z| == n
    ensures forall i :: 0 <= i < n ==> !z[i]
  {
    seq(n, _ => false)
  }

  /** Every tap position indexes into `reg`. */
  predicate TapsFit(reg: seq<bool>, taps: seq<nat>)
  {
    forall i :: 0 <= i < |taps| ==> taps[i] < |reg|
  }

  /** XOR of the bits at the tap positions, folded left to right. */
  function Feedback(reg: seq<bool>, taps: seq<nat>): bool
    requires TapsFit(reg, taps)
  {
    if taps == [] then false
    else Feedback(reg, taps[..|taps| - 1]) != reg[taps[|taps| - 1]]
  }

  /**
   * Feedback read through a bit inserted at the input end equals feedback read
   * at positions one lower on the register without that bit: the inserted bit
   * takes no part in it when no tap is at index 0.
   */
  lemma {:induction false} FeedbackAfterInsert(reg: seq<bool>, b: bool, taps: seq<nat>, lower: seq<nat>)
    requires |taps| == |lower|
    requires forall i :: 0 <= i < |taps| ==> taps[i] == lower[i] + 1
    requires TapsFit(reg, lower)
    ensures TapsFit([b] + reg, taps)
    ensures Feedback([b] + reg, taps) == Feedback(reg, lower)
  {
    if taps != [] {
      var k := |taps| - 1;
      FeedbackAfterInsert(reg, b, taps[..k], lower[..k]);
      assert ([b] + reg)[taps[k]] == reg[lower[k]];
    }
  }

  /**
   * One clock of a single register: the feedback of the old bits enters at
   * index 0, every other bit moves one place toward the output end, and the
   * old last bit is dropped.
   */
  function Step(reg: seq<bool>, taps: seq<nat>): (r: seq<bool>)
    requires |reg| > 0 && TapsFit(reg, taps)
    ensures |r| == |reg|
  {
    [Feedback(reg, taps)] + reg[..|reg| - 1]
  }

  /**
   * `clock` keeps the register length; the new bit 0 is the XOR of the old tap
   * bits, every other bit is the old bit one place nearer the input end, and
   * the old last bit is gone.
   */
  lemma StepShifts(reg: seq<bool>, taps: seq<nat>, i: nat)
    requires |reg| > 0 && TapsFit(reg, taps)
    requires i < |reg|
    ensures |Step(reg, taps)| == |reg|
    ensures Step(reg, taps)[i] == if i == 0 then Feedback(reg, taps) else reg[i - 1]
  {
  }

  // ---------------------------------------------------------------------
  // The bank, as a value
  // ---------------------------------------------------------------------

  /** A snapshot of the three registers, as `RegisterBank.get_state` reports it. */
  datatype BankState = BankState(r1: seq<bool>, r2: seq<bool>, r3: seq<bool>)

  /** Each register is at least as long as its configured size. */
  predicate WellFormed(s: BankState)
  {
    |s.r1| >= R1Size && |s.r2| >= R2Size && |s.r3| >= R3Size
  }

  /** Every register of a well-formed bank has room for its taps. */
  lemma TapsFitBank(s: BankState)
    requires WellFormed(s)
    ensures TapsFit(s.r1, R1Taps) && TapsFit(s.r2, R2Taps) && TapsFit(s.r3, R3Taps)
  {
  }

  /** The bank right after the reset in `initialize_key`: all bits zero. */
  function ZeroBank(): (s: BankState)
    ensures WellFormed(s)
    ensures |s.r1| == R1Size && |s.r2| == R2Size && |s.r3| == R3Size
  {
    BankState(Zeros(R1Size), Zeros(R2Size), Zeros(R3Size))
  }

  /** Same register lengths. */
  predicate SameLengths(s: BankState, t: BankState)
  {
    |s.r1| == |t.r1| && |s.r2| == |t.r2| && |s.r3| == |t.r3|
  }

  /** The majority of three bits (`sum(bits) >= 2`): true exactly when at least two of them are true. */
  function Majority(a: bool, b: bool, c: bool): (m: bool)
    ensures m <==> (a && b) || (a && c) || (b && c)
  {
    (if a then 1 else 0) + (if b then 1 else 0) + (if c then 1 else 0) >= 2
  }

  /** At least two of the three bits always equal their majority. */
  lemma MajorityAgrees(a: bool, b: bool, c: bool)
    ensures var m := Majority(a, b, c);
      (a == m && b == m) || (a == m && c == m) || (b == m && c == m)
  {
  }

  /** The majority of the three clock-control bits. */
  function MajorityOf(s: BankState): bool
    requires WellFormed(s)
  {
    Majority(s.r1[R1ClockBit], s.r2[R2ClockBit], s.r3[R3ClockBit])
  }

  // Whether each register advances in the majority step from `s`.
  predicate Clocks1(s: BankState) requires WellFormed(s) { s.r1[R1ClockBit] == MajorityOf(s) }
  predicate Clocks2(s: BankState) requires WellFormed(s) { s.r2[R2ClockBit] == MajorityOf(s) }
  predicate Clocks3(s: BankState) requires WellFormed(s) { s.r3[R3ClockBit] == MajorityOf(s) }

  /** The majority-clock step: each register whose clock bit equals the majority is clocked. */
  function Next(s: BankState): (t: BankState)
    requires WellFormed(s)
    ensures WellFormed(t) && SameLengths(s, t)
  {
    TapsFitBank(s);
    BankState(if Clocks1(s) then Step(s.r1, R1Taps) else s.r1,
              if Clocks2(s) then Step(s.r2, R2Taps) else s.r2,
              if Clocks3(s) then Step(s.r3, R3Taps) else s.r3)
  }

  /** The output bit: XOR of the three registers' last bits. */
  function OutputBit(s: BankState): bool
    requires WellFormed(s)
  {
    (s.r1[|s.r1| - 1] != s.r2[|s.r2| - 1]) != s.r3[|s.r3| - 1]
  }

  /** How many registers advance in the majority step from `s`. */
  function ClockedCount(s: BankState): nat
    requires WellFormed(s)
  {
    (if Clocks1(s) then 1 else 0) + (if Clocks2(s) then 1 else 0) + (if Clocks3(s) then 1 else 0)
  }

  /**
   * In every majority step two or three registers advance (never none, never
   * exactly one); a register advances exactly when its own clock bit equals the
   * majority, one that advances is clocked once, and one that does not is
   * left as it was.
   */
  lemma NextClocksMajority(s: BankState)
    requires WellFormed(s)
    ensures 2 <= ClockedCount(s) <= 3
    ensures TapsFit(s.r1, R1Taps) && TapsFit(s.r2, R2Taps) && TapsFit(s.r3, R3Taps)
    ensures Next(s).r1 == (if Clocks1(s) then Step(s.r1, R1Taps) else s.r1)
    ensures Next(s).r2 == (if Clocks2(s) then Step(s.r2, R2Taps) else s.r2)
    ensures Next(s).r3 == (if Clocks3(s) then Step(s.r3, R3Taps) else s.r3)
  {
    TapsFitBank(s);
    MajorityAgrees(s.r1[R1ClockBit], s.r2[R2ClockBit], s.r3[R3ClockBit]);
  }

  /** `n` majority steps from `s`; lengths never change. */
  function Advance(s: BankState, n: nat): (t: BankState)
    requires WellFormed(s)
    ensures WellFormed(t) && SameLengths(s, t)
  {
    if n == 0 then s else Next(Advance(s, n - 1))
  }

  /** No tap picks up a one from a register of zeros. */
  lemma {:induction false} FeedbackOfZeros(n: nat, taps: seq<nat>)
    requires TapsFit(Zeros(n), taps)
    ensures !Feedback(Zeros(n), taps)
  {
    if taps != [] {
      FeedbackOfZeros(n, taps[..|taps| - 1]);
    }
  }

  /** Clocking a register of zeros leaves it a register of zeros of the same length. */
  lemma StepOfZeros(n: nat, taps: seq<nat>)
    requires n > 0 && TapsFit(Zeros(n), taps)
    ensures Step(Zeros(n), taps) == Zeros(n)
  {
    FeedbackOfZeros(n, taps);
    assert Step(Zeros(n), taps) == [false] + Zeros(n)[..n - 1];
  }

  /**
   * The all-zero bank that a new `RegisterBank` holds is a fixed point of the
   * majority step: with every clock bit zero all three registers advance, and
   * each feeds back a zero. Its output bit is zero.
   */
  lemma ZeroBankIsFixed()
    ensures Next(ZeroBank()) == ZeroBank()
    ensures !OutputBit(ZeroBank())
  {
    TapsFitBank(ZeroBank());
    StepOfZeros(R1Size, R1Taps);
    StepOfZeros(R2Size, R2Taps);
    StepOfZeros(R3Size, R3Taps);
  }

  /** However many majority steps are taken from the all-zero bank, it stays all zero. */
  lemma {:induction false} ZeroBankStaysZero(n: nat)
    ensures Advance(ZeroBank(), n) == ZeroBank()
  {
    if n > 0 {
      ZeroBankStaysZero(n - 1);
      ZeroBankIsFixed();
    }
  }

  /** The same bit inserted at the input end of all three registers. */
  function Prepend(s: BankState, b: bool): BankState
  {
    BankState([b] + s.r1, [b] + s.r2, [b] + s.r3)
  }

  /** `clock_all`: every register clocked once, regardless of the majority. */
  function StepAll(s: BankState): (t: BankState)
    requires WellFormed(s)
    ensures WellFormed(t) && SameLengths(s, t)
  {
    TapsFitBank(s);
    BankState(Step(s.r1, R1Taps), Step(s.r2, R2Taps), Step(s.r3, R3Taps))
  }

  /** Loading one key or frame bit: insert it at index 0, then `clock_all`. */
  function LoadBit(s: BankState, b: bool): BankState
    requires WellFormed(s)
  {
    StepAll(Prepend(s, b))
  }

  /**
   * Loading one bit lengthens every register by one. The loaded bit lands
   * verbatim at index 1; index 0 receives the feedback of the register before
   * the insertion read at the tap positions one lower, so the loaded bit is
   * not XORed into the feedback.
   *
   * This departs from standard A5/1 loading, which keeps each register at its
   * width and feeds `bit XOR feedback` into index 0.
   */
  lemma LoadBitShape(s: BankState, b: bool)
    requires WellFormed(s)
    ensures TapsFit(s.r1, [12, 15, 16, 17]) && TapsFit(s.r2, [19, 20]) && TapsFit(s.r3, [6, 19, 20, 21])
    ensures LoadBit(s, b).r1 == [Feedback(s.r1, [12, 15, 16, 17]), b] + s.r1[..|s.r1| - 1]
    ensures LoadBit(s, b).r2 == [Feedback(s.r2, [19, 20]), b] + s.r2[..|s.r2| - 1]
    ensures LoadBit(s, b).r3 == [Feedback(s.r3, [6, 19, 20, 21]), b] + s.r3[..|s.r3| - 1]
  {
    StepAfterInsert(s.r1, b, R1Taps, [12, 15, 16, 17]);
    StepAfterInsert(s.r2, b, R2Taps, [19, 20]);
    StepAfterInsert(s.r3, b, R3Taps, [6, 19, 20, 21]);
  }

  /** One register's share of `LoadBitShape`. */
  lemma StepAfterInsert(reg: seq<bool>, b: bool, taps: seq<nat>, lower: seq<nat>)
    requires |reg| > 0
    requires |taps| == |lower|
    requires forall i :: 0 <= i < |taps| ==> taps[i] == lower[i] + 1
    requires TapsFit(reg, lower)
    ensures TapsFit([b] + reg, taps)
    ensures Step([b] + reg, taps) == [Feedback(reg, lower), b] + reg[..|reg| - 1]
  {
    FeedbackAfterInsert(reg, b, taps, lower);
    assert ([b] + reg)[..|reg|] == [b] + reg[..|reg| - 1];
  }

  /**
   * Loading a sequence of bits in order. Each loaded bit lengthens every
   * register by exactly one (a deviation from width-preserving A5/1 loading).
   */
  function Load(s: BankState, bits: seq<bool>): (t: BankState)
    requires WellFormed(s)
    ensures WellFormed(t)
    ensures |t.r1| == |s.r1| + |bits| && |t.r2| == |s.r2| + |bits| && |t.r3| == |s.r3| + |bits|
    decreases |bits|
  {
    if bits == [] then s
    else LoadBit(Load(s, bits[..|bits| - 1]), bits[|bits| - 1])
  }

  /** The key and frame `initialize_key` accepts; an empty frame means no frame. */
  predicate ValidInput(key: seq<bool>, frame: seq<bool>)
  {
    |key| == KeyBits && (|frame| == 0 || |frame| == FrameBits)
  }

  /** The bank after a successful `initialize_key(key, frame)`. */
  function InitialState(key: seq<bool>, frame: seq<bool>): BankState
  {
    Advance(Load(Load(ZeroBank(), key), frame), WarmUpSteps)
  }

  /**
   * After loading, R1/R2/R3 hold 83/86/87 bits without a frame and
   * 105/108/109 with one, instead of the configured 19/22/23: a deviation from
   * width-preserving A5/1 loading. The warm-up steps do not change them.
   */
  lemma InitialStateLengths(key: seq<bool>, frame: seq<bool>)
    requires ValidInput(key, frame)
    ensures var s := InitialState(key, frame);
      |s.r1| == R1Size + KeyBits + |frame| && |s.r2| == R2Size + KeyBits + |frame| && |s.r3| == R3Size + KeyBits + |frame|
    ensures frame == [] ==> SameLengths(InitialState(key, frame), BankState(Zeros(83), Zeros(86), Zeros(87)))
    ensures frame != [] ==> SameLengths(InitialState(key, frame), BankState(Zeros(105), Zeros(108), Zeros(109)))
  {
  }

  // ---------------------------------------------------------------------
  // The objects
  // ---------------------------------------------------------------------

  /** One register, updated in place. */
  class LFSR {
    const size: nat
    const taps: seq<nat>
    const clockBit: nat
    var register: seq<bool>

    /** The configuration indexes inside the configured size, and the register never shrank below it. */
    ghost predicate Valid()
      reads this
    {
      0 < size <= |register| && clockBit < size &&
      forall i :: 0 <= i < |taps| ==> taps[i] < size
    }

    /** A new register holds exactly `size` zero bits. */
    constructor (size: nat, taps: seq<nat>, clockBit: nat)
      ensures this.size == size && this.taps == taps && this.clockBit == clockBit
      ensures register == Zeros(size)
      ensures 0 < size && clockBit < size && (forall i :: 0 <= i < |taps| ==> taps[i] < size) ==> Valid()
    {
      this.size := size;
      this.taps := taps;
      this.clockBit := clockBit;
      register := Zeros(size);
    }

    /** `clock`: fold the taps into the feedback bit, drop the last bit, insert the feedback at index 0. */
    method Clock()
      requires Valid()
      modifies this
      ensures Valid()
      ensures register == Step(old(register), taps)
    {
      var feedback := false;
      var i := 0;
      while i < |taps|
        invariant 0 <= i <= |taps|
        invariant TapsFit(register, taps[..i])
        invariant feedback == Feedback(register, taps[..i])
      {
        assert taps[..i + 1][..i] == taps[..i];
        feedback := feedback != register[taps[i]];
        i := i + 1;
      }
      assert taps[..i] == taps;
      register := [feedback] + register[..|register| - 1];
    }

    /** `get_clock_bit`: the bit at the fixed clock-control index. */
    function ClockBit(): (b: bool)
      requires clockBit < |register|
      reads this
      ensures b == register[clockBit]
    {
      register[clockBit]
    }

    /** `get_output_bit`: always the last bit, however long the register has grown. */
    function OutputBit(): (b: bool)
      requires |register| > 0
      reads this
      ensures b == register[|register| - 1]
    {
      register[|register| - 1]
    }
  }

  /** The three registers R1, R2, R3 with their fixed configuration. */
  class RegisterBank {
    const r1: LFSR
    const r2: LFSR
    const r3: LFSR

    ghost predicate Valid()
      reads r1, r2, r3
      ensures Valid() ==> WellFormed(State())
    {
      r1 != r2 && r1 != r3 && r2 != r3 &&
      r1.size == R1Size && r1.taps == R1Taps && r1.clockBit == R1ClockBit &&
      r2.size == R2Size && r2.taps == R2Taps && r2.clockBit == R2ClockBit &&
      r3.size == R3Size && r3.taps == R3Taps && r3.clockBit == R3ClockBit &&
      r1.Valid() && r2.Valid() && r3.Valid()
    }

    /** `get_state`: the three registers' bits, input end first. */
    function State(): (s: BankState)
      reads r1, r2, r3
      ensures s.r1 == r1.register && s.r2 == r2.register && s.r3 == r3.register
    {
      BankState(r1.register, r2.register, r3.register)
    }

    /** A new bank holds zero registers of sizes 19, 22 and 23. */
    constructor ()
      ensures Valid() && fresh(r1) && fresh(r2) && fresh(r3)
      ensures State() == ZeroBank()
    {
      r1 := new LFSR(R1Size, R1Taps, R1ClockBit);
      r2 := new LFSR(R2Size, R2Taps, R2ClockBit);
      r3 := new LFSR(R3Size, R3Taps, R3ClockBit);
    }

    /** `get_majority`: the majority of the three clock-control bits. */
    function GetMajority(): (m: bool)
      requires Valid()
      reads r1, r2, r3
      ensures m == MajorityOf(State())
      ensures m <==> (r1.ClockBit() && r2.ClockBit()) || (r1.ClockBit() && r3.ClockBit()) || (r2.ClockBit() && r3.ClockBit())
    {
      Majority(r1.ClockBit(), r2.ClockBit(), r3.ClockBit())
    }

    /** The XOR of the three registers' output bits. */
    function Output(): (b: bool)
      requires Valid()
      reads r1, r2, r3
      ensures b == OutputBit(State())
    {
      (r1.OutputBit() != r2.OutputBit()) != r3.OutputBit()
    }

    /** `clock_all`: clock every register once. */
    method ClockAll()
      requires Valid()
      modifies r1, r2, r3
      ensures Valid()
      ensures State() == StepAll(old(State()))
    {
      r1.Clock();
      r2.Clock();
      r3.Clock();
    }

    /**
     * `clock_registers`: clock each register whose clock bit equals the
     * majority, then return the XOR of the three last bits read after clocking.
     */
    method ClockRegisters() returns (bit: bool)
      requires Valid()
      modifies r1, r2, r3
      ensures Valid()
      ensures State() == Next(old(State()))
      ensures bit == OutputBit(State())
    {
      ghost var s := State();
      NextClocksMajority(s);
      var majority := GetMajority();
      if r1.ClockBit() == majority {
        r1.Clock();
      }
      assert r1.register == Next(s).r1;
      if r2.ClockBit() == majority {
        r2.Clock();
      }
      assert r2.register == Next(s).r2;
      if r3.ClockBit() == majority {
        r3.Clock();
      }
      assert r3.register == Next(s).r3;
      bit := Output();
    }

    /** Insert `b` at index 0 of every register, then `clock_all`. */
    method LoadBitInPlace(b: bool)
      requires Valid()
      modifies r1, r2, r3
      ensures Valid()
      ensures State() == LoadBit(old(State()), b)
    {
      r1.register := [b] + r1.register;
      r2.register := [b] + r2.register;
      r3.register := [b] + r3.register;
      ClockAll();
    }

    /** The loading loop of `initialize_key`: load each bit of `bits` in order. */
    method LoadBits(bits: seq<bool>)
      requires Valid()
      modifies r1, r2, r3
      ensures Valid()
      ensures State() == Load(old(State()), bits)
    {
      ghost var start := State();
      var i := 0;
      while i < |bits|
        invariant 0 <= i <= |bits|
        invariant Valid()
        invariant State() == Load(start, bits[..i])
      {
        assert bits[..i + 1][..i] == bits[..i];
        LoadBitInPlace(bits[i]);
        i := i + 1;
      }
      assert bits[..i] == bits;
    }

    /** The warm-up loop of `initialize_key`: `n` majority steps, outputs discarded. */
    method WarmUp(n: nat)
      requires Valid()
      modifies r1, r2, r3
      ensures Valid()
      ensures State() == Advance(old(State()), n)
    {
      ghost var start := State();
      var k := 0;
      while k < n
        invariant 0 <= k <= n
        invariant Valid()
        invariant State() == Advance(start, k)
      {
        var discarded := ClockRegisters();
        k := k + 1;
      }
    }

    /**
     * `initialize_key`. A key that is not 64 bits long is refused before any
     * register is touched. Otherwise the registers are reset to zeros and the
     * key is loaded; then a non-empty frame that is not 22 bits long is refused,
     * leaving the key-loaded registers in place. Otherwise the frame (if any)
     * is loaded and 100 majority steps are run. The final state depends on the
     * key and frame only.
     */
    method InitializeKey(key: seq<bool>, frame: seq<bool>) returns (err: Option<LoadError>)
      requires Valid()
      modifies r1, r2, r3
      ensures Valid()
      ensures |key| != KeyBits ==> err == Some(KeyLength) && State() == old(State())
      ensures |key| == KeyBits && |frame| != 0 && |frame| != FrameBits ==>
        err == Some(FrameLength) && State() == Load(ZeroBank(), key)
      ensures ValidInput(key, frame) ==> err == None && State() == InitialState(key, frame)
    {
      if |key| != KeyBits {
        return Some(KeyLength);
      }
      r1.register := Zeros(R1Size);
      r2.register := Zeros(R2Size);
      r3.register := Zeros(R3Size);
      LoadBits(key);
      if |frame| != 0 {
        if |frame| != FrameBits {
          return Some(FrameLength);
        }
        LoadBits(frame);
      }
      WarmUp(WarmUpSteps);
      err := None;
    }
  }
}
