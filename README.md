# A5/1 stream cipher with majority clocking: a verified model

This project models the register engine of a Python implementation of A5/1, the GSM voice cipher, together with the cipher façade and the transition-statistics table the façade feeds.

- **`Registers`** (`registers.dfy`) covers the register engine.
  - `LFSR` is a linear feedback shift register held as a growable bit sequence. Its `Clock` drops the last bit and inserts, at index 0, the XOR of the bits at the tap positions.
  - `RegisterBank` holds the three registers R1, R2 and R3. Their sizes are 19/22/23, their taps [13,16,17,18]/[20,21]/[7,20,21,22], and their clock-control bits 8/10/10.
  - The bank offers the majority vote, the majority-clocked step with its output bit, the unconditional `clock_all`, and `initialize_key`.
  - `initialize_key` is key loading, optional frame loading and 100 warm-up steps.
  - Every method is proved against a pure function on `BankState` snapshots: `Step`, `StepAll`, `Next`, `Advance`, `Load` and `InitialState`.
- **`Statistics`** (`statistics.dfy`) covers `A51Statistics`. It keeps an adjacency list from each state to the states that followed it, and a count of how often each state took part in a transition. Both are maps updated in place.
- **`Cipher`** (`cipher.dfy`) covers `A51Cipher`. It owns a bank, a keystream buffer, the history of snapshots taken during the last generation, and the statistics object.
  - Generation is proved against `Keystream` and `History`.
  - It also reports one transition per step, proved against `TransitionsAlong` and `CountsAlong`.
  - Encryption is XOR with a prefix of the buffer.
- **`Wrappers`** (`wrappers.dfy`) holds the `Option` type used for the two length errors of `initialize_key`.

Registers are sequences whose index 0 is the input end and whose last index is the output end. Tap and clock-bit positions are fixed indices counted from the input end.

The loading routine is modelled as the code writes it. Each key or frame bit is inserted at index 0, and then every register is clocked once. That clock's pop/insert pair keeps the length, so each loaded bit lengthens every register by one. After `initialize_key`, R1/R2/R3 hold 83/86/87 bits, or 105/108/109 bits with a frame. The loaded bit is not XORed into the feedback.

This departs from standard A5/1, which keeps the widths at 19/22/23 and feeds `bit XOR feedback` into index 0. The model follows the code rather than the standard, and `LoadBitShape` and `InitialStateLengths` state the deviation.

## Model

| member | source | states |
|---|---|---|
| Registers.LFSR.constructor | src/core/registers.py:5-17 | a new register holds exactly `size` zero bits and keeps the given taps and clock-bit index |
| Registers.LFSR.Clock | src/core/registers.py:19-27 | the register becomes `Step(old register, taps)`: the tap bits are folded by XOR in order, the last bit is dropped and the feedback enters at index 0 |
| Registers.StepShifts | src/core/registers.py:19-27 | a clock keeps the length; new bit 0 is the XOR of the old tap bits, and new bit `i > 0` is old bit `i - 1` |
| Registers.LFSR.ClockBit | src/core/registers.py:29-31 | the clock-control bit is the bit at the fixed clock index |
| Registers.LFSR.OutputBit | src/core/registers.py:33-35 | the output bit is always the last bit, however long the register is |
| Registers.RegisterBank.constructor | src/core/registers.py:42-46 | a new bank holds zero registers of sizes 19, 22 and 23 with the fixed configuration |
| Registers.RegisterBank.State | src/core/registers.py:126-132 | the snapshot is the three registers' current bits |
| Registers.ZeroBank | src/core/registers.py:60-63 | the reset bank is well formed, with registers of exactly 19, 22 and 23 zero bits |
| Registers.Majority | src/core/registers.py:117-124 | the majority is true exactly when at least two of the three bits are true |
| Registers.MajorityAgrees | src/core/registers.py:117-124 | at least two of the three bits always equal their majority |
| Registers.RegisterBank.GetMajority | src/core/registers.py:117-124 | `get_majority` is the majority of the three registers' clock bits |
| Registers.NextClocksMajority | src/core/registers.py:96-104 | in a majority step a register clocks exactly when its own clock bit equals the majority; two or three registers advance, never none or one; a register that does not advance is unchanged |
| Registers.Next | src/core/registers.py:96-104 | a majority step keeps every register's length |
| Registers.RegisterBank.Output | src/core/registers.py:107-109 | the bank's output is the XOR of the three registers' last bits |
| Registers.RegisterBank.ClockRegisters | src/core/registers.py:90-109 | the bank takes the majority step `Next` of its old state, and the returned bit is the output XOR read after the clocking |
| Registers.StepAll | src/core/registers.py:111-115 | clocking every register keeps every length |
| Registers.RegisterBank.ClockAll | src/core/registers.py:111-115 | the bank becomes `StepAll` of its old state: each register clocked once, whatever the majority |
| Registers.LoadBitShape | src/core/registers.py:66-71 | loading one bit lengthens each register by one, puts the bit unchanged at index 1, and puts at index 0 the feedback of the pre-insertion register at tap positions one lower (a deviation from standard A5/1) |
| Registers.Load | src/core/registers.py:66-84 | loading `k` bits lengthens every register by exactly `k` |
| Registers.RegisterBank.LoadBitInPlace | src/core/registers.py:67-71 | inserting a bit in every register and then `clock_all` gives `LoadBit` of the old state |
| Registers.RegisterBank.LoadBits | src/core/registers.py:66-71 | the loading loop leaves the bank at `Load(old state, bits)` |
| Registers.Advance | src/core/registers.py:87-88 | any number of majority steps keeps every register's length |
| Registers.RegisterBank.WarmUp | src/core/registers.py:87-88 | `n` majority steps with discarded outputs leave the bank at `Advance(old state, n)` |
| Registers.InitialStateLengths | src/core/registers.py:60-88 | after initialization R1/R2/R3 hold size + 64 bits (83/86/87), or size + 86 bits (105/108/109) with a frame; the warm-up keeps them |
| Registers.RegisterBank.InitializeKey | src/core/registers.py:48-88 | a key of the wrong length is refused before any register changes; a non-empty frame of the wrong length is refused after the reset and key loading; an empty frame skips frame loading; a valid key and frame give `InitialState(key, frame)`, a function of key and frame alone |
| Registers.ZeroBankIsFixed | src/core/registers.py:96-109 | the all-zero bank is a fixed point of the majority step, and its output bit is zero |
| Registers.ZeroBankStaysZero | src/core/registers.py:96-109 | any number of majority steps leaves the all-zero bank all zero |
| Statistics.AddTransitionEffect | src/analysis/statistics.py:11-13 | recording `f -> t` appends `t` at the end of the list of `f` (empty if `f` is new), adds `f` to the keys and leaves every other list alone |
| Statistics.CountTransitionEffect | src/analysis/statistics.py:15-21 | recording `f -> t` raises the counts of `f` and `t` by one each, by two when `f == t`, and leaves every other count alone |
| Statistics.RecordKeepsConsistent | src/analysis/statistics.py:11-21 | every state with a successor list stays counted at least as often as its list is long |
| Statistics.SumBump | src/analysis/statistics.py:16-21 | one counter increment raises the sum of all counts by exactly one |
| Statistics.EntriesAfterAdd | src/analysis/statistics.py:11-13 | one recorded transition adds exactly one adjacency entry in all |
| Statistics.SumAfterCount | src/analysis/statistics.py:15-21 | one recorded transition adds exactly two to the sum of all counts |
| Statistics.AlongAppend | src/core/cipher.py:32-34 | extending a path of states by one records one more transition, from its old last state to the new one |
| Statistics.AlongTotals | src/analysis/statistics.py:6-21 | recording the `n` transitions of a path adds `n` adjacency entries and `2n` to the count sum, and keeps the tables consistent |
| Statistics.A51Statistics.constructor | src/analysis/statistics.py:2-4 | both tables start empty |
| Statistics.A51Statistics.RecordTransition | src/analysis/statistics.py:6-21 | the tables become `AddTransition` and `CountTransition` of the old tables, and stay consistent |
| Statistics.A51Statistics.StateTransitions | src/analysis/statistics.py:23-24 | returns the stored adjacency table, consistent with the counts |
| Statistics.A51Statistics.GetFrequency | src/analysis/statistics.py:26-27 | returns the stored counts, covering every state that has a successor list |
| Cipher.Xor | src/core/cipher.py:49 | the result is as long as the message and bit `i` is `m[i] XOR k[i]` |
| Cipher.XorInvolutive | src/core/cipher.py:41-49 | masking twice with the same keystream gives the message back |
| Cipher.StepCount | src/core/cipher.py:27 | `range(length)` runs `length` steps, and none when `length` is negative |
| Cipher.UninitializedKeystream | src/core/cipher.py:21-36 | from the all-zero bank of a cipher never initialized, the keystream is all zeros |
| Cipher.GeneratedTraceMatches | src/core/cipher.py:27-30 | snapshot `i` is the state before step `i`, bit `i` is that step's output, and snapshot `i + 1` is the result of that step |
| Cipher.HistoryExtends | src/core/cipher.py:28 | one more step appends the state it started from to the history |
| Cipher.KeystreamExtends | src/core/cipher.py:29-30 | one more step appends its output bit to the keystream |
| Cipher.RecordedStep | src/core/cipher.py:32-34 | one more step records exactly one transition, from the state before it to the state after it |
| Cipher.A51Cipher.constructor | src/core/cipher.py:8-12 | a new cipher has zero registers, empty buffers and empty statistics |
| Cipher.A51Cipher.Initialize | src/core/cipher.py:15-19 | a valid key and frame leave the bank at `InitialState` and the buffer and history empty; a length error leaves the buffer and history as they were; the statistics are never cleared |
| Cipher.A51Cipher.GenerateStep | src/core/cipher.py:28-34 | one loop iteration extends history, keystream and statistics by one step |
| Cipher.A51Cipher.GenerateKeystream | src/core/cipher.py:21-36 | the old buffer and history are discarded; clocking continues from the current bank state; buffer and history have `length` entries each and equal `Keystream` and `History` of the old bank state; the statistics gain one transition per step on top of what they held |
| Cipher.A51Cipher.EncryptDecrypt | src/core/cipher.py:41-49 | the result is the message XOR the buffer's prefix; the keystream is regenerated only when the message is longer than the buffer, and otherwise bank, buffer, history and statistics are unchanged |
| Cipher.A51Cipher.GetStateHistory | src/core/cipher.py:51-53 | returns the history, which matches the buffered keystream step by step |
| Cipher.EncryptThenDecrypt | src/core/cipher.py:41-49 | decrypting the ciphertext gives the message back from any cipher state; from an empty buffer the ciphertext is the message XOR the keystream of the current bank state |
| Cipher.InitializeAndRoundTrip | main.py:43-53 | after a successful initialization the ciphertext is the message XOR the first bits of the keystream of `InitialState(key, frame)`, and decryption returns the message |

## Left out

- Parsing keys, frames and messages from `'0'`/`'1'` strings is left out: they are bit sequences here, so the error for a non-binary character does not appear.
- `get_state` returns the register contents as `BankState` values, not as a dictionary of strings.
- The statistics keys are `BankState` values rather than the `str()` of the state dictionary. That conversion is injective, so the tables have the same shape.
- Registers.RegisterBank.State: `LFSR.get_state` is folded into the bank snapshot rather than modelled on its own.
- Registers.LFSR.Clock: requires a configuration whose taps fit in the register. The `IndexError` a misconfigured register would raise is not modelled; the bank only ever uses the fixed configuration.
- Registers.LFSR.ClockBit and Registers.LFSR.OutputBit: require the index to exist. Python's `IndexError` and negative indexing are not modelled.
- Statistics.A51Statistics.StateTransitions and Statistics.A51Statistics.GetFrequency: return map values. Python hands out the stored dictionaries themselves, and later mutation through such an alias is not expressible with Dafny maps.
- Statistics.A51Statistics.RecordTransition: the tables are Dafny maps, which have no key order. Python's dictionaries keep their keys in first-seen order, `state_transitions()` exposes that order, and the visualizer keeps only the first `max_nodes` from-states in it. The model does not state which states come first.
- Cipher.A51Cipher.GenerateKeystream: returns the buffer's value. Python returns the buffer object itself, so a later `generate_keystream`, or an `encrypt_decrypt` that regenerates, clears and refills what the caller holds. That aliasing is not captured.
- Cipher.A51Cipher.GetStateHistory: returns the history's value. Python returns the live list, which a later generation clears and refills under the caller. That aliasing is not captured.
- `generate_state_transition_graph` and the visualizer are left out, because they are networkx and matplotlib rendering.
- The Tkinter interface and the command-line I/O are left out. The command-line flow itself appears as `InitializeAndRoundTrip`.
- No concrete keystream vectors are stated: the keystream is given only symbolically, as `Keystream(InitialState(key, frame), n)`.
- The code has no guard against use before `initialize`, so none is invented. `UninitializedKeystream` states what such use produces.
