# Honda safety policy, modelled in Dafny

The panda board carries a safety policy for each vehicle family. The policy
decides whether automated brake, steering and gas commands may go out on the
CAN bus, and whether a frame may be relayed between buses. The Honda policy
(`panda/board/safety/safety_honda.h`) keeps a few process-wide fields:

- the `controls_allowed` latch;
- the pedal history `brake_prev`, `gas_prev` and `gas_interceptor_prev`;
- the sticky `gas_interceptor_detected` flag;
- the vehicle speed `ego_speed`;
- the hardware variant `bosch_hardware` (Nidec or Bosch).

The policy exposes six hooks, plus the two stubs `honda_tx_lin_hook` and
`honda_ign_hook`:

- `honda_rx_hook` updates these fields from each received frame.
- `honda_tx_hook` judges outbound actuation commands against "latch on and no pedal pressed".
- `honda_fwd_hook` and `honda_bosch_fwd_hook` decide bus relaying for each variant.
- `honda_init` and `honda_bosch_init` reset the latch and choose the variant.
- `honda_tx_lin_hook` allows every LIN frame, and `honda_ign_hook` reports no ignition state.

Files:

- `can_frame.dfy` (module `CanFrame`): the four mailbox registers the hooks
  read (`RIR`, `RDTR`, `RDLR`, `RDHR`) as 32-bit words. It also holds the
  identifier `RIR >> 21` and the length `RDTR & 0xf`.
- `honda_safety.dfy` (module `HondaSafety`):
  - the globals as a `SafetyState` value, and the decoders of received frames;
  - `RxStep`, which gives each field's new value after one received frame;
  - `AfterInit`, the tx decision `TxHook`, the two forwarding hooks and the two stubs;
  - class `SafetyGlobals`, whose fields are the globals. Its `RxHook`, `Init`
    and `BoschInit` methods update the fields branch by branch, as the
    firmware does. Each method is proved to reach the state that `RxStep` or
    `AfterInit` gives.
- `honda_properties.dfy` (module `HondaProperties`):
  - the policy's promises for one received frame;
  - the same promises over sequences of frames (`RxTrace`), proved by induction;
  - the tx decision, forwarding, and a short board session driven through the class.

Identifiers and payload masks stay 32-bit words, as in the source. The
decoded samples are `int`s, like the C globals that hold them. Every value a
decoder produces fits in 22 bits, so no 32-bit wrap-around can occur:
`RxKeepsRange` and `TraceKeepsRange` prove that the stored samples stay in
range. `controls_allowed` and `gas_interceptor_detected` are C ints. They
only ever hold 0 or 1, and the code only tests whether they are nonzero, so
the model uses booleans for them.

Code details the model follows exactly:

- With authority, the brake command's mask is `0xFFFFFF3F`, which forbids
  bits 0x40 and 0x80 of byte 0.
- Neither init hook clears the pedal history, the interceptor flag or the
  speed. They only reset the latch and set the variant.
- `gas_interceptor_prev` is updated on every 0x201 frame of length 6.
- Identifier 0x17C is both the Nidec brake frame and the digital gas frame.
  Both branches run on the same frame, the brake branch first.

## Model

| member | source | states |
|---|---|---|
| CanFrame.Addr | panda/board/safety/safety_honda.h:23 | `RIR >> 21` is an 11-bit standard identifier (below 0x800) |
| CanFrame.Len | panda/board/safety/safety_honda.h:56 | `RDTR & 0xf` is a data length code below 16 |
| HondaSafety.SpeedSample | panda/board/safety/safety_honda.h:22-26 | the speed sample lies in [0, 0xFFFF] and is zero exactly when the first two payload bytes are zero |
| HondaSafety.CruiseButtons | panda/board/safety/safety_honda.h:31 | the button field is a 3-bit value in [0, 7] |
| HondaSafety.UserBrakeValue | panda/board/safety/safety_honda.h:39-43 | the brake value is 0 or the bit kept in place (0x200000 on Nidec, 0x10 on Bosch), and it is nonzero exactly when bit 21 of RDHR (Nidec) or bit 4 of RDLR (Bosch) is set |
| HondaSafety.InterceptorWord | panda/board/safety/safety_honda.h:58 | the interceptor word holds payload byte 0 as its high byte and byte 1 as its low byte, and is below 0x10000 |
| HondaSafety.InterceptorValue | panda/board/safety/safety_honda.h:58 | the analog gas sample lies in [0, 65535]; it is `InterceptorWord` narrowed to 16 bits and read as an integer, which `NarrowWord` shows loses nothing |
| HondaSafety.DigitalGasValue | panda/board/safety/safety_honda.h:69 | the digital gas value lies in [0, 255] and is zero exactly when payload byte 0 is zero |
| HondaSafety.IsButtonsMsg | panda/board/safety/safety_honda.h:29-30 | defines the cruise-button frame: identifier 0x1A6 (ILX) or 0x296 (Civic) |
| HondaSafety.IsUserBrakeMsg | panda/board/safety/safety_honda.h:42 | defines the brake pedal frame of the active variant: 0x17C on Nidec, 0x1BE on Bosch |
| HondaSafety.IsInterceptorMsg | panda/board/safety/safety_honda.h:54-56 | defines the interceptor frame: identifier 0x201 with data length exactly 6 |
| HondaSafety.EnablesControls | panda/board/safety/safety_honda.h:30-34 | defines the one enabling event: a button frame whose field is 3 (set) or 4 (resume) |
| HondaSafety.CancelsControls | panda/board/safety/safety_honda.h:30-36 | defines the cancel event: a button frame whose field is 2 |
| HondaSafety.BrakeRevokes | panda/board/safety/safety_honda.h:46-50 | defines the brake revocation: the active variant's brake frame with a nonzero brake value while `brake_prev` is 0 or the speed is nonzero |
| HondaSafety.InterceptorRevokes | panda/board/safety/safety_honda.h:56-62 | defines the analog gas revocation: an interceptor frame whose sample is above 328 while the previous sample was at most 328 |
| HondaSafety.DigitalGasRevokes | panda/board/safety/safety_honda.h:67-72 | defines the digital gas revocation: with no interceptor seen, a 0x17C frame with a nonzero byte 0 while `gas_prev` is 0 |
| HondaSafety.Revokes | panda/board/safety/safety_honda.h:28-75 | defines the events that clear the latch: cancel, brake, analog gas or digital gas revocation |
| HondaSafety.RxStep | panda/board/safety/safety_honda.h:20-76 | defines the state after one received frame, field by field: the latch is on iff the frame enables it, or it was on and the frame revokes nothing; `ego_speed`, `brake_prev`, `gas_interceptor_prev` and `gas_prev` change only on their own frames (the last only while no interceptor is seen); the interceptor flag is sticky; the variant never changes |
| HondaSafety.AfterInit | panda/board/safety/safety_honda.h:128-131 | init turns the latch off and sets the variant (Nidec for `honda_init`, Bosch for `honda_bosch_init` at :150-153); every other field is unchanged |
| HondaSafety.PedalPressed | panda/board/safety/safety_honda.h:88-89 | defines `pedal_pressed`: nonzero `gas_prev`, an analog sample above 328, or a pressed brake while the speed is nonzero |
| HondaSafety.CurrentControlsAllowed | panda/board/safety/safety_honda.h:90 | defines `current_controls_allowed`: the latch is on and no pedal is pressed |
| HondaSafety.IsActuatorCmd | panda/board/safety/safety_honda.h:93-111 | defines the actuation commands the tx hook checks: 0x1FA (brake), 0xE4 and 0x194 (steering), 0x200 (gas) |
| HondaSafety.TxHook | panda/board/safety/safety_honda.h:84-121 | identifiers other than 0x1FA, 0xE4, 0x194 and 0x200 always pass. Without current authority, those four pass iff the low 16 bits of RDLR are zero. With authority, 0x1FA passes iff bits 0xC0 of RDLR are clear, and the other three always pass |
| HondaSafety.TxLinHook | panda/board/safety/safety_honda.h:123-126 | every LIN frame is allowed |
| HondaSafety.IgnHook | panda/board/safety/safety_honda.h:137-139 | the ignition hook always reports -1 (unknown) |
| HondaSafety.NidecFwdHook | panda/board/safety/safety_honda.h:133-135 | the Nidec board never relays a frame |
| HondaSafety.BoschFwdHook | panda/board/safety/safety_honda.h:155-161 | a frame is relayed iff its bus is 1 or 2 and its identifier is neither 0xE4 nor 0x33D; when relayed it goes to bus 3 - bus (1 to 2, 2 to 1) |
| HondaSafety.SafetyGlobals.constructor | panda/board/safety/safety_honda.h:10-18 | the statics start zeroed: latch off, no interceptor, all samples 0, Nidec |
| HondaSafety.SafetyGlobals.RxHook | panda/board/safety/safety_honda.h:20-76 | after the sequential speed, button, brake, interceptor and digital-gas branches, the globals equal `RxStep` of their old value |
| HondaSafety.SafetyGlobals.Init | panda/board/safety/safety_honda.h:128-131 | the globals become `AfterInit(old, Nidec)`: latch off, variant Nidec, pedal history, interceptor flag and speed kept |
| HondaSafety.SafetyGlobals.BoschInit | panda/board/safety/safety_honda.h:150-153 | the globals become `AfterInit(old, Bosch)` |
| HondaProperties.ButtonsFrame | panda/board/safety/safety_honda.h:28-37 | a button frame (0x1A6 or 0x296) with value 3 or 4 turns the latch on, with 2 turns it off, with any other value leaves it; a button frame changes no other field |
| HondaProperties.LatchRisesOnlyOnButtons | panda/board/safety/safety_honda.h:28-75 | the latch goes from off to on only on a set or resume button, always does on one, and any revoking event leaves it off |
| HondaProperties.BrakeFrame | panda/board/safety/safety_honda.h:39-52 | on the active variant's brake frame, `brake_prev` becomes the brake value. A nonzero value when `brake_prev` was 0 or the speed is nonzero turns the latch off. Unless the frame is also a digital gas frame, that is the only change to the latch: a brake held at standstill or released leaves it. Speed and interceptor state are unchanged |
| HondaProperties.SpeedFrame | panda/board/safety/safety_honda.h:22-26 | the speed frame 0x158 sets `ego_speed` to its first two payload bytes and changes no other field |
| HondaProperties.NarrowWord | panda/board/safety/safety_honda.h:58 | a word below 0x10000 keeps its value when narrowed to 16 bits, so with `InterceptorWord`'s bound `InterceptorValue` is the integer value of the interceptor word |
| HondaProperties.InterceptorFrame | panda/board/safety/safety_honda.h:54-64 | a 0x201 frame of length 6 sets the interceptor flag and records its sample. It turns the latch off exactly when the sample is above 328 and the previous one at most 328. Gas history, brake history and speed are unchanged |
| HondaProperties.DigitalGasFrame | panda/board/safety/safety_honda.h:66-75 | with no interceptor seen, 0x17C records byte 0 as `gas_prev`. The latch stays on iff it was on and neither the brake revokes nor a nonzero value follows a zero one, so a held or released gas leaves it. Speed and the analog sample are unchanged |
| HondaProperties.DigitalGasIgnoredOnceDetected | panda/board/safety/safety_honda.h:66-75 | once the interceptor is seen, 0x17C leaves `gas_prev` alone and moves the latch only through the brake |
| HondaProperties.RxIdempotent | panda/board/safety/safety_honda.h:20-76 | receiving the same frame twice leaves the state the first reception left (no hidden counters) |
| HondaProperties.RxKeepsRange | panda/board/safety/safety_honda.h:20-76 | one received frame keeps speed and interceptor sample in [0, 65535], `gas_prev` in [0, 255] and `brake_prev` in {0, 0x10, 0x200000} |
| HondaProperties.TxBlockedAfterInit | panda/board/safety/safety_honda.h:84-131 | after either init, no actuation command with a nonzero low half-word of RDLR passes |
| HondaProperties.InitKeepsRange | panda/board/safety/safety_honda.h:128-131 | the stored samples are in range at power-on and stay in range through either init |
| HondaProperties.PedalOverridesLatch | panda/board/safety/safety_honda.h:86-90 | while a pedal is pressed (gas, analog gas above 328, or brake while moving), no actuation command with a nonzero low half-word passes, whatever the latch |
| HondaProperties.TxBlockedAfterRevoke | panda/board/safety/safety_honda.h:20-121 | after a frame that cancels or revokes authority, no actuation command with a nonzero low half-word passes |
| HondaProperties.BrakeCmdWithoutAuthority | panda/board/safety/safety_honda.h:92-99 | without authority, the brake command 0x00010000 passes and 0x00000001 is rejected |
| HondaProperties.BoschFwdSwapsBuses | panda/board/safety/safety_honda.h:155-161 | a relayed frame goes to the other bus, and relaying it back returns it to its source bus |
| HondaProperties.RxTrace | panda/board/safety/safety_honda.h:20-76 | defines the state after the rx hook has seen a sequence of frames in order, one `RxStep` per frame |
| HondaProperties.TraceDetection | panda/board/safety/safety_honda.h:54-57 | after any sequence of frames, the interceptor flag is on iff it was on before or the sequence holds a 0x201 frame of length 6 |
| HondaProperties.TraceDigitalGasFrozen | panda/board/safety/safety_honda.h:66-75 | once the interceptor is seen, no sequence of frames changes `gas_prev` or clears the flag |
| HondaProperties.TraceLatchProvenance | panda/board/safety/safety_honda.h:28-75 | the latch is on after a sequence only if it was on before and no cancel came, or a set or resume came with no cancel after it |
| HondaProperties.TraceKeepsRange | panda/board/safety/safety_honda.h:20-76 | no sequence of received frames takes a stored sample out of its range |
| HondaProperties.TraceKeepsVariant | panda/board/safety/safety_honda.h:17-18 | no received frame changes the hardware variant; only init sets it |
| HondaProperties.InterceptorCrossingExample | panda/board/safety/safety_honda.h:54-64 | interceptor samples 300, 300, 340 leave the latch on through the first two and turn it off at the crossing |
| HondaProperties.BoschSession | panda/board/safety/safety_honda.h:150-170 | on a Bosch board, after resume a steering command passes; after a brake press the same command is rejected |

## Left out

- `panda/tests/safety/libpandasafety_py.py`: a Python harness that builds and loads the library. It has no policy logic.
- The `safety_hooks` tables (safety_honda.h:141-148, 163-170) are function-pointer wiring. The variant is the `boschHardware` field instead, set by `Init` or `BoschInit`. The model states no claim that the tables pair each init with the matching forwarding hook.
- The init hooks' `int16_t param` argument is unused by the source and is not modelled.
- `TxLinHook` ignores its LIN channel and data arguments, as the source does.
- Mailbox registers other than `RIR`, `RDTR`, `RDLR` and `RDHR` (`TIR`, `TDTR`, timestamps) are not modelled. The source bus index is a parameter of the forwarding hooks.
- Interrupt-driven delivery and concurrency are not modelled. Frames are processed one at a time, which `RxTrace` models as a sequence.
- `controls_allowed` is declared outside this file. The test harness setters (`set_controls_allowed` and others) are not part of this model.
