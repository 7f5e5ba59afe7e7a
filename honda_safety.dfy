/** The Honda safety policy: a firewall between the driver-assistance
    computer and the car's actuation buses. Received frames update a small
    set of process-wide fields (the `controls_allowed` latch, the pedal
    history, the vehicle speed, the hardware variant); outbound frames and
    frames offered for relay are judged against those fields.

    The policy is written twice over: as pure functions on a `SafetyState`
    value (`RxStep`, `AfterInit`, `TxHook`, the forwarding hooks), and as the
    class `SafetyGlobals`, whose fields are the globals and whose methods
    update them branch by branch as the firmware does, each proved to land
    on the state the pure function describes. */
module HondaSafety {
  import opened CanFrame

  /** Analog gas position above which the interceptor counts as pressed. */
  const GasInterceptorThreshold := 328

  // Identifiers of frames the rx hook decodes.
  const SpeedMsg: bv32 := 0x158
  const ButtonsIlxMsg: bv32 := 0x1A6
  const ButtonsCivicMsg: bv32 := 0x296
  const NidecBrakeMsg: bv32 := 0x17C
  const BoschBrakeMsg: bv32 := 0x1BE
  const DigitalGasMsg: bv32 := 0x17C
  const InterceptorMsg: bv32 := 0x201
  const InterceptorLen: bv32 := 6

  // Identifiers of actuation commands the tx hook checks.
  const BrakeCmd: bv32 := 0x1FA
  const SteerCmd: bv32 := 0xE4
  const SteerCmdAlt: bv32 := 0x194
  const GasCmd: bv32 := 0x200

  /** Identifier that the Bosch gateway never relays, beside `SteerCmd`. */
  const BoschNoFwdMsg: bv32 := 0x33D

  // Values of the 3-bit cruise-button field.
  const ButtonResume := 4
  const ButtonSet := 3
  const ButtonCancel := 2

  /** The globals of the policy, as one value. `controls_allowed` and
      `gas_interceptor_detected` are C ints that only ever hold 0 or 1 and are
      only read for truth, so they are booleans here; the other C ints keep
      the decoded values they are assigned. */
  datatype SafetyState = SafetyState(
    controlsAllowed: bool,
    gasInterceptorDetected: bool,
    brakePrev: int,
    gasPrev: int,
    gasInterceptorPrev: int,
    egoSpeed: int,
    boschHardware: bool)

  /** Zero-initialised statics, before any init hook runs. */
  const PowerOn := SafetyState(false, false, 0, 0, 0, 0, false)

  /** The ranges that the rx hook's decoders keep the stored samples in. */
  predicate InRange(s: SafetyState) {
    && 0 <= s.egoSpeed <= 0xFFFF
    && 0 <= s.gasPrev <= 0xFF
    && 0 <= s.gasInterceptorPrev <= 0xFFFF
    && (s.brakePrev == 0 || s.brakePrev == 0x10 || s.brakePrev == 0x20_0000)
  }

  // ---------------------------------------------------------------------
  // Decoders of received frames

  /** `RDLR & 0xFFFF`: the first two payload bytes as the speed sample. */
  function SpeedSample(f: Frame): (v: int)
    ensures 0 <= v <= 0xFFFF
    ensures v == 0 <==> f.rdlr & 0xFFFF == 0
  {
    (f.rdlr & 0xFFFF) as int
  }

  /** `(RDLR & 0xE0) >> 5`: bits 5-7 of payload byte 0. */
  function CruiseButtons(f: Frame): (b: int)
    ensures 0 <= b < 8
  {
    ((f.rdlr & 0xE0) >> 5) as int
  }

  predicate IsButtonsMsg(f: Frame) {
    Addr(f) == ButtonsIlxMsg || Addr(f) == ButtonsCivicMsg
  }

  /** The brake pedal frame: 0x17C on Nidec hardware, 0x1BE on Bosch. */
  predicate IsUserBrakeMsg(bosch: bool, f: Frame) {
    if !bosch then Addr(f) == NidecBrakeMsg else Addr(f) == BoschBrakeMsg
  }

  /** The brake pedal value: bit 21 of RDHR (bit 53 of the payload) on
      Nidec hardware, bit 4 of RDLR on Bosch, kept in place. */
  function UserBrakeValue(bosch: bool, f: Frame): (v: int)
    ensures v == 0 || v == (if bosch then 0x10 else 0x20_0000)
    ensures v != 0 <==> if bosch then f.rdlr & 0x10 != 0 else f.rdhr & 0x20_0000 != 0
  {
    if !bosch then (f.rdhr & 0x20_0000) as int else (f.rdlr & 0x10) as int
  }

  /** The interceptor frame: 0x201 with exactly six payload bytes (Bosch
      hardware sends 0x201 with eight bytes for something else). */
  predicate IsInterceptorMsg(f: Frame) {
    Addr(f) == InterceptorMsg && Len(f) == InterceptorLen
  }

  /** `((RDLR & 0xFF) << 8) | ((RDLR & 0xFF00) >> 8)`: payload bytes 0 and 1
      read big-endian. */
  function InterceptorWord(f: Frame): (w: bv32)
    ensures w < 0x1_0000
    ensures w >> 8 == f.rdlr & 0xFF
    ensures w & 0xFF == (f.rdlr >> 8) & 0xFF
  {
    ((f.rdlr & 0xFF) << 8) | ((f.rdlr & 0xFF00) >> 8)
  }

  /** The analog gas sample of an interceptor frame: the integer value of
      `InterceptorWord`. */
  function InterceptorValue(f: Frame): (v: int)
    ensures 0 <= v <= 0xFFFF
  {
    InterceptorWord(f) as bv16 as int
  }

  /** `RDLR & 0xFF`: payload byte 0 of 0x17C as the digital gas value. */
  function DigitalGasValue(f: Frame): (v: int)
    ensures 0 <= v <= 0xFF
    ensures v == 0 <==> f.rdlr & 0xFF == 0
  {
    (f.rdlr & 0xFF) as int
  }

  // ---------------------------------------------------------------------
  // The rx hook as a function of the old state

  /** A set or resume button: the one event that turns the latch on. */
  predicate EnablesControls(f: Frame) {
    IsButtonsMsg(f) && (CruiseButtons(f) == ButtonResume || CruiseButtons(f) == ButtonSet)
  }

  predicate CancelsControls(f: Frame) {
    IsButtonsMsg(f) && CruiseButtons(f) == ButtonCancel
  }

  /** A brake press that was not pressed before, or any brake press while
      the car moves. */
  predicate BrakeRevokes(s: SafetyState, f: Frame) {
    && IsUserBrakeMsg(s.boschHardware, f)
    && UserBrakeValue(s.boschHardware, f) != 0
    && (s.brakePrev == 0 || s.egoSpeed != 0)
  }

  /** The analog gas crossing the threshold upwards. */
  predicate InterceptorRevokes(s: SafetyState, f: Frame) {
    && IsInterceptorMsg(f)
    && InterceptorValue(f) > GasInterceptorThreshold
    && s.gasInterceptorPrev <= GasInterceptorThreshold
  }

  /** A rising edge of the digital gas value, consulted only while no
      interceptor has been seen. */
  predicate DigitalGasRevokes(s: SafetyState, f: Frame) {
    && !s.gasInterceptorDetected
    && Addr(f) == DigitalGasMsg
    && DigitalGasValue(f) != 0
    && s.gasPrev == 0
  }

  predicate Revokes(s: SafetyState, f: Frame) {
    CancelsControls(f) || BrakeRevokes(s, f) || InterceptorRevokes(s, f) || DigitalGasRevokes(s, f)
  }

  /** The state after the rx hook has seen `f`, field by field: the latch
      is on after the frame iff the frame enables it, or it was on and the
      frame revokes nothing; each sample changes only on its own frame. */
  function RxStep(s: SafetyState, f: Frame): (r: SafetyState) {
    SafetyState(
      controlsAllowed := EnablesControls(f) || (s.controlsAllowed && !Revokes(s, f)),
      gasInterceptorDetected := s.gasInterceptorDetected || IsInterceptorMsg(f),
      brakePrev :=
        if IsUserBrakeMsg(s.boschHardware, f) then UserBrakeValue(s.boschHardware, f) else s.brakePrev,
      gasPrev :=
        if !s.gasInterceptorDetected && Addr(f) == DigitalGasMsg then DigitalGasValue(f) else s.gasPrev,
      gasInterceptorPrev := if IsInterceptorMsg(f) then InterceptorValue(f) else s.gasInterceptorPrev,
      egoSpeed := if Addr(f) == SpeedMsg then SpeedSample(f) else s.egoSpeed,
      boschHardware := s.boschHardware)
  }

  /** `honda_init` (bosch == false) and `honda_bosch_init` (bosch == true):
      the latch is reset and the variant chosen; the pedal history, the
      interceptor flag and the speed are kept. */
  function AfterInit(s: SafetyState, bosch: bool): (r: SafetyState)
    ensures !r.controlsAllowed && r.boschHardware == bosch
    ensures r.(controlsAllowed := s.controlsAllowed, boschHardware := s.boschHardware) == s
  {
    s.(controlsAllowed := false, boschHardware := bosch)
  }

  // ---------------------------------------------------------------------
  // The tx hook

  /** A pedal pressed right now: digital gas, analog gas above the
      threshold, or the brake while moving. */
  predicate PedalPressed(s: SafetyState) {
    s.gasPrev != 0 || s.gasInterceptorPrev > GasInterceptorThreshold || (s.brakePrev != 0 && s.egoSpeed != 0)
  }

  /** The authority the tx hook grants: the latch, overridden by a pressed
      pedal. */
  predicate CurrentControlsAllowed(s: SafetyState) {
    s.controlsAllowed && !PedalPressed(s)
  }

  predicate IsActuatorCmd(f: Frame) {
    Addr(f) == BrakeCmd || Addr(f) == SteerCmd || Addr(f) == SteerCmdAlt || Addr(f) == GasCmd
  }

  /** `honda_tx_hook`: true lets `f` be sent. Without authority an actuation
      command may carry only a zero low half-word of RDLR; with authority
      only the brake command is restricted, to bits 6 and 7 of byte 0 clear;
      every other identifier passes. */
  function TxHook(s: SafetyState, f: Frame): (ok: bool)
    ensures !IsActuatorCmd(f) ==> ok
    ensures IsActuatorCmd(f) && !CurrentControlsAllowed(s) ==> (ok <==> f.rdlr & 0xFFFF == 0)
    ensures CurrentControlsAllowed(s) && Addr(f) == BrakeCmd ==> (ok <==> f.rdlr & 0xC0 == 0)
    ensures CurrentControlsAllowed(s) && IsActuatorCmd(f) && Addr(f) != BrakeCmd ==> ok
  {
    var allowed := CurrentControlsAllowed(s);
    var addr := Addr(f);
    if addr == BrakeCmd && f.rdlr & (if allowed then 0xFFFF_FF3F else 0xFFFF_0000) != f.rdlr then
      false
    else if (addr == SteerCmd || addr == SteerCmdAlt) && !allowed && f.rdlr & 0xFFFF_0000 != f.rdlr then
      false
    else if addr == GasCmd && !allowed && f.rdlr & 0xFFFF_0000 != f.rdlr then
      false
    else
      true
  }

  /** `honda_tx_lin_hook`: no LIN policy, every LIN frame passes. */
  function TxLinHook(linNum: int, data: seq<bv8>, len: int): (ok: bool)
    ensures ok
  {
    true
  }

  /** `honda_ign_hook`: the ignition state is never reported (-1). */
  function IgnHook(): (r: int)
    ensures r == -1
  {
    -1
  }

  // ---------------------------------------------------------------------
  // The forwarding hooks; -1 means "do not relay"

  /** `honda_fwd_hook`: the Nidec board is not a gateway. */
  function NidecFwdHook(bus: int, f: Frame): (r: int)
    ensures r == -1
  {
    -1
  }

  /** `honda_bosch_fwd_hook`: buses 1 and 2 relay to each other, except the
      steering command and 0x33D; nothing else is relayed. */
  function BoschFwdHook(bus: int, f: Frame): (r: int)
    ensures r != -1 <==> (bus == 1 || bus == 2) && Addr(f) != SteerCmd && Addr(f) != BoschNoFwdMsg
    ensures r != -1 ==> r == 3 - bus
  {
    if bus == 1 || bus == 2 then
      var addr := Addr(f);
      if addr != SteerCmd && addr != BoschNoFwdMsg then (!(bus as bv8) & 3) as int else -1
    else
      -1
  }

  // ---------------------------------------------------------------------
  // The globals and the hooks that update them

  class SafetyGlobals {
    var controlsAllowed: bool
    var gasInterceptorDetected: bool
    var brakePrev: int
    var gasPrev: int
    var gasInterceptorPrev: int
    var egoSpeed: int
    var boschHardware: bool

    function Current(): (s: SafetyState)
      reads this
    {
      SafetyState(controlsAllowed, gasInterceptorDetected, brakePrev, gasPrev,
                  gasInterceptorPrev, egoSpeed, boschHardware)
    }

    /** The statics as the C runtime zeroes them. */
    constructor ()
      ensures Current() == PowerOn
    {
      controlsAllowed, gasInterceptorDetected := false, false;
      brakePrev, gasPrev, gasInterceptorPrev, egoSpeed := 0, 0, 0, 0;
      boschHardware := false;
    }

    /** `honda_rx_hook`: speed, buttons, brake, interceptor, digital gas,
        in this order, on the same frame. */
    method RxHook(f: Frame)
      modifies this
      ensures Current() == RxStep(old(Current()), f)
    {
      ghost var s := Current();
      var addr := Addr(f);
      if addr == SpeedMsg {
        egoSpeed := SpeedSample(f);
      }
      assert Current() == s.(egoSpeed := RxStep(s, f).egoSpeed);

      if addr == ButtonsIlxMsg || addr == ButtonsCivicMsg {
        var buttons := CruiseButtons(f);
        if buttons == ButtonResume || buttons == ButtonSet {
          controlsAllowed := true;
        } else if buttons == ButtonCancel {
          controlsAllowed := false;
        }
      }
      assert controlsAllowed == (EnablesControls(f) || (s.controlsAllowed && !CancelsControls(f)));

      if IsUserBrakeMsg(boschHardware, f) {
        var brake := UserBrakeValue(boschHardware, f);
        if brake != 0 && (brakePrev == 0 || egoSpeed != 0) {
          controlsAllowed := false;
        }
        brakePrev := brake;
      }
      assert controlsAllowed
        == (EnablesControls(f) || (s.controlsAllowed && !CancelsControls(f) && !BrakeRevokes(s, f)));

      if addr == InterceptorMsg && Len(f) == InterceptorLen {
        gasInterceptorDetected := true;
        var gasInterceptor := InterceptorValue(f);
        if gasInterceptor > GasInterceptorThreshold && gasInterceptorPrev <= GasInterceptorThreshold {
          controlsAllowed := false;
        }
        gasInterceptorPrev := gasInterceptor;
      }
      assert gasInterceptorDetected == RxStep(s, f).gasInterceptorDetected;

      if !gasInterceptorDetected {
        if addr == DigitalGasMsg {
          var gas := DigitalGasValue(f);
          if gas != 0 && gasPrev == 0 {
            controlsAllowed := false;
          }
          gasPrev := gas;
        }
      }
    }

    /** `honda_init`. */
    method Init()
      modifies this
      ensures Current() == AfterInit(old(Current()), false)
    {
      controlsAllowed := false;
      boschHardware := false;
    }

    /** `honda_bosch_init`. */
    method BoschInit()
      modifies this
      ensures Current() == AfterInit(old(Current()), true)
    {
      controlsAllowed := false;
      boschHardware := true;
    }
  }
}
