/** What the Honda safety policy promises, proved about the functions that
    describe its hooks: one received frame at a time, over whole sequences
    of received frames, for the tx decision and for forwarding. */
module HondaProperties {
  import opened CanFrame
  import opened HondaSafety

  // ---------------------------------------------------------------------
  // One received frame

  /** A cruise-button frame moves only the latch: set or resume turn it on,
      cancel turns it off, every other button value leaves it alone. The
      decode is on the level, so a repeated frame re-applies it. */
  lemma ButtonsFrame(s: SafetyState, f: Frame)
    requires IsButtonsMsg(f)
    ensures RxStep(s, f) == s.(controlsAllowed :=
      if CruiseButtons(f) == ButtonResume || CruiseButtons(f) == ButtonSet then true
      else if CruiseButtons(f) == ButtonCancel then false
      else s.controlsAllowed)
  {
  }

  /** Only a set or resume button turns the latch on, and one always does. */
  lemma LatchRisesOnlyOnButtons(s: SafetyState, f: Frame)
    ensures !s.controlsAllowed && RxStep(s, f).controlsAllowed ==> EnablesControls(f)
    ensures EnablesControls(f) ==> RxStep(s, f).controlsAllowed
    ensures Revokes(s, f) ==> !RxStep(s, f).controlsAllowed
  {
  }

  /** The brake frame of the active variant: the brake value is always
      recorded, and a press that is new, or made while the car moves, turns
      the latch off. A brake held at standstill, or released, leaves the
      latch alone, unless the same 0x17C frame also carries a digital gas
      edge. Speed and the analog gas are untouched. */
  lemma BrakeFrame(s: SafetyState, f: Frame)
    requires IsUserBrakeMsg(s.boschHardware, f)
    ensures RxStep(s, f).brakePrev == UserBrakeValue(s.boschHardware, f)
    ensures UserBrakeValue(s.boschHardware, f) != 0 && (s.brakePrev == 0 || s.egoSpeed != 0)
            ==> !RxStep(s, f).controlsAllowed
    ensures Addr(f) != DigitalGasMsg || s.gasInterceptorDetected
            ==> RxStep(s, f).controlsAllowed
                == (s.controlsAllowed
                    && !(UserBrakeValue(s.boschHardware, f) != 0 && (s.brakePrev == 0 || s.egoSpeed != 0)))
    ensures RxStep(s, f).egoSpeed == s.egoSpeed
    ensures RxStep(s, f).gasInterceptorPrev == s.gasInterceptorPrev
    ensures RxStep(s, f).gasInterceptorDetected == s.gasInterceptorDetected
  {
  }

  /** The speed frame 0x158 changes the speed and nothing else. */
  lemma SpeedFrame(s: SafetyState, f: Frame)
    requires Addr(f) == SpeedMsg
    ensures RxStep(s, f) == s.(egoSpeed := SpeedSample(f))
  {
  }

  /** A 32-bit word below 0x10000 loses nothing when narrowed to 16 bits;
      with `InterceptorWord`'s bound, the analog sample `InterceptorValue`
      is therefore the integer value of the interceptor word. */
  lemma NarrowWord(w: bv32)
    requires w < 0x1_0000
    ensures w as bv16 as int == w as int
  {
    assert w as bv16 as bv32 == w;
  }

  /** An interceptor frame marks the interceptor present, records the
      sample, and turns the latch off exactly when the sample crosses the
      threshold upwards (or the latch was already off). */
  lemma InterceptorFrame(s: SafetyState, f: Frame)
    requires IsInterceptorMsg(f)
    ensures RxStep(s, f).gasInterceptorDetected
    ensures RxStep(s, f).gasInterceptorPrev == InterceptorValue(f)
    ensures RxStep(s, f).controlsAllowed
            == (s.controlsAllowed
                && !(InterceptorValue(f) > GasInterceptorThreshold
                     && s.gasInterceptorPrev <= GasInterceptorThreshold))
    ensures RxStep(s, f).gasPrev == s.gasPrev && RxStep(s, f).brakePrev == s.brakePrev
    ensures RxStep(s, f).egoSpeed == s.egoSpeed
  {
  }

  /** Before an interceptor is seen, 0x17C records the digital gas value and
      turns the latch off on its rising edge; a held or released gas pedal
      leaves the latch to the brake, which reads the same frame on Nidec
      hardware. */
  lemma DigitalGasFrame(s: SafetyState, f: Frame)
    requires !s.gasInterceptorDetected && Addr(f) == DigitalGasMsg
    ensures RxStep(s, f).gasPrev == DigitalGasValue(f)
    ensures DigitalGasValue(f) != 0 && s.gasPrev == 0 ==> !RxStep(s, f).controlsAllowed
    ensures RxStep(s, f).controlsAllowed
            == (s.controlsAllowed && !BrakeRevokes(s, f) && !(DigitalGasValue(f) != 0 && s.gasPrev == 0))
    ensures RxStep(s, f).egoSpeed == s.egoSpeed
    ensures RxStep(s, f).gasInterceptorPrev == s.gasInterceptorPrev
  {
  }

  /** Once the interceptor is seen, the digital gas path changes nothing:
      the gas history stays and the latch moves only for the brake. */
  lemma DigitalGasIgnoredOnceDetected(s: SafetyState, f: Frame)
    requires s.gasInterceptorDetected && Addr(f) == DigitalGasMsg
    ensures RxStep(s, f).gasPrev == s.gasPrev
    ensures RxStep(s, f).controlsAllowed == (s.controlsAllowed && !BrakeRevokes(s, f))
  {
  }

  /** The rx hook keeps no hidden counter: seeing the same frame twice
      leaves the state the first time left it. */
  lemma RxIdempotent(s: SafetyState, f: Frame)
    ensures RxStep(RxStep(s, f), f) == RxStep(s, f)
  {
  }

  /** The decoders keep every stored sample in its range. */
  lemma RxKeepsRange(s: SafetyState, f: Frame)
    requires InRange(s)
    ensures InRange(RxStep(s, f))
  {
  }

  // ---------------------------------------------------------------------
  // Init

  /** After either init the latch is off, so no actuation command with a
      nonzero low half-word gets out until a set or resume button. */
  lemma TxBlockedAfterInit(s: SafetyState, bosch: bool, g: Frame)
    requires IsActuatorCmd(g) && g.rdlr & 0xFFFF != 0
    ensures !TxHook(AfterInit(s, bosch), g)
  {
  }

  /** The ranges hold at power-on and survive either init; with
      `TraceKeepsRange` they hold in every state the hooks can reach. */
  lemma InitKeepsRange(s: SafetyState, bosch: bool)
    requires InRange(s)
    ensures InRange(PowerOn)
    ensures InRange(AfterInit(s, bosch))
  {
  }

  // ---------------------------------------------------------------------
  // The tx decision

  /** A pressed pedal overrides an enabled latch. */
  lemma PedalOverridesLatch(s: SafetyState, g: Frame)
    requires PedalPressed(s) && IsActuatorCmd(g) && g.rdlr & 0xFFFF != 0
    ensures !TxHook(s, g)
  {
  }

  /** A received frame that revokes authority blocks every actuation
      command with a nonzero low half-word from the next tx check on. */
  lemma TxBlockedAfterRevoke(s: SafetyState, f: Frame, g: Frame)
    requires Revokes(s, f)
    requires IsActuatorCmd(g) && g.rdlr & 0xFFFF != 0
    ensures !TxHook(RxStep(s, f), g)
  {
  }

  /** The brake command without authority: 0x00010000 passes, 0x00000001
      does not. */
  lemma BrakeCmdWithoutAuthority(s: SafetyState)
    requires !CurrentControlsAllowed(s)
    ensures TxHook(s, Mailbox(BrakeCmd, 8, 0x0001_0000, 0))
    ensures !TxHook(s, Mailbox(BrakeCmd, 8, 0x0000_0001, 0))
  {
  }

  // ---------------------------------------------------------------------
  // Forwarding

  /** The Bosch gateway swaps buses 1 and 2: relaying back what it relayed
      returns to the source bus. */
  lemma BoschFwdSwapsBuses(bus: int, f: Frame)
    requires BoschFwdHook(bus, f) != -1
    ensures BoschFwdHook(bus, f) != bus
    ensures BoschFwdHook(BoschFwdHook(bus, f), f) == bus
  {
  }

  // ---------------------------------------------------------------------
  // Sequences of received frames, one at a time

  /** The state after the rx hook has seen `fs` in order. */
  function RxTrace(s: SafetyState, fs: seq<Frame>): (r: SafetyState)
    decreases |fs|
  {
    if |fs| == 0 then s else RxTrace(RxStep(s, fs[0]), fs[1..])
  }

  /** The interceptor flag is on after a trace iff it was on before or the
      trace holds an interceptor frame. */
  lemma {:induction false} TraceDetection(s: SafetyState, fs: seq<Frame>)
    ensures RxTrace(s, fs).gasInterceptorDetected
            <==> s.gasInterceptorDetected || exists i :: 0 <= i < |fs| && IsInterceptorMsg(fs[i])
    decreases |fs|
  {
    if |fs| > 0 {
      var s1 := RxStep(s, fs[0]);
      TraceDetection(s1, fs[1..]);
      if exists i :: 0 <= i < |fs| && IsInterceptorMsg(fs[i]) {
        var i :| 0 <= i < |fs| && IsInterceptorMsg(fs[i]);
        if i > 0 {
          assert IsInterceptorMsg(fs[1..][i - 1]);
        }
      }
      if exists i :: 0 <= i < |fs| - 1 && IsInterceptorMsg(fs[1..][i]) {
        var i :| 0 <= i < |fs| - 1 && IsInterceptorMsg(fs[1..][i]);
        assert IsInterceptorMsg(fs[i + 1]);
      }
    }
  }

  /** Once the interceptor is seen, no trace moves the digital gas history. */
  lemma {:induction false} TraceDigitalGasFrozen(s: SafetyState, fs: seq<Frame>)
    requires s.gasInterceptorDetected
    ensures RxTrace(s, fs).gasInterceptorDetected
    ensures RxTrace(s, fs).gasPrev == s.gasPrev
    decreases |fs|
  {
    if |fs| > 0 {
      TraceDigitalGasFrozen(RxStep(s, fs[0]), fs[1..]);
    }
  }

  /** The latch is on after a trace only if it was on before and no cancel
      button came, or some set or resume button came and no cancel button
      after it. */
  lemma {:induction false} TraceLatchProvenance(s: SafetyState, fs: seq<Frame>)
    requires RxTrace(s, fs).controlsAllowed
    ensures || (s.controlsAllowed && forall j :: 0 <= j < |fs| ==> !CancelsControls(fs[j]))
            || exists i :: 0 <= i < |fs| && EnablesControls(fs[i])
                 && forall j :: i < j < |fs| ==> !CancelsControls(fs[j])
    decreases |fs|
  {
    if |fs| > 0 {
      var s1 := RxStep(s, fs[0]);
      var rest := fs[1..];
      TraceLatchProvenance(s1, rest);
      assert forall j :: 0 < j < |fs| ==> fs[j] == rest[j - 1];
      if !(s1.controlsAllowed && forall j :: 0 <= j < |rest| ==> !CancelsControls(rest[j])) {
        var i :| 0 <= i < |rest| && EnablesControls(rest[i])
                 && forall j :: i < j < |rest| ==> !CancelsControls(rest[j]);
        assert EnablesControls(fs[i + 1]);
      }
    }
  }

  /** No trace leaves the ranges the decoders guarantee. */
  lemma {:induction false} TraceKeepsRange(s: SafetyState, fs: seq<Frame>)
    requires InRange(s)
    ensures InRange(RxTrace(s, fs))
    decreases |fs|
  {
    if |fs| > 0 {
      RxKeepsRange(s, fs[0]);
      TraceKeepsRange(RxStep(s, fs[0]), fs[1..]);
    }
  }

  /** The hardware variant is fixed by init; no received frame changes it. */
  lemma {:induction false} TraceKeepsVariant(s: SafetyState, fs: seq<Frame>)
    ensures RxTrace(s, fs).boschHardware == s.boschHardware
    decreases |fs|
  {
    if |fs| > 0 {
      TraceKeepsVariant(RxStep(s, fs[0]), fs[1..]);
    }
  }

  /** The interceptor samples 300, 300, 340 (threshold 328): the latch
      survives the first two and falls exactly at the crossing. */
  lemma InterceptorCrossingExample(s: SafetyState)
    requires s.controlsAllowed && s.gasInterceptorPrev <= GasInterceptorThreshold
    ensures RxTrace(s, [Gas300(), Gas300()]).controlsAllowed
    ensures !RxTrace(s, [Gas300(), Gas300(), Gas340()]).controlsAllowed
  {
    var s1 := RxStep(s, Gas300());
    var s2 := RxStep(s1, Gas300());
    assert RxTrace(s, [Gas300(), Gas300()]) == RxTrace(s2, []);
    assert RxTrace(s, [Gas300(), Gas300(), Gas340()]) == RxTrace(RxStep(s2, Gas340()), []);
  }

  /** Interceptor frames carrying the samples 300 (0x012C) and 340 (0x0154),
      byte 0 first. */
  function Gas300(): (f: Frame)
    ensures IsInterceptorMsg(f) && InterceptorValue(f) == 300
  {
    Mailbox(InterceptorMsg, InterceptorLen, 0x2C01, 0)
  }

  function Gas340(): (f: Frame)
    ensures IsInterceptorMsg(f) && InterceptorValue(f) == 340
  {
    Mailbox(InterceptorMsg, InterceptorLen, 0x5401, 0)
  }

  // ---------------------------------------------------------------------
  // The hooks driven through the globals, as the board calls them

  /** A Bosch board: resume enables steering, then a brake press blocks it. */
  method BoschSession() returns (before: bool, after: bool)
    ensures before && !after
  {
    var globals := new SafetyGlobals();
    globals.BoschInit();
    globals.RxHook(Mailbox(ButtonsIlxMsg, 8, 0x80, 0));
    var steer := Mailbox(SteerCmd, 5, 0x1234, 0);
    before := TxHook(globals.Current(), steer);
    globals.RxHook(Mailbox(BoschBrakeMsg, 8, 0x10, 0));
    after := TxHook(globals.Current(), steer);
  }
}
