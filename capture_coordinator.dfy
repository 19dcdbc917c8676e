/** The capture coordinator of capture.c: the capState record, the protocol
    Init / Configure / Arm / Start / Disarm / Stop / HotStandby, the report
    handlers that join the two engines' results, and the calibration
    capture builder.

    Calls into other firmware modules (the state machine, the SGPIO and
    VADC engine drivers, the clock unit and the USB handler) are methods of
    Capture whose reply is unconstrained; each appends to a ghost log, `hw`
    for hardware and module calls and `outbox` for what goes to the host,
    so the contracts can say which calls were made, in which order, with
    which arguments. */
module CaptureCoordinator {
  import opened CaptureTypes
  import opened RateSelector
  import opened BufferPlanner
  import opened ConfigCheck

  /** capture_purpose_t */
  datatype Purpose = PurposeNone | PurposeHostRequest | PurposeShortShot | PurposeCalibrate

  /** capture_host_request_t */
  datatype HostRequest = HostDoesNothing | HostDisarmed | HostArmed

  datatype Engine = Sgpio | Vadc

  /** A call into another firmware module or into the hardware. */
  datatype HwCall =
    | StateRequested(reply: Status)
      // statemachine_RequestState(STATE_CAPTURING)
    | PllProgrammed(rateIndex: int)
      // PLL0AUDIO set to a RATECONFIG row (with the clocks gated around it)
    | EngineInit(engine: Engine)
    | SgpioConfigured(buffer: CircBuff, sgpio: SgpioCfg, postFill: uint32,
                      forcedTrigger: bool, counter: nat, reply: Status)
    | VadcConfigured(buffer: CircBuff, vadc: VadcCfg, postFill: uint32,
                     forcedTrigger: bool, reply: Status)
    | Prepared(engine: Engine, reply: Status)
      // cap_*_PrepareToArm
    | Armed(engine: Engine)
    | Disarmed(engine: Engine)

  /** What the USB handler is asked to send to the host. */
  datatype Outbound = SamplesSent(samples: CapturedSamples) | FailureSignalled(error: Status)

  /*---------------------------------------------------------------------
   * Configure, as functions of the configuration
   *-------------------------------------------------------------------*/

  /** Neither a digital nor an analog channel is enabled. */
  predicate NoChannels(cfg: CaptureCfg) {
    cfg.numEnabledSGPIO == 0 && PhysicalVadc(cfg.numEnabledVADC) == 0
  }

  /** Forced-trigger mode: no enabled engine has a trigger configured. */
  predicate ForcedTrigger(cfg: CaptureCfg) {
    !((cfg.numEnabledSGPIO > 0 && cfg.sgpio.enabledTriggers != 0)
      || (PhysicalVadc(cfg.numEnabledVADC) > 0 && cfg.vadc.enabledTriggers != 0))
  }

  /** Configure gets as far as capture_SetSampleRate. */
  predicate ReachesRate(cfg: CaptureCfg) {
    !NoChannels(cfg) && WeightedConfigCheck(cfg) == Ok
  }

  /** The checks capture_Configure makes before it configures any engine,
      in order: some channel enabled, the weighted check, the sample rate,
      the buffer plan. */
  function Preflight(cfg: CaptureCfg): Status {
    if NoChannels(cfg) then ErrNoChannelsEnabled
    else if WeightedConfigCheck(cfg) != Ok then WeightedConfigCheck(cfg)
    else if !RateAccepted(cfg.sampleRate, AsInt32(PhysicalVadc(cfg.numEnabledVADC))) then ErrUnsupportedSampleRate
    else if PlanBuffers(cfg).None? then ErrInvalidSignalCombination
    else Ok
  }

  /** Configure's own verdicts: NO_CHANNELS_ENABLED exactly when no channel
      is enabled; a passing configuration satisfies the weighted check,
      selects an accepted rate and has a buffer plan. */
  lemma PreflightOutcomes(cfg: CaptureCfg)
    ensures Preflight(cfg) == ErrNoChannelsEnabled <==> NoChannels(cfg)
    ensures Preflight(cfg) in {Ok, ErrNoChannelsEnabled, ErrInvalidSignalCombination, ErrUnsupportedSampleRate}
    ensures Preflight(cfg) == Ok <==>
      && !NoChannels(cfg)
      && WeightedConfigCheck(cfg) == Ok
      && RateAccepted(cfg.sampleRate, AsInt32(PhysicalVadc(cfg.numEnabledVADC)))
      && PlanBuffers(cfg).Some?
  {
  }

  /** The calls capture_SetSampleRate makes: none when the rate and the
      analog count are those cached, or when the rate is refused; otherwise
      one reprogramming of the PLL to the selected row. */
  function SetRateCalls(oldIdx: int, oldLast: int, rate: uint32, numVADC: int): seq<HwCall>
    requires IsRateIndex(oldIdx)
  {
    if rate == RATECONFIG[oldIdx].sampleRate && oldLast == numVADC then []
    else if RateAccepted(rate, numVADC) then [PllProgrammed(RateIndexSpec(rate, numVADC))]
    else []
  }

  /** The state-machine request a host-request Configure (or Arm) makes. */
  function GateCalls(gated: bool, reply: Status): seq<HwCall> {
    if gated then [StateRequested(reply)] else []
  }

  /** The engine configuration calls of capture_Configure once every check
      has passed, given the engines' replies: the SGPIO engine if digital
      channels are enabled, then the VADC engine if analog channels are
      enabled and the SGPIO engine did not refuse. */
  function EngineConfigCalls(cfg: CaptureCfg, sbuf: CircBuff, vbuf: CircBuff, counter: nat,
                             sReply: Status, vReply: Status): seq<HwCall>
  {
    var forced := ForcedTrigger(cfg);
    var sOn := cfg.numEnabledSGPIO > 0;
    (if sOn then [SgpioConfigured(sbuf, cfg.sgpio, cfg.postFill, forced, counter, sReply)] else [])
    + (if (sOn && sReply != Ok) || PhysicalVadc(cfg.numEnabledVADC) == 0 then []
       else [VadcConfigured(vbuf, cfg.vadc, cfg.postFill, forced, vReply)])
  }

  /** The first refusal among the engine configuration calls, or Ok. */
  function EngineConfigOutcome(cfg: CaptureCfg, sReply: Status, vReply: Status): Status {
    if cfg.numEnabledSGPIO > 0 && sReply != Ok then sReply
    else if PhysicalVadc(cfg.numEnabledVADC) > 0 && vReply != Ok then vReply
    else Ok
  }

  /** Every engine is configured with the same forced-trigger flag, which
      is false exactly when some enabled engine has a trigger; a digital
      engine is configured with the current rate's counter. */
  lemma EngineConfigCallsAgree(cfg: CaptureCfg, sbuf: CircBuff, vbuf: CircBuff, counter: nat,
                               sReply: Status, vReply: Status)
    ensures var t := EngineConfigCalls(cfg, sbuf, vbuf, counter, sReply, vReply);
      forall k :: 0 <= k < |t| ==>
        && (t[k].SgpioConfigured? ==> t[k].forcedTrigger == ForcedTrigger(cfg)
                                      && t[k].counter == counter && t[k].buffer == sbuf)
        && (t[k].VadcConfigured? ==> t[k].forcedTrigger == ForcedTrigger(cfg) && t[k].buffer == vbuf)
    ensures EngineConfigOutcome(cfg, sReply, vReply) == Ok <==>
      var t := EngineConfigCalls(cfg, sbuf, vbuf, counter, sReply, vReply);
      && (forall k :: 0 <= k < |t| ==> t[k].reply == Ok)
      && (cfg.numEnabledSGPIO > 0 ==> |t| > 0 && t[0].SgpioConfigured?)
      && (PhysicalVadc(cfg.numEnabledVADC) > 0 ==> |t| > 0 && t[|t| - 1].VadcConfigured?)
    ensures var t := EngineConfigCalls(cfg, sbuf, vbuf, counter, sReply, vReply);
      cfg.numEnabledSGPIO > 0 && sReply != Ok ==> |t| == 1 && t[0].SgpioConfigured?
  {
  }

  /** What the checked block of capture_Configure works on and leaves
      behind: the result, the enabled counts, the rate row, the cached
      analog count, both buffer descriptors and the call log. */
  datatype Checked = Checked(
    result: Status,
    sgpioCount: int32,
    vadcCount: int32,
    rateIdx: int,
    lastNumVADC: int,
    sgpioBuffer: CircBuff,
    vadcBuffer: CircBuff,
    log: seq<HwCall>)

  /** The checked block of capture_Configure (the enabled counts zeroed on
      entry), from rate row idx0, cached count last0, descriptors sbuf0 and
      vbuf0 and call log log0, given the engines' replies. The rate is
      applied before the buffers are planned, so a missing plan leaves the
      new rate in place; the counts are recorded only on full success. */
  function CheckedBlock(cfg: CaptureCfg, idx0: int, last0: int, sbuf0: CircBuff, vbuf0: CircBuff,
                        log0: seq<HwCall>, sReply: Status, vReply: Status): Checked
    requires IsRateIndex(idx0)
  {
    var n := VadcArg(cfg);
    if NoChannels(cfg) then Checked(ErrNoChannelsEnabled, 0, 0, idx0, last0, sbuf0, vbuf0, log0)
    else if WeightedConfigCheck(cfg) != Ok then
      Checked(WeightedConfigCheck(cfg), 0, 0, idx0, last0, sbuf0, vbuf0, log0)
    else if !RateAccepted(cfg.sampleRate, n) then
      Checked(ErrUnsupportedSampleRate, 0, 0, idx0, last0, sbuf0, vbuf0,
              log0 + SetRateCalls(idx0, last0, cfg.sampleRate, n))
    else
      PlacedBlock(cfg, RateIndexSpec(cfg.sampleRate, n), n, sbuf0, vbuf0,
                  log0 + SetRateCalls(idx0, last0, cfg.sampleRate, n), sReply, vReply)
  }

  /** The tail of the checked block, once rate row idx (looked up for the
      analog count last) is in place: the buffers are planned and, when
      there is a plan, placed and the engines configured. */
  function PlacedBlock(cfg: CaptureCfg, idx: int, last: int, sbuf0: CircBuff, vbuf0: CircBuff,
                       log0: seq<HwCall>, sReply: Status, vReply: Status): Checked
    requires IsRateIndex(idx)
  {
    var plan := PlanBuffers(cfg);
    if plan.None? then Checked(ErrInvalidSignalCombination, 0, 0, idx, last, sbuf0, vbuf0, log0)
    else
      var sbuf := Place(plan.value.sgpio, sbuf0);
      var vbuf := Place(plan.value.vadc, vbuf0);
      var r := EngineConfigOutcome(cfg, sReply, vReply);
      Checked(r, if r == Ok then AsInt32(cfg.numEnabledSGPIO) else 0, if r == Ok then VadcArg(cfg) else 0,
              idx, last, sbuf, vbuf,
              log0 + EngineConfigCalls(cfg, sbuf, vbuf, RATECONFIG[idx].counter, sReply, vReply))
  }

  /** What the checked block means: a failed check is reported as
      Preflight says and past the checks the result is the first engine
      refusal; the counts are recorded exactly on success; an accepted rate
      is applied (and the PLL reprogrammed unless it was cached) whatever
      happens to the buffers, a refused one changes nothing; the buffers
      follow the plan once there is one; every engine call comes after the
      rate calls. */
  lemma CheckedBlockMeaning(cfg: CaptureCfg, idx0: int, last0: int, sbuf0: CircBuff, vbuf0: CircBuff,
                            log0: seq<HwCall>, sReply: Status, vReply: Status)
    requires IsRateIndex(idx0)
    ensures var c := CheckedBlock(cfg, idx0, last0, sbuf0, vbuf0, log0, sReply, vReply);
            var n := VadcArg(cfg);
            var rated := ReachesRate(cfg) && RateAccepted(cfg.sampleRate, n);
      && (Preflight(cfg) != Ok ==> c.result == Preflight(cfg))
      && (Preflight(cfg) == Ok ==> c.result == EngineConfigOutcome(cfg, sReply, vReply))
      && (c.result == Ok <==> Preflight(cfg) == Ok && EngineConfigOutcome(cfg, sReply, vReply) == Ok)
      && c.sgpioCount == (if c.result == Ok then AsInt32(cfg.numEnabledSGPIO) else 0)
      && c.vadcCount == (if c.result == Ok then n else 0)
      && (rated ==> c.rateIdx == RateIndexSpec(cfg.sampleRate, n) && IsRateIndex(c.rateIdx)
                    && RATECONFIG[c.rateIdx].sampleRate == cfg.sampleRate && c.lastNumVADC == n)
      && (!rated ==> c.rateIdx == idx0 && c.lastNumVADC == last0
                     && c.sgpioBuffer == sbuf0 && c.vadcBuffer == vbuf0)
      && (rated && PlanBuffers(cfg).Some? ==>
            c.sgpioBuffer == Place(PlanBuffers(cfg).value.sgpio, sbuf0)
            && c.vadcBuffer == Place(PlanBuffers(cfg).value.vadc, vbuf0))
      && (PlanBuffers(cfg).None? ==> c.sgpioBuffer == sbuf0 && c.vadcBuffer == vbuf0)
      && (!ReachesRate(cfg) ==> c.log == log0)
      && (ReachesRate(cfg) ==>
            c.log == log0 + SetRateCalls(idx0, last0, cfg.sampleRate, n)
                     + (if Preflight(cfg) == Ok
                        then EngineConfigCalls(cfg, c.sgpioBuffer, c.vadcBuffer,
                                               RATECONFIG[c.rateIdx].counter, sReply, vReply)
                        else []))
  {
    RateLookupCorrect(cfg.sampleRate, VadcArg(cfg));
  }

  /** capture_Configure as a whole, from enabled counts sc0 and vc0 and
      the rest as for CheckedBlock, given the state machine's reply as well:
      an escape analog count goes straight to the checked block; any other
      count first asks for CAPTURING, and a refusal ends the call with only
      that request made. */
  function ConfigureOutcome(cfg: CaptureCfg, sc0: int32, vc0: int32, idx0: int, last0: int,
                            sbuf0: CircBuff, vbuf0: CircBuff, log0: seq<HwCall>,
                            stReply: Status, sReply: Status, vReply: Status): Checked
    requires IsRateIndex(idx0)
  {
    if IsEscape(cfg.numEnabledVADC) then CheckedBlock(cfg, idx0, last0, sbuf0, vbuf0, log0, sReply, vReply)
    else if stReply != Ok then Checked(stReply, sc0, vc0, idx0, last0, sbuf0, vbuf0, log0 + [StateRequested(stReply)])
    else CheckedBlock(cfg, idx0, last0, sbuf0, vbuf0, log0 + [StateRequested(Ok)], sReply, vReply)
  }

  /** A Configure that succeeded was granted CAPTURING (when it asked) and
      got OK from every engine it configured, so what it did is what it
      does when every reply is OK. */
  lemma SuccessfulConfigureOutcome(cfg: CaptureCfg, sc0: int32, vc0: int32, idx0: int, last0: int,
                                   sbuf0: CircBuff, vbuf0: CircBuff, log0: seq<HwCall>,
                                   stReply: Status, sReply: Status, vReply: Status)
    requires IsRateIndex(idx0)
    requires ConfigureOutcome(cfg, sc0, vc0, idx0, last0, sbuf0, vbuf0, log0, stReply, sReply, vReply).result == Ok
    ensures ConfigureOutcome(cfg, sc0, vc0, idx0, last0, sbuf0, vbuf0, log0, stReply, sReply, vReply)
            == ConfigureOutcome(cfg, sc0, vc0, idx0, last0, sbuf0, vbuf0, log0, Ok, Ok, Ok)
  {
    var log1 := log0 + GateCalls(!IsEscape(cfg.numEnabledVADC), Ok);
    CheckedBlockMeaning(cfg, idx0, last0, sbuf0, vbuf0, log1, sReply, vReply);
    CheckedBlockMeaning(cfg, idx0, last0, sbuf0, vbuf0, log1, Ok, Ok);
  }

  /*---------------------------------------------------------------------
   * Arm, as functions of the engines' replies
   *-------------------------------------------------------------------*/

  /** The first refusal among the PrepareToArm calls, or Ok. */
  function ArmOutcome(sOn: bool, vOn: bool, sReply: Status, vReply: Status): Status {
    if sOn && sReply != Ok then sReply
    else if vOn && vReply != Ok then vReply
    else Ok
  }

  /** The PrepareToArm calls of capture_Arm: one per enabled engine,
      stopping at the first refusal. */
  function PrepareCalls(sOn: bool, vOn: bool, sReply: Status, vReply: Status): seq<HwCall> {
    (if sOn then [Prepared(Sgpio, sReply)] else [])
    + (if (sOn && sReply != Ok) || !vOn then [] else [Prepared(Vadc, vReply)])
  }

  /** The Arm calls of capture_Arm: one per enabled engine. */
  function ArmedCalls(sOn: bool, vOn: bool): seq<HwCall> {
    (if sOn then [Armed(Sgpio)] else []) + (if vOn then [Armed(Vadc)] else [])
  }

  /** The engine calls of capture_Arm: the preparations, then the arm
      calls only if every preparation succeeded. */
  function ArmCalls(sOn: bool, vOn: bool, sReply: Status, vReply: Status): seq<HwCall> {
    PrepareCalls(sOn, vOn, sReply, vReply)
    + (if ArmOutcome(sOn, vOn, sReply, vReply) != Ok then [] else ArmedCalls(sOn, vOn))
  }

  /** The calls of capture_Arm: a gated (host-request) capture first asks
      for CAPTURING and makes no engine call when refused. */
  function ArmLog(gated: bool, stReply: Status, sOn: bool, vOn: bool, sReply: Status, vReply: Status): seq<HwCall> {
    if gated && stReply != Ok then [StateRequested(stReply)]
    else GateCalls(gated, stReply) + ArmCalls(sOn, vOn, sReply, vReply)
  }

  /** Two-phase arming: no engine is armed unless every enabled engine was
      prepared successfully, and every preparation comes before every arm;
      when all preparations succeed exactly the enabled engines are armed. */
  lemma TwoPhaseArming(sOn: bool, vOn: bool, sReply: Status, vReply: Status)
    ensures var t := ArmCalls(sOn, vOn, sReply, vReply);
      && (forall k, j :: 0 <= k < |t| && 0 <= j < |t| && t[k].Armed? && t[j].Prepared? ==>
            j < k && t[j].reply == Ok)
      && ((exists k :: 0 <= k < |t| && t[k].Armed?) ==>
            (sOn ==> Prepared(Sgpio, Ok) in t) && (vOn ==> Prepared(Vadc, Ok) in t))
      && (ArmOutcome(sOn, vOn, sReply, vReply) == Ok <==> (sOn ==> sReply == Ok) && (vOn ==> vReply == Ok))
      && (ArmOutcome(sOn, vOn, sReply, vReply) == Ok ==>
            (Armed(Sgpio) in t <==> sOn) && (Armed(Vadc) in t <==> vOn))
      && (ArmOutcome(sOn, vOn, sReply, vReply) != Ok ==> forall k :: 0 <= k < |t| ==> !t[k].Armed?)
  {
  }

  /** The calls of capture_Disarm: each enabled engine is disarmed. */
  function DisarmCalls(sOn: bool, vOn: bool): seq<HwCall> {
    (if sOn then [Disarmed(Sgpio)] else []) + (if vOn then [Disarmed(Vadc)] else [])
  }

  /*---------------------------------------------------------------------
   * Report handlers, as functions of the record
   *-------------------------------------------------------------------*/

  /** A completion or failure report from one engine. None stands for a
      NULL buffer. */
  datatype Report =
    | SgpioDone(buff: Option<CircBuff>, trigpoint: bv32, triggerSample: uint32, activeChannels: uint32)
    | SgpioFailed(error: Status)
    | VadcDone(buff: Option<CircBuff>, trigpoint: bv32, triggerSample: uint32, activeChannels: uint32)
    | VadcFailed(error: Status)

  /** The captured-samples record after a report: a completion ORs its
      trigger bits in (digital in the low half, analog shifted up by 16)
      and stores its engine's sample, channels and buffer; a failure leaves
      the record alone. */
  function Recorded(s: CapturedSamples, rep: Report): CapturedSamples {
    match rep
    case SgpioDone(b, t, ts, ac) =>
      s.(trigpoint := s.trigpoint | t, sgpioTrigSample := ts, sgpioActiveChannels := ac, sgpioSamples := b)
    case VadcDone(b, t, ts, ac) =>
      s.(trigpoint := s.trigpoint | (t << 16), vadcTrigSample := ts, vadcActiveChannels := ac, vadcSamples := b)
    case _ => s
  }

  /** What a report sends, given the record after it and the enabled
      counts: a completion sends the whole record once the partner engine
      is disabled or has stored its buffer; a failure is forwarded only
      when the partner engine is disabled. */
  function Sent(s: CapturedSamples, sgpioCount: int, vadcCount: int, rep: Report): seq<Outbound> {
    match rep
    case SgpioDone(_, _, _, _) => if vadcCount == 0 || s.vadcSamples.Some? then [SamplesSent(s)] else []
    case VadcDone(_, _, _, _) => if sgpioCount == 0 || s.sgpioSamples.Some? then [SamplesSent(s)] else []
    case SgpioFailed(e) => if vadcCount == 0 then [FailureSignalled(e)] else []
    case VadcFailed(e) => if sgpioCount == 0 then [FailureSignalled(e)] else []
  }

  /** The record and the messages after a sequence of reports. */
  function Replay(s: CapturedSamples, sgpioCount: int, vadcCount: int, reps: seq<Report>): (res: (CapturedSamples, seq<Outbound>))
    decreases |reps|
  {
    if reps == [] then (s, [])
    else
      var s1 := Recorded(s, reps[0]);
      var rest := Replay(s1, sgpioCount, vadcCount, reps[1..]);
      (rest.0, Sent(s1, sgpioCount, vadcCount, reps[0]) + rest.1)
  }

  /** Replaying a single report. */
  lemma ReplayOne(s: CapturedSamples, sgpioCount: int, vadcCount: int, x: Report)
    ensures Replay(s, sgpioCount, vadcCount, [x]) ==
            (Recorded(s, x), Sent(Recorded(s, x), sgpioCount, vadcCount, x))
  {
    var s1 := Recorded(s, x);
    assert [x][1..] == [];
    assert Replay(s1, sgpioCount, vadcCount, []) == (s1, []);
    var r := Replay(s, sgpioCount, vadcCount, [x]);
    assert r.0 == Replay(s1, sgpioCount, vadcCount, []).0;
    assert r.1 == Sent(s1, sgpioCount, vadcCount, x) + Replay(s1, sgpioCount, vadcCount, []).1;
    assert Sent(s1, sgpioCount, vadcCount, x) + [] == Sent(s1, sgpioCount, vadcCount, x);
  }

  /** Replaying two reports: the second sees the record the first left. */
  lemma ReplayTwo(s: CapturedSamples, sgpioCount: int, vadcCount: int, x: Report, y: Report)
    ensures var s1 := Recorded(s, x);
            Replay(s, sgpioCount, vadcCount, [x, y]) ==
            (Recorded(s1, y), Sent(s1, sgpioCount, vadcCount, x) + Sent(Recorded(s1, y), sgpioCount, vadcCount, y))
  {
    assert [x, y][1..] == [y];
    ReplayOne(Recorded(s, x), sgpioCount, vadcCount, y);
  }

  /** The trigger word of a joint capture keeps the digital bits in its low
      half and, when those fit in 16 bits, the analog bits in its high half. */
  lemma TrigpointHalves(st: bv32, vt: bv32)
    ensures (st | (vt << 16)) & 0xffff == st & 0xffff
    ensures st < 0x1_0000 ==> (st | (vt << 16)) >> 16 == vt & 0xffff
    ensures (0 | st) | (vt << 16) == st | (vt << 16)
    ensures (0 | (vt << 16)) | st == st | (vt << 16)
  {
  }

  /** The record both completions leave, whichever comes first. */
  lemma JointRecord(sb: CircBuff, st: bv32, sts: uint32, sac: uint32,
                    vb: CircBuff, vt: bv32, vts: uint32, vac: uint32)
    ensures var d := SgpioDone(Some(sb), st, sts, sac);
            var a := VadcDone(Some(vb), vt, vts, vac);
            var both := CapturedSamples(st | (vt << 16), sts, sac, Some(sb), vts, vac, Some(vb));
      Recorded(Recorded(NoSamples, d), a) == both && Recorded(Recorded(NoSamples, a), d) == both
  {
    TrigpointHalves(st, vt);
  }

  /** Joint completion: after Arm cleared the record, with both engines
      enabled, one digital and one analog completion with buffers, in
      either order, send the combined record exactly once, after the
      second report; both orders give the same record, whose trigger word
      is the digital bits ORed with the analog bits shifted up by 16. */
  lemma JointCompletion(sgpioCount: int, vadcCount: int,
                        sb: CircBuff, st: bv32, sts: uint32, sac: uint32,
                        vb: CircBuff, vt: bv32, vts: uint32, vac: uint32)
    requires sgpioCount != 0 && vadcCount != 0
    ensures var d := SgpioDone(Some(sb), st, sts, sac);
            var a := VadcDone(Some(vb), vt, vts, vac);
            var both := CapturedSamples(st | (vt << 16), sts, sac, Some(sb), vts, vac, Some(vb));
      && Replay(NoSamples, sgpioCount, vadcCount, [d]).1 == []
      && Replay(NoSamples, sgpioCount, vadcCount, [a]).1 == []
      && Replay(NoSamples, sgpioCount, vadcCount, [d, a]) == (both, [SamplesSent(both)])
      && Replay(NoSamples, sgpioCount, vadcCount, [a, d]) == (both, [SamplesSent(both)])
  {
    var d := SgpioDone(Some(sb), st, sts, sac);
    var a := VadcDone(Some(vb), vt, vts, vac);
    var both := CapturedSamples(st | (vt << 16), sts, sac, Some(sb), vts, vac, Some(vb));
    JointRecord(sb, st, sts, sac, vb, vt, vts, vac);
    ReplayOne(NoSamples, sgpioCount, vadcCount, d);
    ReplayOne(NoSamples, sgpioCount, vadcCount, a);
    ReplayTwo(NoSamples, sgpioCount, vadcCount, d, a);
    ReplayTwo(NoSamples, sgpioCount, vadcCount, a, d);
    assert Sent(both, sgpioCount, vadcCount, a) == [SamplesSent(both)];
    assert Sent(both, sgpioCount, vadcCount, d) == [SamplesSent(both)];
    assert [] + [SamplesSent(both)] == [SamplesSent(both)];
  }

  /** A capture with only one engine enabled sends its record as soon as
      that engine completes, and forwards that engine's failure; a failure
      is dropped while the partner engine is enabled. */
  lemma SingleEngineReports(sgpioCount: int, vadcCount: int, rep: Report)
    ensures var out := Replay(NoSamples, sgpioCount, vadcCount, [rep]).1;
      && (rep.SgpioDone? && vadcCount == 0 ==> out == [SamplesSent(Recorded(NoSamples, rep))])
      && (rep.VadcDone? && sgpioCount == 0 ==> out == [SamplesSent(Recorded(NoSamples, rep))])
      && (rep.SgpioFailed? ==> (out == [FailureSignalled(rep.error)] <==> vadcCount == 0))
      && (rep.VadcFailed? ==> (out == [FailureSignalled(rep.error)] <==> sgpioCount == 0))
      && (rep.SgpioFailed? || rep.VadcFailed? ==> Replay(NoSamples, sgpioCount, vadcCount, [rep]).0 == NoSamples)
  {
    assert [rep][1..] == [];
  }

  /*---------------------------------------------------------------------
   * Calibration capture
   *-------------------------------------------------------------------*/

  /** The calibration setup capture_ConfigureForCalibration writes over the
      previous one: both analog channels at 1 MHz with a forced trigger,
      DC coupling, no noise reduction, the same volts/div range on both
      channels (low and high nibble), 100 % post-fill with a post-trigger
      sample count of 0x0fffff, no digital channel. The digital trigger mask is not
      written and keeps its previous value. */
  function CalibrationSetup(prev: CaptureCfg, voltsPerDiv: int32, vadc: uint32): (c: CaptureCfg) {
    var val := (voltsPerDiv % 8) as bv32;
    prev.(
      numEnabledSGPIO := 0,
      numEnabledVADC := vadc,
      sampleRate := 1000000,
      postFill := 0x0fff_ff64,
      sgpio := prev.sgpio.(enabledChannels := 0),
      vadc := VadcCfg(3, 0, val | (val << 4), 0, 0))
  }

  /** Row 13 (1 MHz, counter 80) is what a lookup of 1 MHz selects with any
      analog channel, and it is accepted for any analog count. */
  lemma OneMegahertzSelected(numVADC: int)
    requires numVADC != 0
    ensures RateIndexSpec(1000000, numVADC) == 13
    ensures RateAccepted(1000000, numVADC)
  {
    assert RATECONFIG[13].sampleRate == 1000000 && RATECONFIG[13].counter == 80;
    assert forall j :: 0 <= j < 13 ==> RATECONFIG[j].sampleRate != 1000000;
    FirstRateMatchCorrect(0, 1000000);
  }

  /** The range written by capture_ConfigureForCalibration: `voltsPerDiv
      & 7` in the low nibble (channel A) and in the next nibble (channel B). */
  lemma CalibrationRangeNibbles(voltsPerDiv: int32)
    ensures var val := (voltsPerDiv % 8) as bv32;
      (val | (val << 4)) & 0xf == val && (val | (val << 4)) >> 4 == val && val < 8
  {
    var val := (voltsPerDiv % 8) as bv32;
    assert val < 8;
  }

  /** The calibration setup passes every check of capture_Configure
      whenever an analog count is given (and is refused only for a zero
      count), runs in forced-trigger mode, programs the range `voltsPerDiv
      & 7` into both channels' nibbles, and asks for 100 % post-fill with
      a post-trigger sample count of 0x0fffff. */
  lemma CalibrationSetupAccepted(prev: CaptureCfg, voltsPerDiv: int32, vadc: uint32)
    ensures var c := CalibrationSetup(prev, voltsPerDiv, vadc);
      && (vadc != 0 ==> Preflight(c) == Ok)
      && (vadc == 0 ==> Preflight(c) == ErrNoChannelsEnabled)
      && ForcedTrigger(c)
      && c.vadc.voltPerDiv & 0xf == c.vadc.voltPerDiv >> 4 == (voltsPerDiv % 8) as bv32
      && c.postFill % 0x100 == 100
      && c.postFill / 0x100 == 0x0f_ffff
  {
    var c := CalibrationSetup(prev, voltsPerDiv, vadc);
    CalibrationRangeNibbles(voltsPerDiv);
    if vadc != 0 {
      assert WeightedConfigCheck(c) == Ok;
      OneMegahertzSelected(AsInt32(PhysicalVadc(vadc)));
      assert PlanBuffers(c).Some?;
    }
  }

  /** Configure applied to the calibration setup with an escape count,
      from any state: it needs no CAPTURING grant, passes every check,
      selects the 1 MHz row 13 for the physical analog count, configures the
      VADC engine alone (forced trigger, 100 % post-fill) and returns its
      reply. The short-shot capture sizes the digital descriptor and hands
      the VADC engine the analog descriptor it already had; the
      calibration capture gives the analog descriptor the whole region. */
  lemma CalibrationConfigureOutcome(prev: CaptureCfg, voltsPerDiv: int32, vadc: uint32,
                                    sc0: int32, vc0: int32, idx0: int, last0: int,
                                    sbuf0: CircBuff, vbuf0: CircBuff, log0: seq<HwCall>,
                                    stReply: Status, sReply: Status, vReply: Status)
    requires IsRateIndex(idx0) && IsEscape(vadc)
    ensures var cs := CalibrationSetup(prev, voltsPerDiv, vadc);
            var c := ConfigureOutcome(cs, sc0, vc0, idx0, last0, sbuf0, vbuf0, log0, stReply, sReply, vReply);
            var n := AsInt32(PhysicalVadc(vadc));
      && c.result == vReply
      && c.rateIdx == 13 && c.lastNumVADC == n
      && c.sgpioCount == 0 && c.vadcCount == (if vReply == Ok then n else 0)
      && (vadc == NUM_ENABLED_VADC_SHORT_SHOT ==>
            c.sgpioBuffer == CircBuff(REGION_START, 2 * VADC_SHORT_SHOT_SAMPLES) && c.vadcBuffer == vbuf0)
      && (vadc == NUM_ENABLED_VADC_CALIBRATE ==> c.sgpioBuffer == sbuf0 && c.vadcBuffer == WholeRegion)
      && c.log == log0 + SetRateCalls(idx0, last0, 1000000, n)
                       + [VadcConfigured(c.vadcBuffer, cs.vadc, cs.postFill, true, vReply)]
  {
    var cs := CalibrationSetup(prev, voltsPerDiv, vadc);
    CalibrationSetupAccepted(prev, voltsPerDiv, vadc);
    OneMegahertzSelected(AsInt32(PhysicalVadc(vadc)));
    CheckedBlockMeaning(cs, idx0, last0, sbuf0, vbuf0, log0, sReply, vReply);
  }

  /*---------------------------------------------------------------------
   * capState
   *-------------------------------------------------------------------*/

  /** capState together with the function-static lastNumVADC of
      capture_SetSampleRate and the two prefill-complete flags. */
  class Capture {
    var sampleBufferSGPIO: CircBuff
    var sampleBufferVADC: CircBuff
    var enabledSgpioChannels: int32
    var enabledVadcChannels: int32
    var currentSampleRateIdx: int
    var capturedSamples: CapturedSamples
    var calibrationSetup: CaptureCfg
    var captureSetup: CaptureCfg
    var purpose: Purpose
    var hostRequest: HostRequest
    var lastNumVADC: int32
    var prefillSgpioDone: bool
    var prefillVadcDone: bool

    /** Calls made to other modules and to the hardware, oldest first. */
    ghost var hw: seq<HwCall>
    /** Messages handed to the USB handler, oldest first. */
    ghost var outbox: seq<Outbound>
    /** The latest reply of the state machine. */
    ghost var stateReply: Status
    /** The latest replies of the SGPIO and VADC engine drivers. */
    ghost var sgpioReply: Status
    ghost var vadcReply: Status
    /** The latest results of Configure, Arm and ConfigureForCalibration. */
    ghost var configureResult: Status
    ghost var armResult: Status
    ghost var calibrationResult: Status

    /** The rate cache is coherent: the current row is what a fresh lookup
        of its own rate for the cached analog count selects and accepts,
        so the no-change path of SetSampleRate answers as a lookup would.
        The remembered host configuration never carries an escape count. */
    ghost predicate Valid()
      reads this`currentSampleRateIdx, this`lastNumVADC, this`captureSetup
    {
      && (currentSampleRateIdx == -1 || CacheCoherent(currentSampleRateIdx, lastNumVADC))
      && !IsEscape(captureSetup.numEnabledVADC)
    }

    /** capture_Init has programmed the PLL. */
    predicate Initialized()
      reads this`currentSampleRateIdx
    {
      IsRateIndex(currentSampleRateIdx)
    }

    /** The static initialiser of capState (and of lastNumVADC). */
    constructor ()
      ensures Valid() && !Initialized()
      ensures currentSampleRateIdx == -1 && lastNumVADC == -1
      ensures enabledSgpioChannels == 0 && enabledVadcChannels == 0
      ensures capturedSamples == NoSamples
      ensures captureSetup == ZeroCfg && calibrationSetup == ZeroCfg
      ensures purpose == PurposeNone && hostRequest == HostDoesNothing
      ensures hw == [] && outbox == []
    {
      sampleBufferSGPIO := CircBuff(0, 0);
      sampleBufferVADC := CircBuff(0, 0);
      enabledSgpioChannels := 0;
      enabledVadcChannels := 0;
      currentSampleRateIdx := -1;
      capturedSamples := NoSamples;
      calibrationSetup := ZeroCfg;
      captureSetup := ZeroCfg;
      purpose := PurposeNone;
      hostRequest := HostDoesNothing;
      lastNumVADC := -1;
      prefillSgpioDone := false;
      prefillVadcDone := false;
      hw := [];
      outbox := [];
      stateReply := Ok;
      sgpioReply := Ok;
      vadcReply := Ok;
      configureResult := Ok;
      armResult := Ok;
      calibrationResult := Ok;
    }

    /*---- calls into other modules: the reply is not constrained ----*/

    method RequestCapturingState() returns (reply: Status)
      modifies this`hw, this`stateReply
      ensures stateReply == reply && hw == old(hw) + [StateRequested(reply)]
    {
      reply :| true;
      stateReply := reply;
      hw := hw + [StateRequested(reply)];
    }

    method ProgramPll(rateIndex: int)
      modifies this`hw
      ensures hw == old(hw) + [PllProgrammed(rateIndex)]
    {
      hw := hw + [PllProgrammed(rateIndex)];
    }

    method InitEngine(e: Engine)
      modifies this`hw
      ensures hw == old(hw) + [EngineInit(e)]
    {
      hw := hw + [EngineInit(e)];
    }

    method ConfigureSgpioEngine(buffer: CircBuff, sgpio: SgpioCfg, postFill: uint32,
                                forcedTrigger: bool, counter: nat) returns (reply: Status)
      modifies this`hw, this`sgpioReply
      ensures sgpioReply == reply
      ensures hw == old(hw) + [SgpioConfigured(buffer, sgpio, postFill, forcedTrigger, counter, reply)]
    {
      reply :| true;
      sgpioReply := reply;
      hw := hw + [SgpioConfigured(buffer, sgpio, postFill, forcedTrigger, counter, reply)];
    }

    method ConfigureVadcEngine(buffer: CircBuff, vadc: VadcCfg, postFill: uint32,
                               forcedTrigger: bool) returns (reply: Status)
      modifies this`hw, this`vadcReply
      ensures vadcReply == reply
      ensures hw == old(hw) + [VadcConfigured(buffer, vadc, postFill, forcedTrigger, reply)]
    {
      reply :| true;
      vadcReply := reply;
      hw := hw + [VadcConfigured(buffer, vadc, postFill, forcedTrigger, reply)];
    }

    method PrepareEngine(e: Engine) returns (reply: Status)
      modifies this`hw, this`sgpioReply, this`vadcReply
      ensures e == Sgpio ==> sgpioReply == reply && vadcReply == old(vadcReply)
      ensures e == Vadc ==> vadcReply == reply && sgpioReply == old(sgpioReply)
      ensures hw == old(hw) + [Prepared(e, reply)]
    {
      reply :| true;
      if e == Sgpio {
        sgpioReply := reply;
      } else {
        vadcReply := reply;
      }
      hw := hw + [Prepared(e, reply)];
    }

    method ArmEngine(e: Engine)
      modifies this`hw
      ensures hw == old(hw) + [Armed(e)]
    {
      hw := hw + [Armed(e)];
    }

    method DisarmEngine(e: Engine)
      modifies this`hw
      ensures hw == old(hw) + [Disarmed(e)]
    {
      hw := hw + [Disarmed(e)];
    }

    method SendSamples(samples: CapturedSamples)
      modifies this`outbox
      ensures outbox == old(outbox) + [SamplesSent(samples)]
    {
      outbox := outbox + [SamplesSent(samples)];
    }

    method SignalFailedSampling(error: Status)
      modifies this`outbox
      ensures outbox == old(outbox) + [FailureSignalled(error)]
    {
      outbox := outbox + [FailureSignalled(error)];
    }

    /*---- capture.c ----*/

    /** capture_SetSampleRate: the cached row is kept when neither the rate
        nor the analog count changed; otherwise the rate is looked up and
        refused when missing, or when two analog channels would need a
        counter of 1; an accepted rate reprograms the PLL and is cached. */
    method SetSampleRate(wantedRate: uint32, numVADC: int32) returns (r: Status)
      requires Valid() && Initialized()
      modifies this`currentSampleRateIdx, this`lastNumVADC, this`hw
      ensures Valid() && Initialized()
      ensures r == Ok || r == ErrUnsupportedSampleRate
      ensures r == Ok <==> RateAccepted(wantedRate, numVADC)
      ensures r == Ok ==> && currentSampleRateIdx == RateIndexSpec(wantedRate, numVADC)
                          && RATECONFIG[currentSampleRateIdx].sampleRate == wantedRate
                          && lastNumVADC == numVADC
      ensures r != Ok ==> currentSampleRateIdx == old(currentSampleRateIdx) && lastNumVADC == old(lastNumVADC)
      ensures hw == old(hw) + SetRateCalls(old(currentSampleRateIdx), old(lastNumVADC), wantedRate, numVADC)
    {
      var oldSampleRate := RATECONFIG[currentSampleRateIdx].sampleRate;
      if wantedRate != oldSampleRate || lastNumVADC != numVADC {
        var i := FindSampleRateIndex(wantedRate, numVADC);
        RateLookupCorrect(wantedRate, numVADC);
        if i != -1 {
          if numVADC == 2 && RATECONFIG[i].counter == 1 {
            return ErrUnsupportedSampleRate;
          }
          ProgramPll(i);
          currentSampleRateIdx := i;
          lastNumVADC := numVADC;
          FreshLookupCoherent(wantedRate, numVADC);
          return Ok;
        }
        return ErrUnsupportedSampleRate;
      }
      // no change
      return Ok;
    }

    /** capture_ConfigureCaptureBuffers: the descriptors are rewritten as
        the plan says; a missing plan is an invalid signal combination and
        leaves both as they were. */
    method ConfigureCaptureBuffers(cfg: CaptureCfg) returns (r: Status)
      modifies this`sampleBufferSGPIO, this`sampleBufferVADC
      ensures r == (if PlanBuffers(cfg).Some? then Ok else ErrInvalidSignalCombination)
      ensures PlanBuffers(cfg).None? ==>
        sampleBufferSGPIO == old(sampleBufferSGPIO) && sampleBufferVADC == old(sampleBufferVADC)
      ensures PlanBuffers(cfg).Some? ==>
        && sampleBufferSGPIO == Place(PlanBuffers(cfg).value.sgpio, old(sampleBufferSGPIO))
        && sampleBufferVADC == Place(PlanBuffers(cfg).value.vadc, old(sampleBufferVADC))
    {
      var vadc := cfg.numEnabledVADC;
      if vadc == 0 {
        // only digital capture
        sampleBufferSGPIO := CircBuff(REGION_START, REGION_SIZE);
        return Ok;
      }
      if vadc == NUM_ENABLED_VADC_SHORT_SHOT {
        sampleBufferSGPIO := CircBuff(REGION_START, 2 * VADC_SHORT_SHOT_SAMPLES);
        return Ok;
      } else if vadc == NUM_ENABLED_VADC_CALIBRATE {
        vadc := NUM_ENABLED_VADC_CA_ACTUAL;
      }
      if cfg.numEnabledSGPIO == 0 {
        // only analog capture
        sampleBufferVADC := CircBuff(REGION_START, REGION_SIZE);
        return Ok;
      }
      var numDIO := NumCopiedDios(cfg.sgpio.enabledChannels);
      var i := FindBufferConfig(vadc, numDIO);
      if i != -1 {
        BufferTableGeometry();
        sampleBufferSGPIO := CircBuff(REGION_START, BUFFERCONFIG[i].buffEndSGPIO - REGION_START);
        sampleBufferVADC := CircBuff(BUFFERCONFIG[i].buffStartVADC, REGION_END - BUFFERCONFIG[i].buffStartVADC);
        return Ok;
      }
      return ErrInvalidSignalCombination;
    }

    /** capture_Init: both descriptors span the whole region, the PLL runs
        at the initial 2 MHz row, the record is cleared and both engines
        are initialised. The cached analog count is not reset. */
    method Init()
      requires Valid()
      modifies this`sampleBufferSGPIO, this`sampleBufferVADC, this`currentSampleRateIdx,
               this`capturedSamples, this`hw
      ensures Valid() && Initialized()
      ensures sampleBufferSGPIO == WholeRegion && sampleBufferVADC == WholeRegion
      ensures currentSampleRateIdx == INITIAL_SAMPLE_RATE_IDX
      ensures RATECONFIG[currentSampleRateIdx].sampleRate == 2000000
      ensures capturedSamples == NoSamples
      ensures hw == old(hw) + [PllProgrammed(INITIAL_SAMPLE_RATE_IDX), EngineInit(Sgpio), EngineInit(Vadc)]
    {
      sampleBufferSGPIO := CircBuff(REGION_START, REGION_SIZE);
      sampleBufferVADC := CircBuff(REGION_START, REGION_SIZE);
      ProgramPll(INITIAL_SAMPLE_RATE_IDX);
      currentSampleRateIdx := INITIAL_SAMPLE_RATE_IDX;
      InitialRateCoherent(lastNumVADC);
      capturedSamples := NoSamples;
      InitEngine(Sgpio);
      InitEngine(Vadc);
    }

    /** capture_Configure. An escape analog count only sets the purpose; any
        other count is remembered as the host's configuration, sets purpose
        HOST_REQUEST and asks the state machine for CAPTURING, whose refusal
        ends the call with nothing else changed. Past that point both
        enabled counts are zeroed, the checks of Preflight run, the sample
        rate is applied BEFORE the buffers are planned (a planning failure
        leaves the new rate in place), the engines are configured, and only
        full success records the enabled counts. */
    method Configure(cfg: CaptureCfg) returns (r: Status)
      requires Valid() && Initialized()
      modifies this`purpose, this`captureSetup, this`stateReply, this`hw,
               this`enabledSgpioChannels, this`enabledVadcChannels,
               this`currentSampleRateIdx, this`lastNumVADC,
               this`sampleBufferSGPIO, this`sampleBufferVADC, this`configureResult,
               this`sgpioReply, this`vadcReply
      ensures Valid() && Initialized()
      ensures configureResult == r
      // tags
      ensures cfg.numEnabledVADC == NUM_ENABLED_VADC_SHORT_SHOT ==> purpose == PurposeShortShot
      ensures cfg.numEnabledVADC == NUM_ENABLED_VADC_CALIBRATE ==> purpose == PurposeCalibrate
      ensures IsEscape(cfg.numEnabledVADC) ==> captureSetup == old(captureSetup) && stateReply == old(stateReply)
      ensures !IsEscape(cfg.numEnabledVADC) ==> captureSetup == cfg && purpose == PurposeHostRequest
      // refused by the state machine
      ensures !IsEscape(cfg.numEnabledVADC) && stateReply != Ok ==>
        Checked(r, enabledSgpioChannels, enabledVadcChannels, currentSampleRateIdx, lastNumVADC,
                sampleBufferSGPIO, sampleBufferVADC, hw)
        == Checked(stateReply, old(enabledSgpioChannels), old(enabledVadcChannels),
                   old(currentSampleRateIdx), old(lastNumVADC), old(sampleBufferSGPIO), old(sampleBufferVADC),
                   old(hw) + [StateRequested(stateReply)])
      // the checked block
      ensures IsEscape(cfg.numEnabledVADC) || stateReply == Ok ==>
        Checked(r, enabledSgpioChannels, enabledVadcChannels, currentSampleRateIdx, lastNumVADC,
                sampleBufferSGPIO, sampleBufferVADC, hw)
        == CheckedBlock(cfg, old(currentSampleRateIdx), old(lastNumVADC),
                        old(sampleBufferSGPIO), old(sampleBufferVADC),
                        old(hw) + GateCalls(!IsEscape(cfg.numEnabledVADC), stateReply), sgpioReply, vadcReply)
    {
      var vadc;
      vadc, r := SelectPurpose(cfg);
      if r != Ok {
        configureResult := r;
        return;
      }
      r := ApplyConfiguration(cfg, vadc);
      configureResult := r;
    }

    /** The first part of capture_Configure: the purpose follows the
        analog count, whose escape codes are replaced by the physical
        channel counts they stand for; a non-escape configuration is
        remembered and needs CAPTURING granted by the state machine. */
    method SelectPurpose(cfg: CaptureCfg) returns (vadc: uint32, r: Status)
      requires Valid()
      modifies this`purpose, this`captureSetup, this`stateReply, this`hw
      ensures Valid()
      ensures vadc == PhysicalVadc(cfg.numEnabledVADC)
      ensures cfg.numEnabledVADC == NUM_ENABLED_VADC_SHORT_SHOT ==> purpose == PurposeShortShot
      ensures cfg.numEnabledVADC == NUM_ENABLED_VADC_CALIBRATE ==> purpose == PurposeCalibrate
      ensures IsEscape(cfg.numEnabledVADC) ==> captureSetup == old(captureSetup) && stateReply == old(stateReply)
      ensures !IsEscape(cfg.numEnabledVADC) ==> captureSetup == cfg && purpose == PurposeHostRequest
      ensures r == (if IsEscape(cfg.numEnabledVADC) then Ok else stateReply)
      ensures hw == old(hw) + GateCalls(!IsEscape(cfg.numEnabledVADC), stateReply)
    {
      vadc := cfg.numEnabledVADC;
      r := Ok;
      if vadc == NUM_ENABLED_VADC_SHORT_SHOT {
        vadc := NUM_ENABLED_VADC_SS_ACTUAL;
        purpose := PurposeShortShot;
      } else if vadc == NUM_ENABLED_VADC_CALIBRATE {
        vadc := NUM_ENABLED_VADC_CA_ACTUAL;
        purpose := PurposeCalibrate;
      } else {
        captureSetup := cfg;
        purpose := PurposeHostRequest;
        r := RequestCapturingState();
      }
    }

    /** The rest of capture_Configure once the state machine has agreed:
        both enabled counts are zeroed, the forced-trigger flag is worked
        out, then the do { ... } while (FALSE) block runs the checks of
        Preflight, applies the rate before the buffers are planned,
        configures the engines and records the enabled counts only on full
        success. */
    method ApplyConfiguration(cfg: CaptureCfg, vadc: uint32) returns (r: Status)
      requires Valid() && Initialized()
      requires vadc == PhysicalVadc(cfg.numEnabledVADC)
      modifies this`hw, this`enabledSgpioChannels, this`enabledVadcChannels,
               this`currentSampleRateIdx, this`lastNumVADC,
               this`sampleBufferSGPIO, this`sampleBufferVADC, this`sgpioReply, this`vadcReply
      ensures Valid() && Initialized()
      ensures Checked(r, enabledSgpioChannels, enabledVadcChannels, currentSampleRateIdx, lastNumVADC,
                      sampleBufferSGPIO, sampleBufferVADC, hw)
              == CheckedBlock(cfg, old(currentSampleRateIdx), old(lastNumVADC),
                              old(sampleBufferSGPIO), old(sampleBufferVADC), old(hw), sgpioReply, vadcReply)
    {
      // disable all channels until configuration is done
      enabledSgpioChannels := 0;
      enabledVadcChannels := 0;

      var forcedTrigger := true;
      if (cfg.numEnabledSGPIO > 0 && cfg.sgpio.enabledTriggers != 0)
         || (vadc > 0 && cfg.vadc.enabledTriggers != 0) {
        forcedTrigger := false;
      }

      // the do { ... } while (FALSE) block: each break ends the call
      if cfg.numEnabledSGPIO == 0 && vadc == 0 {
        // at least one digital or analog channel must be enabled
        return ErrNoChannelsEnabled;
      }
      r := WeightedConfigCheck(cfg);
      if r != Ok {
        return;
      }
      r := SetSampleRate(cfg.sampleRate, AsInt32(vadc));
      if r != Ok {
        return;
      }
      r := ConfigureBuffersAndEngines(cfg, vadc, forcedTrigger);
    }

    /** The rest of the checked block of capture_Configure, with the rate
        in place: the buffers, then the engines if the buffers could be
        planned. */
    method ConfigureBuffersAndEngines(cfg: CaptureCfg, vadc: uint32, forcedTrigger: bool) returns (r: Status)
      requires Initialized()
      requires vadc == PhysicalVadc(cfg.numEnabledVADC) && forcedTrigger == ForcedTrigger(cfg)
      requires enabledSgpioChannels == 0 && enabledVadcChannels == 0
      modifies this`hw, this`enabledSgpioChannels, this`enabledVadcChannels,
               this`sampleBufferSGPIO, this`sampleBufferVADC, this`sgpioReply, this`vadcReply
      ensures Checked(r, enabledSgpioChannels, enabledVadcChannels, currentSampleRateIdx, lastNumVADC,
                      sampleBufferSGPIO, sampleBufferVADC, hw)
              == PlacedBlock(cfg, currentSampleRateIdx, lastNumVADC,
                             old(sampleBufferSGPIO), old(sampleBufferVADC), old(hw), sgpioReply, vadcReply)
    {
      r := ConfigureCaptureBuffers(cfg);
      if r == Ok {
        r := ConfigureEngines(cfg, vadc, forcedTrigger);
      }
    }

    /** The last step of the checked block of capture_Configure: the SGPIO
        engine if digital channels are enabled, then the VADC engine if
        analog channels are enabled, stopping at the first refusal; the
        enabled counts are recorded only when both succeeded. */
    method ConfigureEngines(cfg: CaptureCfg, vadc: uint32, forcedTrigger: bool) returns (r: Status)
      requires Initialized()
      requires vadc == PhysicalVadc(cfg.numEnabledVADC) && forcedTrigger == ForcedTrigger(cfg)
      requires enabledSgpioChannels == 0 && enabledVadcChannels == 0
      modifies this`hw, this`enabledSgpioChannels, this`enabledVadcChannels, this`sgpioReply, this`vadcReply
      ensures r == EngineConfigOutcome(cfg, sgpioReply, vadcReply)
      ensures enabledSgpioChannels == (if r == Ok then AsInt32(cfg.numEnabledSGPIO) else 0)
      ensures enabledVadcChannels == (if r == Ok then AsInt32(vadc) else 0)
      ensures hw == old(hw) + EngineConfigCalls(cfg, sampleBufferSGPIO, sampleBufferVADC,
                                                RATECONFIG[currentSampleRateIdx].counter, sgpioReply, vadcReply)
    {
      if cfg.numEnabledSGPIO > 0 {
        r := ConfigureSgpioEngine(sampleBufferSGPIO, cfg.sgpio, cfg.postFill, forcedTrigger,
                                  RATECONFIG[currentSampleRateIdx].counter);
        if r != Ok {
          return;
        }
      }
      if vadc > 0 {
        r := ConfigureVadcEngine(sampleBufferVADC, cfg.vadc, cfg.postFill, forcedTrigger);
        if r != Ok {
          return;
        }
      }
      r := Ok;
      enabledSgpioChannels := AsInt32(cfg.numEnabledSGPIO);
      enabledVadcChannels := AsInt32(vadc);
    }

    /** capture_Arm. A host-request capture first asks the state machine
        for CAPTURING and stops at a refusal. Otherwise the record is
        cleared, each disabled engine's prefill is marked done, the enabled
        engines are prepared, stopping at the first refusal, and only then
        armed. Arm changes no configuration. */
    method Arm() returns (r: Status)
      requires Valid()
      modifies this`capturedSamples, this`prefillSgpioDone, this`prefillVadcDone,
               this`hw, this`stateReply, this`armResult, this`sgpioReply, this`vadcReply
      ensures Valid()
      ensures armResult == r
      ensures purpose != PurposeHostRequest ==> stateReply == old(stateReply)
      ensures !ArmProceeds() ==>
        && r == stateReply
        && capturedSamples == old(capturedSamples)
        && prefillSgpioDone == old(prefillSgpioDone) && prefillVadcDone == old(prefillVadcDone)
      ensures ArmProceeds() ==>
        && capturedSamples == NoSamples
        && prefillSgpioDone == (enabledSgpioChannels <= 0)
        && prefillVadcDone == (enabledVadcChannels <= 0 && (enabledSgpioChannels <= 0 || sgpioReply == Ok))
        && r == ArmOutcome(enabledSgpioChannels > 0, enabledVadcChannels > 0, sgpioReply, vadcReply)
      ensures hw == old(hw) + ArmLog(purpose == PurposeHostRequest, stateReply,
                                     enabledSgpioChannels > 0, enabledVadcChannels > 0, sgpioReply, vadcReply)
    {
      if purpose == PurposeHostRequest {
        r := RequestCapturingState();
        if r != Ok {
          armResult := r;
          return;
        }
      }
      r := ArmEnabledEngines();
      armResult := r;
    }

    /** capture_Arm past the state-machine request: the record is cleared,
        both prefill flags are reset, the enabled engines are prepared and,
        if every preparation succeeded, armed. */
    method ArmEnabledEngines() returns (r: Status)
      modifies this`capturedSamples, this`prefillSgpioDone, this`prefillVadcDone,
               this`hw, this`sgpioReply, this`vadcReply
      ensures capturedSamples == NoSamples
      ensures prefillSgpioDone == (enabledSgpioChannels <= 0)
      ensures prefillVadcDone == (enabledVadcChannels <= 0 && (enabledSgpioChannels <= 0 || sgpioReply == Ok))
      ensures r == ArmOutcome(enabledSgpioChannels > 0, enabledVadcChannels > 0, sgpioReply, vadcReply)
      ensures hw == old(hw) + ArmCalls(enabledSgpioChannels > 0, enabledVadcChannels > 0, sgpioReply, vadcReply)
    {
      capturedSamples := NoSamples;
      // CAP_PREFILL_SET_AS_NEEDED
      prefillSgpioDone := false;
      prefillVadcDone := false;

      var sOn := enabledSgpioChannels > 0;
      var vOn := enabledVadcChannels > 0;
      r := PrepareEngines(sOn, vOn);
      if r == Ok {
        ArmEngines(sOn, vOn);
      }
    }

    /** The preparation half of capture_Arm: PrepareToArm for each enabled
        engine, stopping at the first refusal; a disabled engine's prefill
        is marked done when its turn comes. */
    method PrepareEngines(sOn: bool, vOn: bool) returns (r: Status)
      modifies this`hw, this`sgpioReply, this`vadcReply, this`prefillSgpioDone, this`prefillVadcDone
      ensures r == ArmOutcome(sOn, vOn, sgpioReply, vadcReply)
      ensures prefillSgpioDone == (!sOn || old(prefillSgpioDone))
      ensures prefillVadcDone == ((!vOn && (!sOn || sgpioReply == Ok)) || old(prefillVadcDone))
      ensures hw == old(hw) + PrepareCalls(sOn, vOn, sgpioReply, vadcReply)
    {
      if sOn {
        r := PrepareEngine(Sgpio);
        if r != Ok {
          return;
        }
      } else {
        prefillSgpioDone := true;
      }
      if vOn {
        r := PrepareEngine(Vadc);
        if r != Ok {
          return;
        }
      } else {
        prefillVadcDone := true;
      }
      r := Ok;
    }

    /** The arming half of capture_Arm: each enabled engine is armed. */
    method ArmEngines(sOn: bool, vOn: bool)
      modifies this`hw
      ensures hw == old(hw) + ArmedCalls(sOn, vOn)
    {
      if sOn {
        ArmEngine(Sgpio);
      }
      if vOn {
        ArmEngine(Vadc);
      }
    }

    /** Arm goes past the state-machine request. */
    ghost predicate ArmProceeds()
      reads this`purpose, this`stateReply
    {
      purpose != PurposeHostRequest || stateReply == Ok
    }

    /** capture_Disarm: every enabled engine is disarmed; no field of
        capState changes and the result is always OK. */
    method Disarm() returns (r: Status)
      modifies this`hw
      ensures r == Ok
      ensures hw == old(hw) + DisarmCalls(enabledSgpioChannels > 0, enabledVadcChannels > 0)
    {
      if enabledSgpioChannels > 0 {
        DisarmEngine(Sgpio);
      }
      if enabledVadcChannels > 0 {
        DisarmEngine(Vadc);
      }
      return Ok;
    }

    /** capture_Start. Without a host configuration of non-zero rate it is
        refused and nothing changes. After a host Stop (DISARMED) the last
        REQUESTED host configuration is replayed: disarm, Init, Configure
        with it. In every other case the capture is simply re-armed. The
        host request ends ARMED and the result is that of the last failing
        step (Arm, else the replayed Configure), or OK. */
    method Start() returns (r: Status)
      requires Valid()
      modifies this
      ensures Valid()
      ensures old(captureSetup.sampleRate) == 0 ==> r == ErrUnsupportedSampleRate && unchanged(this)
      ensures old(captureSetup.sampleRate) != 0 ==>
        && hostRequest == HostArmed
        && captureSetup == old(captureSetup)
        && r == (if armResult != Ok then armResult
                 else if old(hostRequest) == HostDisarmed && configureResult != Ok then configureResult
                 else Ok)
      ensures old(captureSetup.sampleRate) != 0 && old(hostRequest) == HostDisarmed ==>
        purpose == PurposeHostRequest && Initialized()
      ensures old(captureSetup.sampleRate) != 0 && old(hostRequest) != HostDisarmed ==>
        && purpose == old(purpose)
        && enabledSgpioChannels == old(enabledSgpioChannels)
        && enabledVadcChannels == old(enabledVadcChannels)
        && currentSampleRateIdx == old(currentSampleRateIdx)
    {
      if captureSetup.sampleRate == 0 {
        // the host did not configure a capture or asked for rate 0
        return ErrUnsupportedSampleRate;
      }
      r := Ok;
      if hostRequest == HostDisarmed {
        var sub := RecoverHostConfiguration();
        if sub != Ok {
          r := sub;
        }
      }
      r := ArmHostRequest(r);
    }

    /** The end of capture_Start: the host request becomes ARMED and the
        capture is armed; Arm's failure replaces the result so far. */
    method ArmHostRequest(r0: Status) returns (r: Status)
      requires Valid()
      modifies this`hostRequest, this`capturedSamples, this`prefillSgpioDone, this`prefillVadcDone,
               this`hw, this`stateReply, this`armResult, this`sgpioReply, this`vadcReply
      ensures Valid()
      ensures hostRequest == HostArmed
      ensures r == (if armResult != Ok then armResult else r0)
    {
      r := r0;
      hostRequest := HostArmed;
      var sub := Arm();
      if sub != Ok {
        r := sub;
      }
    }

    /** The recovery step of capture_Start after a host Stop: disarm, Init,
        then Configure with the remembered host configuration, whose result
        is returned. */
    method RecoverHostConfiguration() returns (r: Status)
      requires Valid()
      modifies this
      ensures Valid() && Initialized()
      ensures r == configureResult
      ensures purpose == PurposeHostRequest
      ensures captureSetup == old(captureSetup) && hostRequest == old(hostRequest)
      ensures Checked(r, enabledSgpioChannels, enabledVadcChannels, currentSampleRateIdx, lastNumVADC,
                      sampleBufferSGPIO, sampleBufferVADC, hw)
              == ConfigureOutcome(old(captureSetup), old(enabledSgpioChannels), old(enabledVadcChannels),
                                  INITIAL_SAMPLE_RATE_IDX, old(lastNumVADC), WholeRegion, WholeRegion,
                                  old(hw) + DisarmCalls(old(enabledSgpioChannels) > 0, old(enabledVadcChannels) > 0)
                                          + [PllProgrammed(INITIAL_SAMPLE_RATE_IDX), EngineInit(Sgpio), EngineInit(Vadc)],
                                  stateReply, sgpioReply, vadcReply)
    {
      var sub := Disarm();
      Init();
      r := Configure(captureSetup);
    }

    /** capture_Stop: disarm, turn an ARMED host request into DISARMED
        (other requests stay), then fall back to the hot-standby short-shot
        capture; the result is that of hot standby. */
    method Stop() returns (r: Status)
      requires Valid()
      modifies this
      ensures Valid() && Initialized()
      ensures hostRequest == (if old(hostRequest) == HostArmed then HostDisarmed else old(hostRequest))
      ensures purpose == PurposeShortShot && WillWaste()
      ensures captureSetup == old(captureSetup)
      ensures r == (if armResult != Ok then armResult else calibrationResult)
    {
      var sub := Disarm();
      r := Ok;
      if hostRequest == HostArmed {
        hostRequest := HostDisarmed;
      }
      sub := HotStandby();
      if sub != Ok {
        r := sub;
      }
    }

    /** capture_HotSandby: Init, then a short-shot capture on the widest
        analog range (configured and, if that succeeds, armed), then one
        more Arm. The purpose ends SHORT_SHOT; the host's configuration and
        request are left alone. */
    method HotStandby() returns (r: Status)
      requires Valid()
      modifies this
      ensures Valid() && Initialized()
      ensures purpose == PurposeShortShot
      ensures calibrationSetup == CalibrationSetup(old(calibrationSetup), 7, NUM_ENABLED_VADC_SHORT_SHOT)
      ensures captureSetup == old(captureSetup) && hostRequest == old(hostRequest)
      ensures configureResult == Ok ==> enabledSgpioChannels == 0 && enabledVadcChannels == 1
      ensures r == (if armResult != Ok then armResult else calibrationResult)
    {
      r := Ok;
      var sub := StandbyShortShot();
      if sub != Ok {
        r := sub;
      }
      sub := Arm();
      if sub != Ok {
        r := sub;
      }
    }

    /** The first part of capture_HotSandby: Init, then the short-shot
        capture on the widest analog range (range 7), configured and armed
        by capture_ConfigureForCalibration. */
    method StandbyShortShot() returns (r: Status)
      requires Valid()
      modifies this
      ensures Valid() && Initialized()
      ensures r == calibrationResult
      ensures purpose == PurposeShortShot
      ensures calibrationSetup == CalibrationSetup(old(calibrationSetup), 7, NUM_ENABLED_VADC_SHORT_SHOT)
      ensures captureSetup == old(captureSetup) && hostRequest == old(hostRequest)
      ensures configureResult == Ok ==> enabledSgpioChannels == 0 && enabledVadcChannels == 1
    {
      Init();
      r := ConfigureForCalibration(7, NUM_ENABLED_VADC_SHORT_SHOT);
    }

    /** capture_ConfigureForCalibration: write the calibration setup, apply
        it with Configure and arm when that succeeded. */
    method ConfigureForCalibration(voltsPerDiv: int32, vadc: uint32) returns (r: Status)
      requires Valid() && Initialized()
      modifies this`calibrationSetup, this`purpose, this`captureSetup, this`stateReply, this`hw,
               this`enabledSgpioChannels, this`enabledVadcChannels,
               this`currentSampleRateIdx, this`lastNumVADC,
               this`sampleBufferSGPIO, this`sampleBufferVADC, this`configureResult,
               this`sgpioReply, this`vadcReply, this`capturedSamples,
               this`prefillSgpioDone, this`prefillVadcDone, this`armResult, this`calibrationResult
      ensures Valid() && Initialized()
      ensures calibrationSetup == CalibrationSetup(old(calibrationSetup), voltsPerDiv, vadc)
      ensures calibrationResult == r
      ensures r == (if configureResult != Ok then configureResult else armResult)
      ensures hostRequest == old(hostRequest)
      ensures vadc == NUM_ENABLED_VADC_SHORT_SHOT ==> purpose == PurposeShortShot
      ensures vadc == NUM_ENABLED_VADC_CALIBRATE ==> purpose == PurposeCalibrate
      ensures IsEscape(vadc) ==> captureSetup == old(captureSetup)
      ensures IsEscape(vadc) && configureResult == Ok ==>
        enabledSgpioChannels == 0 && enabledVadcChannels == PhysicalVadc(vadc)
      ensures IsEscape(vadc) ==> currentSampleRateIdx == 13 && lastNumVADC == PhysicalVadc(vadc)
      // a refused configuration: nothing is armed
      ensures configureResult != Ok ==>
        Checked(configureResult, enabledSgpioChannels, enabledVadcChannels, currentSampleRateIdx, lastNumVADC,
                sampleBufferSGPIO, sampleBufferVADC, hw)
        == ConfigureOutcome(calibrationSetup, old(enabledSgpioChannels), old(enabledVadcChannels),
                            old(currentSampleRateIdx), old(lastNumVADC),
                            old(sampleBufferSGPIO), old(sampleBufferVADC), old(hw),
                            stateReply, sgpioReply, vadcReply)
      // an accepted one: configured as with every reply OK, then armed
      ensures configureResult == Ok ==>
        var c := ConfigureOutcome(calibrationSetup, old(enabledSgpioChannels), old(enabledVadcChannels),
                                  old(currentSampleRateIdx), old(lastNumVADC),
                                  old(sampleBufferSGPIO), old(sampleBufferVADC), old(hw), Ok, Ok, Ok);
        && Checked(Ok, enabledSgpioChannels, enabledVadcChannels, currentSampleRateIdx, lastNumVADC,
                   sampleBufferSGPIO, sampleBufferVADC, c.log) == c
        && hw == c.log + ArmLog(purpose == PurposeHostRequest, stateReply,
                                enabledSgpioChannels > 0, enabledVadcChannels > 0, sgpioReply, vadcReply)
    {
      ghost var sc0, vc0, idx0, last0 := enabledSgpioChannels, enabledVadcChannels, currentSampleRateIdx, lastNumVADC;
      ghost var sbuf0, vbuf0, hw0 := sampleBufferSGPIO, sampleBufferVADC, hw;
      r := ConfigureCalibrationSetup(voltsPerDiv, vadc);
      ghost var configured := if r == Ok
        then ConfigureOutcome(calibrationSetup, sc0, vc0, idx0, last0, sbuf0, vbuf0, hw0, Ok, Ok, Ok)
        else ConfigureOutcome(calibrationSetup, sc0, vc0, idx0, last0, sbuf0, vbuf0, hw0,
                              stateReply, sgpioReply, vadcReply);
      r := ArmWhenConfigured(r, configured);
    }

    /** The last step of capture_ConfigureForCalibration: arm only when
        the configuration, which left the capture as `configured` says,
        succeeded, and remember the result. */
    method ArmWhenConfigured(r0: Status, ghost configured: Checked) returns (r: Status)
      requires Valid()
      requires Checked(r0, enabledSgpioChannels, enabledVadcChannels, currentSampleRateIdx, lastNumVADC,
                       sampleBufferSGPIO, sampleBufferVADC, hw) == configured
      modifies this`capturedSamples, this`prefillSgpioDone, this`prefillVadcDone,
               this`hw, this`stateReply, this`armResult, this`sgpioReply, this`vadcReply,
               this`calibrationResult
      ensures calibrationResult == r
      ensures r == (if r0 != Ok then r0 else armResult)
      ensures r0 != Ok ==>
        && Checked(r0, enabledSgpioChannels, enabledVadcChannels, currentSampleRateIdx, lastNumVADC,
                   sampleBufferSGPIO, sampleBufferVADC, hw) == configured
        && stateReply == old(stateReply) && sgpioReply == old(sgpioReply) && vadcReply == old(vadcReply)
      ensures r0 == Ok ==>
        && Checked(Ok, enabledSgpioChannels, enabledVadcChannels, currentSampleRateIdx, lastNumVADC,
                   sampleBufferSGPIO, sampleBufferVADC, configured.log) == configured
        && hw == configured.log + ArmLog(purpose == PurposeHostRequest, stateReply,
                                         enabledSgpioChannels > 0, enabledVadcChannels > 0, sgpioReply, vadcReply)
    {
      r := r0;
      if r == Ok {
        r := Arm();
      }
      calibrationResult := r;
    }

    /** The first step of capture_ConfigureForCalibration: overwrite the
        calibration setup and apply it with Configure. With an escape count
        the host's configuration stays and success enables exactly the
        physical analog channels the escape stands for. */
    method ConfigureCalibrationSetup(voltsPerDiv: int32, vadc: uint32) returns (r: Status)
      requires Valid() && Initialized()
      modifies this`calibrationSetup, this`purpose, this`captureSetup, this`stateReply, this`hw,
               this`enabledSgpioChannels, this`enabledVadcChannels,
               this`currentSampleRateIdx, this`lastNumVADC,
               this`sampleBufferSGPIO, this`sampleBufferVADC, this`configureResult,
               this`sgpioReply, this`vadcReply
      ensures Valid() && Initialized()
      ensures calibrationSetup == CalibrationSetup(old(calibrationSetup), voltsPerDiv, vadc)
      ensures configureResult == r
      ensures vadc == NUM_ENABLED_VADC_SHORT_SHOT ==> purpose == PurposeShortShot
      ensures vadc == NUM_ENABLED_VADC_CALIBRATE ==> purpose == PurposeCalibrate
      ensures IsEscape(vadc) ==> captureSetup == old(captureSetup)
      ensures IsEscape(vadc) && r == Ok ==>
        enabledSgpioChannels == 0 && enabledVadcChannels == PhysicalVadc(vadc)
      ensures IsEscape(vadc) ==>
        r == vadcReply && currentSampleRateIdx == 13 && lastNumVADC == PhysicalVadc(vadc)
      ensures Checked(r, enabledSgpioChannels, enabledVadcChannels, currentSampleRateIdx, lastNumVADC,
                      sampleBufferSGPIO, sampleBufferVADC, hw)
              == ConfigureOutcome(calibrationSetup, old(enabledSgpioChannels), old(enabledVadcChannels),
                                  old(currentSampleRateIdx), old(lastNumVADC),
                                  old(sampleBufferSGPIO), old(sampleBufferVADC), old(hw),
                                  stateReply, sgpioReply, vadcReply)
      ensures r == Ok ==>
        Checked(r, enabledSgpioChannels, enabledVadcChannels, currentSampleRateIdx, lastNumVADC,
                sampleBufferSGPIO, sampleBufferVADC, hw)
        == ConfigureOutcome(calibrationSetup, old(enabledSgpioChannels), old(enabledVadcChannels),
                            old(currentSampleRateIdx), old(lastNumVADC),
                            old(sampleBufferSGPIO), old(sampleBufferVADC), old(hw), Ok, Ok, Ok)
    {
      ghost var idx0, last0 := currentSampleRateIdx, lastNumVADC;
      ghost var sc0, vc0, sbuf0, vbuf0, hw0 := enabledSgpioChannels, enabledVadcChannels,
                                                sampleBufferSGPIO, sampleBufferVADC, hw;
      ghost var prev := calibrationSetup;
      calibrationSetup := CalibrationSetup(calibrationSetup, voltsPerDiv, vadc);
      r := Configure(calibrationSetup);
      if IsEscape(vadc) {
        CalibrationConfigureOutcome(prev, voltsPerDiv, vadc, sc0, vc0, idx0, last0, sbuf0, vbuf0, hw0,
                                    stateReply, sgpioReply, vadcReply);
      }
      if r == Ok {
        SuccessfulConfigureOutcome(calibrationSetup, sc0, vc0, idx0, last0, sbuf0, vbuf0, hw0,
                                   stateReply, sgpioReply, vadcReply);
      }
    }

    /** capture_GetSampleRate: the current row's rate, which a fresh lookup
        for the cached analog count maps back to the current row. */
    function GetSampleRate(): (rate: uint32)
      requires Valid() && Initialized()
      reads this
      ensures rate > 0 && RateIndexSpec(rate, lastNumVADC) == currentSampleRateIdx
    {
      RATECONFIG[currentSampleRateIdx].sampleRate
    }

    /** capture_GetVadcMatchValue: the current row's counter; never 0, and
        never 1 while two analog channels are cached. */
    function GetVadcMatchValue(): (m: nat)
      requires Valid() && Initialized()
      reads this
      ensures m >= 1
      ensures lastNumVADC == 2 ==> m >= 2
    {
      CountersPositive();
      RATECONFIG[currentSampleRateIdx].counter
    }

    /** capture_GetFadc: the PLL output, which is the sample rate times the
        match value. */
    function GetFadc(): (f: nat)
      requires Valid() && Initialized()
      reads this
      ensures f == GetSampleRate() * GetVadcMatchValue()
    {
      PllFrequencyIsRateTimesCounter();
      RATECONFIG[currentSampleRateIdx].pll0Freq
    }

    /** capture_WillWaste: the current capture is a short shot whose
        samples are thrown away. */
    predicate WillWaste()
      reads this`purpose
    {
      purpose == PurposeShortShot
    }

    /** capture_ReportSGPIODone */
    method ReportSgpioDone(buff: Option<CircBuff>, trigpoint: bv32, triggerSample: uint32, activeChannels: uint32)
      modifies this`capturedSamples, this`outbox
      ensures capturedSamples == Recorded(old(capturedSamples), SgpioDone(buff, trigpoint, triggerSample, activeChannels))
      ensures outbox == old(outbox) + Sent(capturedSamples, enabledSgpioChannels, enabledVadcChannels,
                                           SgpioDone(buff, trigpoint, triggerSample, activeChannels))
    {
      var samples := capturedSamples.(
        trigpoint := capturedSamples.trigpoint | trigpoint,
        sgpioTrigSample := triggerSample,
        sgpioActiveChannels := activeChannels,
        sgpioSamples := buff);
      assert samples == Recorded(capturedSamples, SgpioDone(buff, trigpoint, triggerSample, activeChannels));
      capturedSamples := samples;
      if enabledVadcChannels == 0 || capturedSamples.vadcSamples.Some? {
        SendSamples(capturedSamples);
      }
    }

    /** capture_ReportSGPIOSamplingFailed */
    method ReportSgpioSamplingFailed(error: Status)
      modifies this`outbox
      ensures outbox == old(outbox) + Sent(capturedSamples, enabledSgpioChannels, enabledVadcChannels, SgpioFailed(error))
    {
      if enabledVadcChannels == 0 {
        SignalFailedSampling(error);
      }
    }

    /** capture_ReportVADCDone */
    method ReportVadcDone(buff: Option<CircBuff>, trigpoint: bv32, triggerSample: uint32, activeChannels: uint32)
      modifies this`capturedSamples, this`outbox
      ensures capturedSamples == Recorded(old(capturedSamples), VadcDone(buff, trigpoint, triggerSample, activeChannels))
      ensures outbox == old(outbox) + Sent(capturedSamples, enabledSgpioChannels, enabledVadcChannels,
                                           VadcDone(buff, trigpoint, triggerSample, activeChannels))
    {
      var samples := capturedSamples.(
        trigpoint := capturedSamples.trigpoint | (trigpoint << 16),
        vadcTrigSample := triggerSample,
        vadcActiveChannels := activeChannels,
        vadcSamples := buff);
      assert samples == Recorded(capturedSamples, VadcDone(buff, trigpoint, triggerSample, activeChannels));
      capturedSamples := samples;
      if enabledSgpioChannels == 0 || capturedSamples.sgpioSamples.Some? {
        SendSamples(capturedSamples);
      }
    }

    /** capture_ReportVADCSamplingFailed */
    method ReportVadcSamplingFailed(error: Status)
      modifies this`outbox
      ensures outbox == old(outbox) + Sent(capturedSamples, enabledSgpioChannels, enabledVadcChannels, VadcFailed(error))
    {
      if enabledSgpioChannels == 0 {
        SignalFailedSampling(error);
      }
    }
  }

  /** The analog count capture_Configure hands to capture_SetSampleRate:
      the physical count, as a C int. */
  function VadcArg(cfg: CaptureCfg): int32 {
    AsInt32(PhysicalVadc(cfg.numEnabledVADC))
  }

  /** A freshly looked-up and accepted row is coherent with the count it
      was looked up for. */
  lemma FreshLookupCoherent(rate: uint32, numVADC: int)
    requires RateAccepted(rate, numVADC)
    ensures CacheCoherent(RateIndexSpec(rate, numVADC), numVADC)
  {
    RateLookupCorrect(rate, numVADC);
  }
}
