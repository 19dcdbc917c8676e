/** capture_WeightedConfigCheck of capture.c: the rate/channel limits a
    configuration must meet before any hardware is touched (the build with
    the weighted check enabled). */
module ConfigCheck {
  import opened CaptureTypes

  /** Lowest rate the audio PLL locks at in reasonable time. */
  const MIN_SAMPLE_RATE: nat := 20_000

  /** DIO0..DIO10 in a channel or trigger mask. */
  const DIO_MASK: bv32 := 0x7ff

  /** A digital-only capture has a trigger on some DIO. */
  predicate DigitalTriggers(cfg: CaptureCfg) {
    cfg.sgpio.enabledTriggers & DIO_MASK != 0
  }

  /** The decision chain of capture_WeightedConfigCheck, in its order: the
      PLL floor, then the digital-only limits by how many low DIOs are in
      use, then the analog-only limits, then the combined limit. */
  function WeightedConfigCheck(cfg: CaptureCfg): (r: Status)
    ensures r == Ok <==> cfg.sampleRate >= MIN_SAMPLE_RATE && WithinCeiling(cfg)
    ensures r != Ok ==> r == (if cfg.sampleRate >= MIN_SAMPLE_RATE && IsAnalogOnly(cfg)
                              then ErrUnsupportedSampleRate
                              else ErrInvalidSignalCombination)
  {
    var vadc := PhysicalVadc(cfg.numEnabledVADC);
    var rate := cfg.sampleRate;
    if rate < 20000 then ErrInvalidSignalCombination
    else if vadc == 0 then
      var tmp := cfg.sgpio.enabledChannels & 0x7ff;
      if tmp > 0x0ff then
        if rate > 20_000_000 then ErrInvalidSignalCombination else Ok
      else if tmp > 0x00f then
        if rate > 50_000_000 then ErrInvalidSignalCombination
        else if rate > 40_000_000 && cfg.sgpio.enabledTriggers & 0x7ff != 0 then ErrInvalidSignalCombination
        else Ok
      else if tmp > 0x003 then
        if rate > 80_000_000 && cfg.sgpio.enabledTriggers & 0x7ff != 0 then ErrInvalidSignalCombination
        else Ok
      else Ok
    else if cfg.numEnabledSGPIO == 0 then
      if rate > 60_000_000 then ErrUnsupportedSampleRate
      else if rate > 30_000_000 && vadc >= 2 then ErrUnsupportedSampleRate
      else Ok
    else if rate > 20_000_000 then ErrInvalidSignalCombination
    else Ok
  }

  /** Analog channels and no digital channels (escape codes count as the
      physical channels they stand for). */
  predicate IsAnalogOnly(cfg: CaptureCfg) {
    PhysicalVadc(cfg.numEnabledVADC) != 0 && cfg.numEnabledSGPIO == 0
  }

  /** The limits stated as a table rather than as a chain of tests: the
      highest accepted rate for the kind of capture, or None when only the
      PLL floor applies.
        digital only, some of DIO8..DIO10          20 MHz
        digital only, highest DIO in DIO4..DIO7    50 MHz, 40 MHz with triggers
        digital only, highest DIO in DIO2..DIO3    80 MHz with triggers, else none
        digital only, at most DIO0..DIO1           none
        analog only                                60 MHz, 30 MHz for two channels
        analog and digital                         20 MHz */
  function RateCeiling(cfg: CaptureCfg): Option<nat> {
    var vadc := PhysicalVadc(cfg.numEnabledVADC);
    var dios := cfg.sgpio.enabledChannels & DIO_MASK;
    if vadc == 0 then
      if dios >= 0x100 then Some(20_000_000)
      else if dios >= 0x10 then Some(if DigitalTriggers(cfg) then 40_000_000 else 50_000_000)
      else if dios >= 0x4 && DigitalTriggers(cfg) then Some(80_000_000)
      else None
    else if cfg.numEnabledSGPIO == 0 then
      Some(if vadc >= 2 then 30_000_000 else 60_000_000)
    else
      Some(20_000_000)
  }

  predicate WithinCeiling(cfg: CaptureCfg) {
    RateCeiling(cfg).None? || cfg.sampleRate <= RateCeiling(cfg).value
  }

  /** Lowering the rate (down to the PLL floor) never turns an accepted
      configuration into a rejected one. */
  lemma SlowerStillAccepted(cfg: CaptureCfg, rate: uint32)
    requires WeightedConfigCheck(cfg) == Ok
    requires MIN_SAMPLE_RATE <= rate <= cfg.sampleRate
    ensures WeightedConfigCheck(cfg.(sampleRate := rate)) == Ok
  {
    assert RateCeiling(cfg.(sampleRate := rate)) == RateCeiling(cfg);
  }

  /** Every accepted configuration runs at 20 kHz or more; one with an
      analog channel at 60 MHz or less, one with analog and digital
      channels at 20 MHz or less. */
  lemma AcceptedRateBounds(cfg: CaptureCfg)
    requires WeightedConfigCheck(cfg) == Ok
    ensures cfg.sampleRate >= MIN_SAMPLE_RATE
    ensures PhysicalVadc(cfg.numEnabledVADC) != 0 ==> cfg.sampleRate <= 60_000_000
    ensures PhysicalVadc(cfg.numEnabledVADC) != 0 && cfg.numEnabledSGPIO != 0 ==>
              cfg.sampleRate <= 20_000_000
  {
  }

  /** A short-shot or calibration capture is checked exactly like a capture
      on the physical channels it stands for. */
  lemma EscapeCheckedAsPhysical(cfg: CaptureCfg)
    ensures WeightedConfigCheck(cfg) ==
            WeightedConfigCheck(cfg.(numEnabledVADC := PhysicalVadc(cfg.numEnabledVADC)))
  {
    var c := cfg.(numEnabledVADC := PhysicalVadc(cfg.numEnabledVADC));
    assert PhysicalVadc(c.numEnabledVADC) == PhysicalVadc(cfg.numEnabledVADC);
  }
}
