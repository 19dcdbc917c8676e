/** Values shared by the capture coordinator of the LabTool firmware
    (fw/program/source/capture.c): status codes, the configuration record a
    client sends, buffer descriptors and the record of captured samples. */
module CaptureTypes {

  type uint32 = x: int | 0 <= x < 0x1_0000_0000
  type int32 = x: int | -0x8000_0000 <= x < 0x8000_0000

  /** The firmware's command status codes. The codes the coordinator produces
      itself have their own constructors; every other code (those of the
      sub-engine drivers and of the state machine) is carried verbatim. */
  datatype Status =
    | Ok
    | ErrNoChannelsEnabled
    | ErrInvalidSignalCombination
    | ErrUnsupportedSampleRate
    | ErrOther(code: nat)

  datatype Option<T> = None | Some(value: T)

  /* Constants of the capture headers, which are not part of this model. The
     values are placeholders; the model relies only on the two escape codes
     being distinct from each other and from 0, 1 and 2, on the "actual"
     analog counts being 1 and 2, and on the short-shot buffer fitting in the
     sample region. */

  /** Escape analog-channel count: short-shot capture. */
  const NUM_ENABLED_VADC_SHORT_SHOT: uint32 := 0xfe
  /** Escape analog-channel count: calibration capture. */
  const NUM_ENABLED_VADC_CALIBRATE: uint32 := 0xff
  /** Physical analog channels used by a short-shot capture. */
  const NUM_ENABLED_VADC_SS_ACTUAL: uint32 := 1
  /** Physical analog channels used by a calibration capture. */
  const NUM_ENABLED_VADC_CA_ACTUAL: uint32 := 2
  /** Number of 16-bit samples of a short-shot capture. */
  const VADC_SHORT_SHOT_SAMPLES: nat := 1024
  /** Highest digital channel bit the buffer planner scans. */
  const MAX_NUM_DIOS: nat := 11

  /** The sample memory shared by both engines: [0x20000000, 0x20010000). */
  const REGION_START: uint32 := 0x2000_0000
  const REGION_END: uint32 := 0x2001_0000
  const REGION_SIZE: nat := 0x1_0000

  predicate IsEscape(numVadc: uint32) {
    numVadc == NUM_ENABLED_VADC_SHORT_SHOT || numVadc == NUM_ENABLED_VADC_CALIBRATE
  }

  /** The analog-channel count that capture_Configure and
      capture_WeightedConfigCheck work with: escape codes are replaced by
      the number of physical channels they stand for. */
  function PhysicalVadc(numVadc: uint32): (v: uint32)
    ensures !IsEscape(numVadc) ==> v == numVadc
    ensures IsEscape(numVadc) ==> v == 1 || v == 2
    ensures v == 0 <==> numVadc == 0
  {
    if numVadc == NUM_ENABLED_VADC_SHORT_SHOT then NUM_ENABLED_VADC_SS_ACTUAL
    else if numVadc == NUM_ENABLED_VADC_CALIBRATE then NUM_ENABLED_VADC_CA_ACTUAL
    else numVadc
  }

  /** The value a uint32_t has once it is stored in a C `int` (32-bit two's
      complement): counts of 2^31 and more become negative. */
  function AsInt32(x: uint32): (v: int32)
    ensures x < 0x8000_0000 ==> v == x
    ensures v > 0 <==> 0 < x < 0x8000_0000
    ensures v == 0 <==> x == 0
  {
    if x < 0x8000_0000 then x else x - 0x1_0000_0000
  }

  /** Digital (SGPIO) part of a capture configuration, as far as the
      coordinator reads it. */
  datatype SgpioCfg = SgpioCfg(enabledChannels: bv32, enabledTriggers: bv32)

  /** Analog (VADC) part of a capture configuration, as far as the
      coordinator reads or writes it. */
  datatype VadcCfg = VadcCfg(
    enabledChannels: bv32,
    enabledTriggers: bv32,
    voltPerDiv: bv32,
    couplings: bv32,
    noiseReduction: bv32)

  /** capture_cfg_t: what a client sends to configure a capture. postFill
      packs the post-trigger percentage (low 8 bits) and the maximum number
      of post-trigger samples (high 24 bits); the coordinator only passes it
      on. */
  datatype CaptureCfg = CaptureCfg(
    numEnabledSGPIO: uint32,
    numEnabledVADC: uint32,
    sampleRate: uint32,
    postFill: uint32,
    sgpio: SgpioCfg,
    vadc: VadcCfg)

  /** The all-zero configuration of the static initialiser. */
  const ZeroCfg: CaptureCfg :=
    CaptureCfg(0, 0, 0, 0, SgpioCfg(0, 0), VadcCfg(0, 0, 0, 0, 0))

  /** A circular buffer descriptor as circbuff_Init leaves it. */
  datatype CircBuff = CircBuff(start: uint32, size: nat)

  /** captured_samples_t: the combined result sent to the host. None stands
      for a NULL buffer pointer. */
  datatype CapturedSamples = CapturedSamples(
    trigpoint: bv32,
    sgpioTrigSample: uint32,
    sgpioActiveChannels: uint32,
    sgpioSamples: Option<CircBuff>,
    vadcTrigSample: uint32,
    vadcActiveChannels: uint32,
    vadcSamples: Option<CircBuff>)

  /** The zeroed record (memset to 0). */
  const NoSamples: CapturedSamples := CapturedSamples(0, 0, 0, None, 0, 0, None)
}
