# LabTool capture coordinator in Dafny

This project models the capture coordinator of the LabTool firmware
(`fw/program/source/capture.c`). The coordinator owns one state record,
`capState`. It turns a host's capture configuration into the following:

- a PLL sample rate, taken from the constant `RATECONFIG` table;
- two sample-buffer descriptors, taken from the constant `BUFFERCONFIG`
  table for combined digital and analog captures;
- configured, prepared and armed digital (SGPIO) and analog (VADC) engines.

It runs the Configure / Arm / Disarm / Start / Stop / hot-standby protocol.
It joins the two engines' completion reports into one record for the host,
and it builds the fixed calibration capture.

Two small host-side pieces are modelled as well:

- the device limits and the DAC clamp of `app/device/labtool/labtooldevicespec.h`;
- the calibration record of `app/device/labtool/labtoolcalibrationdata.h`,
  with its default-data test and the verbatim storage of the bytes the
  device sent.

Modules:

| file | module | what it holds |
|---|---|---|
| `capture_types.dfy` | `CaptureTypes` | status codes, `capture_cfg_t`, buffer descriptors, the captured-samples record, the escape codes and the int conversion of a `uint32_t` |
| `rate_selector.dfy` | `RateSelector` | `RATECONFIG`, the rate lookup and the facts the rate cache relies on |
| `buffer_planner.dfy` | `BufferPlanner` | `BUFFERCONFIG`, the highest-DIO scan, the table search and the buffer plan |
| `config_check.dfy` | `ConfigCheck` | `capture_WeightedConfigCheck` and an independent table of rate ceilings |
| `capture_coordinator.dfy` | `CaptureCoordinator` | class `Capture` (`capState`, the static `lastNumVADC` and the prefill flags) with every operation; specification functions for Configure, Arm and the report handlers |
| `labtool_device_spec.dfy` | `LabToolDeviceSpec` | the `DeviceSpec` constants and `spiDacClipValue` |
| `labtool_calibration_data.dfy` | `LabToolCalibration` | `calib_result`, its byte image, and `LabToolCalibrationData` |

Calls into other firmware modules are methods of `Capture` whose reply is
not constrained. These modules are the state machine, the SGPIO and VADC
drivers, the clock unit and the USB handler. Each such call appends an
entry to one of two ghost logs:

- `hw` records module and hardware calls;
- `outbox` records what is handed to the USB handler.

The contracts of Init, Configure, Arm, Disarm, ConfigureForCalibration,
the recovery step of Start and the report handlers therefore state which
calls are made, in which order and with which arguments. Start, Stop and
HotStandby state only their outcome (see "Left out"). Ghost fields keep the latest replies (`stateReply`,
`sgpioReply`, `vadcReply`) and the latest results of Configure, Arm and
ConfigureForCalibration. The composite operations use them to state their
own status.

`Capture.Valid()` is the class invariant. It holds for the initial state,
and every operation keeps it. It says:

- the cached rate row is exactly what a fresh lookup of its own rate for
  the cached analog count would select and accept, so the no-change path of
  `capture_SetSampleRate` answers as a lookup would;
- the remembered host configuration never carries an escape count.

The checked part of `capture_Configure` is specified by the value-level
function `CheckedBlock`. The lemma `CheckedBlockMeaning` states what that
function means: the outcome, the counts, the rate, the buffers and the calls.
`ConfigureOutcome` adds the state-machine request in front of it. It is
what Configure does as a whole, and the operations that call Configure
(ConfigureForCalibration and the recovery step of Start) state their result
through it. `ArmLog` plays the same part for Arm.

Header constants that are not part of this model are given placeholder
values in `capture_types.dfy`. The model relies only on the facts listed
there. The two escape codes differ from each other and from 0, 1 and 2.
The physical counts behind them are 1 and 2. The short-shot buffer fits in
the region.

## Model

| member | source | states |
|---|---|---|
| CaptureTypes.PhysicalVadc | fw/program/source/capture.c:632-646 | an escape count stands for 1 (short shot) or 2 (calibrate) physical channels, any other count for itself, and the result is 0 only for 0 |
| CaptureTypes.AsInt32 | fw/program/source/capture.c:688 | a `uint32_t` count stored in an `int` keeps its value below 2^31, is positive exactly for 0 < x < 2^31 and is 0 only for 0 |
| RateSelector.TableLayout | fw/program/source/capture.c:115-156 | the table has 36 rows, and exactly rows 24 and 35 are sentinels (rate 0), closing the combined region [0, 24) and the digital-only region [25, 35) |
| RateSelector.PllFrequencyIsRateTimesCounter | fw/program/source/capture.c:115-156 | in every row, the PLL output is the sample rate times the counter |
| RateSelector.CountersPositive | fw/program/source/capture.c:115-156 | every usable row has a counter of at least 1 |
| RateSelector.FirstMatchFrom | fw/program/source/capture.c:290-305 | the scan from a row returns -1 or a row at or after it with the wanted rate |
| RateSelector.FindSampleRateIndex | fw/program/source/capture.c:285-307 | the two loops return what RateIndexSpec prescribes: with no analog channel the digital-only region is tried first, then the combined region |
| RateSelector.FirstMatchFromCorrect | fw/program/source/capture.c:298-305 | the scan up to a sentinel returns the first row offering the rate, and returns -1 exactly when no row before the sentinel offers it |
| RateSelector.FirstRateMatchCorrect | fw/program/source/capture.c:290-305 | the same for each region of RATECONFIG: the first matching row of the region, or -1 iff none matches |
| RateSelector.RateLookupCorrect | fw/program/source/capture.c:285-307 | the lookup returns -1 or a usable row with exactly the wanted rate, the first match of its region; with analog channels the row is in [0, 24); with none the digital-only region is searched first; -1 iff no searched region offers the rate; rate 0 always gives -1 |
| RateSelector.InitialRateCoherent | fw/program/source/capture.c:49-50 | the initial 2 MHz row 14 is what a lookup of 2 MHz selects and accepts for any analog count, so Init keeps the rate cache coherent without resetting the cached count |
| BufferPlanner.BufferTableKeys | fw/program/source/capture.c:169-196 | row k of BUFFERCONFIG is keyed by analog count k/11+1 and digital count k%11+1, so every pair of {1,2} x 1..11 appears once |
| BufferPlanner.BufferTableGeometry | fw/program/source/capture.c:169-196 | every row satisfies 0x20000000 < buffEndSGPIO <= buffStartVADC < 0x20010000 |
| BufferPlanner.DioBits | fw/program/source/capture.c:432-434 | the twelve flags are exactly the mask bits DIO0..DIO11 |
| BufferPlanner.HighestFromCorrect | fw/program/source/capture.c:432-440 | the downward scan returns -1 iff no flag up to the start is set; otherwise it returns one more than the highest set flag |
| BufferPlanner.CopiedDiosCorrect | fw/program/source/capture.c:426-440 | numDIO is -1 iff no DIO up to MAX_NUM_DIOS is enabled; otherwise DIO numDIO-1 is enabled and no higher one is |
| BufferPlanner.NumCopiedDios | fw/program/source/capture.c:426-440 | the loop computes CopiedDios, the highest enabled DIO plus one |
| BufferPlanner.MatchFrom | fw/program/source/capture.c:441-454 | the search from row k returns -1 or a row at or after k with both keys equal |
| BufferPlanner.BufferMatch | fw/program/source/capture.c:441-454 | the search returns -1 or a row of BUFFERCONFIG with both keys equal |
| BufferPlanner.FindBufferConfig | fw/program/source/capture.c:441-455 | the loop returns the first row keyed by (vadc, numDIO), or -1 |
| BufferPlanner.MatchFromCorrect | fw/program/source/capture.c:441-455 | the search returns -1 iff no row from k on has both keys |
| BufferPlanner.BufferLookupComplete | fw/program/source/capture.c:441-455 | a row exists exactly for the pairs {1,2} x 1..11; every other pair is an invalid signal combination |
| BufferPlanner.PlanBuffersSound | fw/program/source/capture.c:386-460 | every plan keeps its descriptors non-empty and inside the 64 KiB region; in a combined plan the digital buffer starts the region, the analog buffer ends it and the two do not overlap; a plan fails iff the capture is combined and its (physical analog count, copied DIO count) pair is not in the table; a digital-only capture gets the whole region for its digital samples; a short shot gets a digital descriptor of 2 * VADC_SHORT_SHOT_SAMPLES at the region start and no analog one; an analog-only capture gets the whole region for its analog samples; a combined plan places both |
| BufferPlanner.PlanBuffersKeyedByHighestDio | fw/program/source/capture.c:428-452 | one analog channel with DIO0 and DIO2 enabled yields digital [0x20000000, 0x20003300) and analog [0x20003400, 0x20010000): the key is the highest DIO, not the count of enabled channels |
| BufferPlanner.PlanIgnoresDigitalCount | fw/program/source/capture.c:414-452 | the plan depends only on whether digital channels are enabled, not on how many |
| ConfigCheck.WeightedConfigCheck | fw/program/source/capture.c:472-581 | the configuration is accepted iff the rate is at least 20 kHz and within the ceiling that RateCeiling gives for its kind of capture; a rejection is UNSUPPORTED_SAMPLE_RATE for an analog-only capture above the floor, INVALID_SIGNAL_COMBINATION otherwise |
| ConfigCheck.SlowerStillAccepted | fw/program/source/capture.c:472-581 | lowering the rate, down to 20 kHz, never turns an accepted configuration into a rejected one |
| ConfigCheck.AcceptedRateBounds | fw/program/source/capture.c:472-581 | an accepted configuration runs at 20 kHz or more; with an analog channel at 60 MHz or less; with analog and digital channels at 20 MHz or less |
| ConfigCheck.EscapeCheckedAsPhysical | fw/program/source/capture.c:478-490 | an escape count is checked exactly like the physical channel count it stands for |
| CaptureCoordinator.PreflightOutcomes | fw/program/source/capture.c:673-698 | NO_CHANNELS_ENABLED iff no digital channel and no physical analog channel; the checks give only OK and the coordinator's own three error codes; OK iff some channel is enabled, the weighted check passes, the rate is accepted and the buffers can be planned |
| CaptureCoordinator.EngineConfigCallsAgree | fw/program/source/capture.c:665-716 | both engines are configured with the same forced-trigger flag, false iff some enabled engine has a trigger; the digital engine gets the counter of the current rate row; the analog engine is configured only after the digital one succeeded, so a digital refusal leaves exactly one call; the result is OK iff every call made got OK and every enabled engine was called |
| CaptureCoordinator.CheckedBlockMeaning | fw/program/source/capture.c:661-721 | the checked block of Configure returns the first failing check or engine reply, else OK; the enabled counts stay 0 on every failure and become numEnabledSGPIO and the physical analog count only on full success; an accepted rate is applied (and the PLL reprogrammed) before the buffers are planned, so a planning failure leaves the new rate; a refused rate changes neither the row nor the cached count; the buffers follow the plan when there is one and are unchanged when there is none; the engines are called only when every check passed |
| CaptureCoordinator.SuccessfulConfigureOutcome | fw/program/source/capture.c:624-724 | a Configure that returned OK was granted CAPTURING when it asked and got OK from every engine it configured, so its state and calls are those computed with every reply OK |
| CaptureCoordinator.CalibrationConfigureOutcome | fw/program/source/capture.c:1038-1053 | Configure on the calibration setup with an escape count makes no state-machine request and passes every check; it selects the 1 MHz row 13 and caches the physical analog count, configures only the VADC engine (forced trigger) after the rate calls, and returns that engine's reply; the short shot sizes the digital descriptor and hands the VADC engine the analog descriptor it already had; the calibration capture gives the analog descriptor the whole region |
| CaptureCoordinator.TwoPhaseArming | fw/program/source/capture.c:759-796 | no engine is armed unless every enabled engine's PrepareToArm returned OK, and every preparation comes before every arming |
| CaptureCoordinator.ReplayOne | fw/program/source/capture.c:951-1020 | one report updates the record as its handler does and sends what the handler sends |
| CaptureCoordinator.ReplayTwo | fw/program/source/capture.c:951-1020 | of two reports, the second sees the record the first left |
| CaptureCoordinator.TrigpointHalves | fw/program/source/capture.c:951-1002 | the joint trigger word keeps the digital bits in its low 16 bits and, when those fit, the analog bits in its high 16 bits; the order of the two ORs does not matter |
| CaptureCoordinator.JointRecord | fw/program/source/capture.c:951-1002 | a digital and an analog completion leave the same record in either order |
| CaptureCoordinator.JointCompletion | fw/program/source/capture.c:951-1002 | after Arm cleared the record, with both engines enabled, one digital and one analog completion with buffers, in either order, send the combined record exactly once, after the second report |
| CaptureCoordinator.SingleEngineReports | fw/program/source/capture.c:951-1020 | with the partner engine disabled, a completion sends its record at once; a failure is forwarded iff the partner engine has no enabled channel, and it leaves the record alone |
| CaptureCoordinator.OneMegahertzSelected | fw/program/source/capture.c:1043 | 1 MHz selects row 13 with any analog channel, and it is accepted for any analog count |
| CaptureCoordinator.CalibrationRangeNibbles | fw/program/source/capture.c:1041-1049 | the range `voltsPerDiv & 7` is below 8 and lands in both the low nibble and the next nibble |
| CaptureCoordinator.CalibrationSetupAccepted | fw/program/source/capture.c:1038-1051 | the calibration setup passes every check of Configure exactly when it has an analog count, runs in forced-trigger mode, programs the same range on both channels and asks for 100 % post-fill with a post-trigger sample count of 0x0fffff |
| CaptureCoordinator.FreshLookupCoherent | fw/program/source/capture.c:325-356 | a freshly looked-up and accepted row is coherent with the analog count it was looked up for |
| CaptureCoordinator.Capture.constructor | fw/program/source/capture.c:226-239 | the static initialiser: no rate row (-1), cached analog count -1, zero counts, an empty record and configurations, no purpose, no host request, no calls made |
| CaptureCoordinator.Capture.SetSampleRate | fw/program/source/capture.c:320-366 | the result is OK or UNSUPPORTED_SAMPLE_RATE, and OK iff the rate is accepted (found, and not a counter of 1 with two analog channels); on OK the row is the lookup's row, offers the wanted rate and the count is cached; on failure the row and the cached count are unchanged; the PLL is reprogrammed only when the rate or count changed and the rate is accepted |
| CaptureCoordinator.Capture.ConfigureCaptureBuffers | fw/program/source/capture.c:386-460 | the descriptors become what PlanBuffers prescribes (a descriptor the plan does not name is left alone); a missing plan is INVALID_SIGNAL_COMBINATION and changes neither descriptor |
| CaptureCoordinator.Capture.Init | fw/program/source/capture.c:592-611 | both descriptors span the whole region, the PLL runs at the 2 MHz row 14, the record is cleared, both engines are initialised in order, and the cached analog count is kept |
| CaptureCoordinator.Capture.Configure | fw/program/source/capture.c:624-724 | an escape count sets purpose SHORT_SHOT or CALIBRATE and leaves the host configuration, the request tag and the state machine alone; any other count copies the whole configuration into captureSetup and sets HOST_REQUEST before any check; a refusal of CAPTURING by the state machine is returned with nothing else changed; otherwise the result and new state are CheckedBlock's, after the CAPTURING request when one was made |
| CaptureCoordinator.Capture.SelectPurpose | fw/program/source/capture.c:632-656 | the purpose follows the analog count, the escape codes map to their physical counts, and only a non-escape configuration is remembered and asks for CAPTURING |
| CaptureCoordinator.Capture.ApplyConfiguration | fw/program/source/capture.c:661-721 | the counts are zeroed, then the checked block runs; the result and new state are CheckedBlock's |
| CaptureCoordinator.Capture.ConfigureBuffersAndEngines | fw/program/source/capture.c:694-721 | with the rate in place: the buffers are planned, then the engines are configured if the plan exists; the result and new state are PlacedBlock's |
| CaptureCoordinator.Capture.ConfigureEngines | fw/program/source/capture.c:700-719 | the first engine refusal is returned; the counts are recorded only when both succeeded; the calls are EngineConfigCalls |
| CaptureCoordinator.Capture.Arm | fw/program/source/capture.c:734-797 | a host-request capture needs CAPTURING granted, and a refusal changes only the call log and the recorded reply; otherwise the record is cleared, each disabled engine's prefill is marked done, the enabled engines are prepared and armed only if every preparation succeeded, and the result is the first refusal or OK; the calls are ArmLog's: the CAPTURING request when one is made, then ArmCalls; no configuration changes |
| CaptureCoordinator.Capture.ArmEnabledEngines | fw/program/source/capture.c:755-796 | the record is cleared, the prefill flags are set for the disabled engines, and the calls are ArmCalls, the prepare-then-arm sequence TwoPhaseArming is about |
| CaptureCoordinator.Capture.PrepareEngines | fw/program/source/capture.c:757-785 | PrepareToArm for each enabled engine, stopping at the first refusal; a disabled engine's prefill is marked done when its turn comes |
| CaptureCoordinator.Capture.ArmEngines | fw/program/source/capture.c:787-794 | each enabled engine is armed, digital first |
| CaptureCoordinator.Capture.Disarm | fw/program/source/capture.c:853-867 | always OK; each enabled engine is disarmed; no field of capState changes, so a second Disarm makes the same calls again and nothing else |
| CaptureCoordinator.Capture.Start | fw/program/source/capture.c:806-843 | with captureSetup.sampleRate 0 the result is UNSUPPORTED_SAMPLE_RATE and nothing changes; otherwise the request ends ARMED, the host configuration is kept and the result is Arm's failure, else the replayed Configure's failure, else OK; after DISARMED the last requested configuration is replayed; otherwise purpose, counts and rate are untouched |
| CaptureCoordinator.Capture.RecoverHostConfiguration | fw/program/source/capture.c:816-829 | disarm, Init and Configure with the remembered host configuration; the purpose ends HOST_REQUEST and the result is that Configure's; the counts, rate row, cached count, descriptors and calls are ConfigureOutcome's for the remembered configuration, started from row 14 and two whole-region descriptors after the Disarm and Init calls |
| CaptureCoordinator.Capture.Stop | fw/program/source/capture.c:875-900 | ARMED becomes DISARMED and every other request value stays; hot standby follows, so the purpose ends SHORT_SHOT (WillWaste holds); the host configuration is kept; the result is hot standby's |
| CaptureCoordinator.Capture.HotStandby | fw/program/source/capture.c:1078-1095 | Init, a short-shot calibration capture on the widest range (7), then Arm; the purpose ends SHORT_SHOT; the host configuration and request are kept; a successful configuration enables exactly one analog channel; the result is the last failure |
| CaptureCoordinator.Capture.ConfigureForCalibration | fw/program/source/capture.c:1038-1064 | the calibration setup is overwritten by CalibrationSetup and applied with Configure; the result is Configure's failure, else Arm's; when Configure fails the state and calls are ConfigureOutcome's and nothing is armed; when it succeeds the state is ConfigureOutcome's with every reply OK and the calls are those followed by ArmLog's; with an escape count the host configuration stays, the 1 MHz row 13 is selected for the physical count, and success enables exactly the physical analog channels the escape stands for |
| CaptureCoordinator.Capture.ConfigureCalibrationSetup | fw/program/source/capture.c:1040-1053 | the calibration setup is written and applied with Configure: the state and calls are ConfigureOutcome's for it, and on success those computed with every reply OK; with an escape count the result is the VADC engine's reply, row 13 is selected and the physical count is cached |
| CaptureCoordinator.Capture.GetSampleRate | fw/program/source/capture.c:937-940 | the current rate is positive, and a fresh lookup for the cached count maps it back to the current row |
| CaptureCoordinator.Capture.GetVadcMatchValue | fw/program/source/capture.c:909-912 | the match value is never 0, and never 1 while two analog channels are cached |
| CaptureCoordinator.Capture.GetFadc | fw/program/source/capture.c:925-928 | the VADC frequency is the sample rate times the match value |
| CaptureCoordinator.Capture.ReportSgpioDone | fw/program/source/capture.c:951-962 | the digital half of the record is written and the trigger word ORed in; the record is sent iff the analog engine is disabled or has already reported a buffer |
| CaptureCoordinator.Capture.ReportSgpioSamplingFailed | fw/program/source/capture.c:974-980 | the failure is forwarded iff the analog engine is disabled; the record is untouched |
| CaptureCoordinator.Capture.ReportVadcDone | fw/program/source/capture.c:991-1002 | the analog half is written and its trigger word ORed in shifted left by 16; the record is sent iff the digital engine is disabled or has already reported a buffer |
| CaptureCoordinator.Capture.ReportVadcSamplingFailed | fw/program/source/capture.c:1014-1020 | the failure is forwarded iff the digital engine is disabled; the record is untouched |
| LabToolDeviceSpec.DacLimits | app/device/labtool/labtooldevicespec.h:38-41 | SPI_DAC_MIN is 0; SPI_DAC_MAX and SPI_DAC_MASK are both 2^10 - 1 = 1023 |
| LabToolDeviceSpec.CalibrationPointsDistinct | app/device/labtool/labtooldevicespec.h:34-37 | the low, middle and high calibration points are distinct indices below ANALOG_IN_CAL_NUMS |
| LabToolDeviceSpec.SpiDacClipValue | app/device/labtool/labtooldevicespec.h:46-54 | the result is in [0, 1023]; a value in range is kept, a value below becomes 0 and a value above becomes 1023 |
| LabToolDeviceSpec.ClipIsNearest | app/device/labtool/labtooldevicespec.h:46-54 | the clipped value is the unique point of the DAC range nearest to the input |
| LabToolDeviceSpec.ClipIdempotent | app/device/labtool/labtooldevicespec.h:46-54 | clipping twice is clipping once |
| LabToolDeviceSpec.ClipMonotone | app/device/labtool/labtooldevicespec.h:46-54 | clipping keeps the order of its inputs |
| LabToolDeviceSpec.ClipFitsMask | app/device/labtool/labtooldevicespec.h:38-54 | a clipped value is unchanged by keeping only its SPI_DAC_BITS low bits |
| LabToolCalibration.RawDataByteSize | app/device/labtool/labtoolcalibrationdata.h:60 | sizeof(calib_result) is 240 bytes, a whole number of 32-bit fields |
| LabToolCalibration.IntWord | app/device/labtool/labtoolcalibrationdata.h:39-43 | an `int` field is stored as the 32-bit word that reads back as the same `int` |
| LabToolCalibration.WordIntWord | app/device/labtool/labtoolcalibrationdata.h:39-43 | every 32-bit word is the stored form of the `int` it reads as |
| LabToolCalibration.IntWordsRoundTrip | app/device/labtool/labtoolcalibrationdata.h:39-43 | a row of `int` fields and its words convert into each other without loss |
| LabToolCalibration.Words | app/device/labtool/labtoolcalibrationdata.h:33-46 | the record is 60 words in the declared order: cmd, checksum, version, dacValOut[3], userOut[2][3], voltsInLow[8], voltsInHigh[8], inLow[2][8], inHigh[2][8] |
| LabToolCalibration.Record | app/device/labtool/labtoolcalibrationdata.h:33-46 | 60 words read in that order give a record with the declared array dimensions |
| LabToolCalibration.RecordOfWords | app/device/labtool/labtoolcalibrationdata.h:33-46 | a record read back from its own words is the same record |
| LabToolCalibration.WordsOfRecord | app/device/labtool/labtoolcalibrationdata.h:33-46 | 60 words read into a record and written out again are the same words |
| LabToolCalibration.WordOfWordBytes | app/device/labtool/labtoolcalibrationdata.h:65 | a word survives the trip through its four bytes, least significant first |
| LabToolCalibration.WordBytesWordOf | app/device/labtool/labtoolcalibrationdata.h:65 | four bytes survive the trip through the word they form |
| LabToolCalibration.DecodeEncodeWords | app/device/labtool/labtoolcalibrationdata.h:65 | a word sequence survives the trip through its bytes |
| LabToolCalibration.EncodeDecodeWords | app/device/labtool/labtoolcalibrationdata.h:65 | a byte sequence of whole words survives the trip through its words |
| LabToolCalibration.DecodedWordAt | app/device/labtool/labtoolcalibrationdata.h:33-37 | word k of a byte image is read from bytes 4k..4k+3 |
| LabToolCalibration.Serialize | app/device/labtool/labtoolcalibrationdata.h:65 | the byte image of a record is exactly rawDataByteSize bytes |
| LabToolCalibration.Deserialize | app/device/labtool/labtoolcalibrationdata.cpp:38 | the record memcpy fills from rawDataByteSize bytes has the declared array dimensions |
| LabToolCalibration.RecordRoundTrip | app/device/labtool/labtoolcalibrationdata.h:65 | a record survives the trip through its bytes |
| LabToolCalibration.BytesRoundTrip | app/device/labtool/labtoolcalibrationdata.cpp:38 | rawDataByteSize bytes copied into the record and read back are the same bytes |
| LabToolCalibration.FromRawData | app/device/labtool/labtoolcalibrationdata.cpp:36-39 | the constructor keeps exactly the first rawDataByteSize bytes of its input: rawCalibrationData returns them verbatim; the factor tables and the verdict are stored as given |
| LabToolCalibration.RawCalibrationData | app/device/labtool/labtoolcalibrationdata.h:65 | rawCalibrationData is rawDataByteSize bytes that memcpy would copy back into the same record |
| LabToolCalibration.DefaultDataFromBytes | app/device/labtool/labtoolcalibrationdata.h:67 | the data is default data iff bytes 4..7 (checksum) or bytes 8..11 (version) of the device's block hold 0x00dead00, least significant byte first |
| LabToolCalibration.DefaultDataReadsOnlyMarks | app/device/labtool/labtoolcalibrationdata.h:67 | the default-data verdict depends on checksum and version only, whatever cmd, the measurements and the factors hold |
| LabToolCalibration.GettersReturnStored | app/device/labtool/labtoolcalibrationdata.h:62-68 | analogFactorA/B for a channel below 2 and a range below 8 return the stored table entry unchanged; isDataReasonable returns the stored verdict |

## Left out

- The following are left out because they have no effect on capState or on
  any result:
  - LEDs, GPIO direction writes and logging (`capture.c:594-607`);
  - the clock gating around the PLL programming.
- The parameters of the PLL are not modelled. Programming the PLL is one
  logged call naming the RATECONFIG row.
- The internals of `circbuff_Init` are not modelled. A descriptor is its
  start address and size.
- The SGPIO and VADC engine drivers, the state machine and the USB handler
  are not part of this model. Their replies are unconstrained, and their
  calls are logged.
- Concurrency is not modelled. The report handlers run in interrupt
  context; they are modelled as ordinary sequential calls, without the
  interrupt masking and the volatile prefill-complete flag.
- The `CAP_PREFILL_*` macros and the capture headers' constants are not
  part of this model. Both prefill bits are cleared by
  `CAP_PREFILL_SET_AS_NEEDED` and each is set by its `MARK_*_DONE` macro.
  The constants take the placeholder values stated in `capture_types.dfy`.
- Only the build with the weighted configuration check enabled is modelled.
- `capture_Configure` receives the configuration as a value. The byte
  pointer and the size argument, which the source does not check, are not
  modelled.
- The float derivation in `labtoolcalibrationdata.cpp` is left out, because
  it is floating-point arithmetic. This covers the two-point derivation of
  the factor tables, `estimateActualDacVoltage` and the NaN/infinity
  reasonableness test. The constructor receives the derived tables and the
  verdict as parameters, and the getters return them.
- `printRawInfo` and `printCalibrationInfo` are left out, because they only
  produce debug output.
- The byte image of `calib_result` assumes a little-endian host without
  padding, as the application's hosts are.
- The calibration state machine that drives `capture_ConfigureForCalibration`
  is not part of this model. `fw/program/include/calibrate.h` only declares
  it.
- The UI classes under `app/capture/` are not part of this model.
- CaptureCoordinator.Capture.Configure, and every operation that reads the
  rate row, requires `Initialized()`: capture_Init must have run first. The
  source would index RATECONFIG at -1 otherwise, which the model does not
  represent.
- CaptureCoordinator.Capture.SelectPurpose, ApplyConfiguration,
  ConfigureBuffersAndEngines, ConfigureEngines, ArmEnabledEngines,
  PrepareEngines, ArmEngines, RecoverHostConfiguration, ArmHostRequest,
  ConfigureCalibrationSetup, ArmWhenConfigured and StandbyShortShot are
  blocks of the C function they are named after. They are split out so that each proof stays small; the C code has
  no such functions.
- CaptureCoordinator.Capture.Start states how the new purpose, counts and
  rate follow from the replayed Configure and Init only through
  `Initialized()` and the purpose. The details are stated by the contract of
  its recovery step, RecoverHostConfiguration.
- CaptureCoordinator.Capture.Stop and CaptureCoordinator.Capture.HotStandby
  do not state the engine calls they make. These calls are Disarm's, Init's,
  ConfigureForCalibration's and Arm's, in that order.

Behaviour of the source worth noting:

- A host-request Configure stores the configuration before any check. Start
  therefore replays the last requested configuration, even one that
  Configure rejected.
- Stop turns only ARMED into DISARMED. Any other request value is kept.
- A sampling failure reported while the partner engine is enabled is
  dropped: nothing is sent and the record is untouched.
- A short-shot capture sizes only the digital buffer descriptor. The analog
  descriptor, which the VADC engine is configured with, keeps its previous
  value.
- Start refuses when the remembered configuration has rate 0. That is the
  case when no host configuration was ever requested, and when the last
  requested one asked for rate 0.
- WillWaste is the predicate `purpose == PurposeShortShot`; Stop's contract
  states that it holds afterwards.
