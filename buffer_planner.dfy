/** Buffer planning of capture.c: the constant BUFFERCONFIG table, the scan
    for the highest enabled digital channel and the table lookup. The
    descriptors themselves are part of the coordinator's state
    (CaptureCoordinator.Capture.ConfigureCaptureBuffers); what that method
    writes is specified here by PlanBuffers. */
module BufferPlanner {
  import opened CaptureTypes

  /** One row of BUFFERCONFIG: for a number of analog channels and a number
      of copied digital channels, where the digital buffer ends and where
      the analog buffer starts. */
  datatype BufferEntry = BufferEntry(
    numVADC: nat,
    numDIO: nat,
    buffEndSGPIO: uint32,
    buffStartVADC: uint32)

  const BUFFERCONFIG: seq<BufferEntry> := [
    BufferEntry(1,  1, 0x20001C00, 0x20002000),
    BufferEntry(1,  2, 0x20001C00, 0x20002000),
    BufferEntry(1,  3, 0x20003300, 0x20003400),
    BufferEntry(1,  4, 0x20003300, 0x20003400),
    BufferEntry(1,  5, 0x20005400, 0x20005800),
    BufferEntry(1,  6, 0x20005400, 0x20005800),
    BufferEntry(1,  7, 0x20005400, 0x20005800),
    BufferEntry(1,  8, 0x20005400, 0x20005800),
    BufferEntry(1,  9, 0x20005A00, 0x20006000),
    BufferEntry(1, 10, 0x20006180, 0x20006400),
    BufferEntry(1, 11, 0x200065C0, 0x20006C00),
    BufferEntry(2,  1, 0x20000F00, 0x20001000),
    BufferEntry(2,  2, 0x20000F00, 0x20001000),
    BufferEntry(2,  3, 0x20001C00, 0x20002000),
    BufferEntry(2,  4, 0x20001C00, 0x20002000),
    BufferEntry(2,  5, 0x20003200, 0x20003800),
    BufferEntry(2,  6, 0x20003200, 0x20003800),
    BufferEntry(2,  7, 0x20003200, 0x20003800),
    BufferEntry(2,  8, 0x20003200, 0x20003800),
    BufferEntry(2,  9, 0x20003600, 0x20004000),
    BufferEntry(2, 10, 0x20003C00, 0x20004000),
    BufferEntry(2, 11, 0x20003F40, 0x20004800)
  ]

  /** Number of digital channels the table distinguishes (DIO0..DIO10). */
  const TABLE_DIOS: nat := 11

  /** Row k of the table is keyed by analog count k / 11 + 1 and digital
      count k % 11 + 1: every pair of {1, 2} x 1..11, in order. */
  lemma BufferTableKeys()
    ensures |BUFFERCONFIG| == 2 * TABLE_DIOS
    ensures forall k :: 0 <= k < |BUFFERCONFIG| ==>
      BUFFERCONFIG[k].numVADC == k / TABLE_DIOS + 1 && BUFFERCONFIG[k].numDIO == k % TABLE_DIOS + 1
  {
  }

  /** Every row leaves a non-empty digital buffer at the start of the
      region, a non-empty analog buffer at its end, and no overlap. */
  lemma BufferTableGeometry()
    ensures forall k :: 0 <= k < |BUFFERCONFIG| ==>
      REGION_START < BUFFERCONFIG[k].buffEndSGPIO <= BUFFERCONFIG[k].buffStartVADC < REGION_END
  {
  }

  /** DIOi is enabled in the channel mask. */
  predicate DioEnabled(mask: bv32, i: nat)
    requires i < 32
  {
    mask & ((1 as bv32) << i) != 0
  }

  /** The enable flags of DIO0..DIO11 in the mask. */
  function DioBits(mask: bv32): (b: seq<bool>)
    ensures |b| == MAX_NUM_DIOS + 1
    ensures forall i :: 0 <= i < |b| ==> b[i] == DioEnabled(mask, i)
  {
    seq(MAX_NUM_DIOS + 1, i requires 0 <= i <= MAX_NUM_DIOS => DioEnabled(mask, i))
  }

  /** The scan of capture_ConfigureCaptureBuffers from flag `from` down to
      flag 0: one more than the highest set flag, or -1 if none is. */
  function HighestFrom(bits: seq<bool>, from: int): (n: int)
    requires from < |bits|
    decreases from + 1
  {
    if from < 0 then -1
    else if bits[from] then from + 1
    else HighestFrom(bits, from - 1)
  }

  /** numDIO: how many digital channels the SGPIO engine copies, which is
      every channel up to and including the highest enabled one. */
  function CopiedDios(mask: bv32): int {
    HighestFrom(DioBits(mask), MAX_NUM_DIOS)
  }

  lemma {:induction false} HighestFromCorrect(bits: seq<bool>, from: int)
    requires -1 <= from < |bits|
    ensures var n := HighestFrom(bits, from);
      && (n == -1 <==> forall i :: 0 <= i <= from ==> !bits[i])
      && (n != -1 ==> 1 <= n <= from + 1 && bits[n - 1]
                      && forall i :: n <= i <= from ==> !bits[i])
    decreases from + 1
  {
    if from >= 0 && !bits[from] {
      HighestFromCorrect(bits, from - 1);
    }
  }

  /** numDIO is -1 when no DIO up to MAX_NUM_DIOS is enabled; otherwise DIO
      numDIO-1 is enabled and no higher one is. */
  lemma CopiedDiosCorrect(mask: bv32)
    ensures var n := CopiedDios(mask);
      && (n == -1 <==> forall i :: 0 <= i <= MAX_NUM_DIOS ==> !DioEnabled(mask, i))
      && (n != -1 ==> 1 <= n <= MAX_NUM_DIOS + 1 && DioEnabled(mask, n - 1)
                      && forall i :: n <= i <= MAX_NUM_DIOS ==> !DioEnabled(mask, i))
  {
    HighestFromCorrect(DioBits(mask), MAX_NUM_DIOS);
  }

  /** The scan for the highest enabled DIO in capture_ConfigureCaptureBuffers. */
  method NumCopiedDios(enabledChannels: bv32) returns (numDIO: int)
    ensures numDIO == CopiedDios(enabledChannels)
  {
    numDIO := -1;
    var i: int := MAX_NUM_DIOS;
    while i >= 0
      invariant -1 <= i <= MAX_NUM_DIOS
      invariant HighestFrom(DioBits(enabledChannels), i) == CopiedDios(enabledChannels)
      decreases i + 1
    {
      if enabledChannels & ((1 as bv32) << i) != 0 {
        assert DioBits(enabledChannels)[i];
        // highest enabled is DIOi
        numDIO := i + 1;
        return;
      }
      i := i - 1;
    }
  }

  /** The first row of table t from row k on keyed by (vadc, numDio), or -1. */
  function MatchFrom(t: seq<BufferEntry>, k: nat, vadc: int, numDio: int): (r: int)
    requires k <= |t|
    ensures r == -1 || (k <= r < |t| && t[r].numVADC == vadc && t[r].numDIO == numDio)
    decreases |t| - k
  {
    if k == |t| then -1
    else if t[k].numVADC == vadc && t[k].numDIO == numDio then k
    else MatchFrom(t, k + 1, vadc, numDio)
  }

  /** The BUFFERCONFIG row for (vadc, numDio), or -1. */
  function BufferMatch(vadc: int, numDio: int): (r: int)
    ensures r == -1 || (0 <= r < |BUFFERCONFIG| && BUFFERCONFIG[r].numVADC == vadc
                        && BUFFERCONFIG[r].numDIO == numDio)
  {
    MatchFrom(BUFFERCONFIG, 0, vadc, numDio)
  }

  /** The table search of capture_ConfigureCaptureBuffers. */
  method FindBufferConfig(vadc: int, numDio: int) returns (index: int)
    ensures index == BufferMatch(vadc, numDio)
  {
    var i := 0;
    while i < |BUFFERCONFIG|
      invariant 0 <= i <= |BUFFERCONFIG|
      invariant MatchFrom(BUFFERCONFIG, i, vadc, numDio) == BufferMatch(vadc, numDio)
    {
      if BUFFERCONFIG[i].numVADC == vadc && BUFFERCONFIG[i].numDIO == numDio {
        return i;
      }
      i := i + 1;
    }
    return -1;
  }

  lemma {:induction false} MatchFromCorrect(t: seq<BufferEntry>, k: nat, vadc: int, numDio: int)
    requires k <= |t|
    ensures var r := MatchFrom(t, k, vadc, numDio);
      r == -1 <==> forall j :: k <= j < |t| ==> !(t[j].numVADC == vadc && t[j].numDIO == numDio)
    decreases |t| - k
  {
    if k < |t| && !(t[k].numVADC == vadc && t[k].numDIO == numDio) {
      MatchFromCorrect(t, k + 1, vadc, numDio);
    }
  }

  /** The table has a row for exactly the pairs {1, 2} x 1..11; every other
      pair is an invalid signal combination. */
  lemma BufferLookupComplete(vadc: int, numDio: int)
    ensures BufferMatch(vadc, numDio) != -1 <==>
      (vadc == 1 || vadc == 2) && 1 <= numDio <= TABLE_DIOS
  {
    BufferTableKeys();
    MatchFromCorrect(BUFFERCONFIG, 0, vadc, numDio);
    if (vadc == 1 || vadc == 2) && 1 <= numDio <= TABLE_DIOS {
      var k := (vadc - 1) * TABLE_DIOS + (numDio - 1);
      assert k / TABLE_DIOS + 1 == vadc && k % TABLE_DIOS + 1 == numDio;
      assert BUFFERCONFIG[k].numVADC == vadc && BUFFERCONFIG[k].numDIO == numDio;
    }
  }

  /** The descriptors capture_ConfigureCaptureBuffers rewrites: None leaves
      that descriptor as it was. */
  datatype BufferLayout = BufferLayout(sgpio: Option<CircBuff>, vadc: Option<CircBuff>)

  /** A descriptor spanning the whole sample region. */
  const WholeRegion: CircBuff := CircBuff(REGION_START, REGION_SIZE)

  /** The buffer plan for cfg, or None for CFG_INVALID_SIGNAL_COMBINATION.
      Digital-only and analog-only captures get the whole region; a
      short-shot capture sizes the DIGITAL descriptor for its samples, as
      the source does; a combined capture is looked up by (physical analog
      count, highest enabled DIO + 1). */
  function PlanBuffers(cfg: CaptureCfg): Option<BufferLayout> {
    var vadc := cfg.numEnabledVADC;
    if vadc == 0 then
      Some(BufferLayout(Some(WholeRegion), None))
    else if vadc == NUM_ENABLED_VADC_SHORT_SHOT then
      Some(BufferLayout(Some(CircBuff(REGION_START, 2 * VADC_SHORT_SHOT_SAMPLES)), None))
    else if cfg.numEnabledSGPIO == 0 then
      Some(BufferLayout(None, Some(WholeRegion)))
    else
      var v := if vadc == NUM_ENABLED_VADC_CALIBRATE then NUM_ENABLED_VADC_CA_ACTUAL else vadc;
      CombinedLayout(v, CopiedDios(cfg.sgpio.enabledChannels))
  }

  /** The table-driven split of the region for a combined capture. */
  function CombinedLayout(vadc: int, numDio: int): Option<BufferLayout> {
    var k := BufferMatch(vadc, numDio);
    BufferTableGeometry();
    if k == -1 then None
    else
      var e := BUFFERCONFIG[k];
      Some(BufferLayout(
        Some(CircBuff(REGION_START, e.buffEndSGPIO - REGION_START)),
        Some(CircBuff(e.buffStartVADC, REGION_END - e.buffStartVADC))))
  }

  /** A descriptor after planning: the planned one, or the previous one
      when the plan leaves it alone. */
  function Place(planned: Option<CircBuff>, previous: CircBuff): CircBuff {
    if planned.Some? then planned.value else previous
  }

  /** The descriptor lies inside [0x20000000, 0x20010000) and is not empty. */
  predicate InRegion(b: CircBuff) {
    REGION_START <= b.start && 0 < b.size && b.start + b.size <= REGION_END
  }

  /** Every plan keeps its buffers inside the sample region; a combined plan
      puts the digital buffer at the region's start, the analog buffer at
      its end, and the digital one ends no later than the analog one
      starts. A plan fails only for a combined capture whose (analog count,
      copied DIO count) pair is not in the table. */
  lemma PlanBuffersSound(cfg: CaptureCfg)
    ensures PlanBuffers(cfg).Some? ==>
      var l := PlanBuffers(cfg).value;
      && (l.sgpio.Some? ==> InRegion(l.sgpio.value) && l.sgpio.value.start == REGION_START)
      && (l.vadc.Some? ==> InRegion(l.vadc.value) && l.vadc.value.start + l.vadc.value.size == REGION_END)
      && (l.sgpio.Some? && l.vadc.Some? ==>
            l.sgpio.value.start + l.sgpio.value.size <= l.vadc.value.start)
    ensures PlanBuffers(cfg).None? <==>
      && cfg.numEnabledVADC != 0
      && cfg.numEnabledVADC != NUM_ENABLED_VADC_SHORT_SHOT
      && cfg.numEnabledSGPIO != 0
      && !(PhysicalVadc(cfg.numEnabledVADC) <= 2 && 1 <= CopiedDios(cfg.sgpio.enabledChannels) <= TABLE_DIOS)
    // digital only: the whole region for the digital samples
    ensures cfg.numEnabledVADC == 0 ==> PlanBuffers(cfg) == Some(BufferLayout(Some(WholeRegion), None))
    // short shot: a digital descriptor of twice the short-shot sample count, no analog one
    ensures cfg.numEnabledVADC == NUM_ENABLED_VADC_SHORT_SHOT ==>
      PlanBuffers(cfg) == Some(BufferLayout(Some(CircBuff(REGION_START, 2 * VADC_SHORT_SHOT_SAMPLES)), None))
    // analog only: the whole region for the analog samples
    ensures cfg.numEnabledVADC != 0 && cfg.numEnabledVADC != NUM_ENABLED_VADC_SHORT_SHOT
            && cfg.numEnabledSGPIO == 0 ==>
      PlanBuffers(cfg) == Some(BufferLayout(None, Some(WholeRegion)))
    // combined: both descriptors are placed
    ensures cfg.numEnabledVADC != 0 && cfg.numEnabledVADC != NUM_ENABLED_VADC_SHORT_SHOT
            && cfg.numEnabledSGPIO != 0 && PlanBuffers(cfg).Some? ==>
      PlanBuffers(cfg).value.sgpio.Some? && PlanBuffers(cfg).value.vadc.Some?
  {
    BufferTableGeometry();
    var vadc := cfg.numEnabledVADC;
    var v := if vadc == NUM_ENABLED_VADC_CALIBRATE then NUM_ENABLED_VADC_CA_ACTUAL else vadc;
    BufferLookupComplete(v, CopiedDios(cfg.sgpio.enabledChannels));
  }

  /** The combined plan is keyed by the highest enabled DIO, not by how many
      channels are enabled: with one analog channel and DIO0 and DIO2
      enabled (two channels, three copied) the digital buffer is
      [0x20000000, 0x20003300) and the analog one [0x20003400, 0x20010000). */
  lemma PlanBuffersKeyedByHighestDio()
    ensures var cfg := CaptureCfg(2, 1, 1000000, 0, SgpioCfg(0x5, 0), VadcCfg(1, 0, 0, 0, 0));
      PlanBuffers(cfg) == Some(BufferLayout(
        Some(CircBuff(REGION_START, 0x20003300 - REGION_START)),
        Some(CircBuff(0x20003400, REGION_END - 0x20003400))))
  {
    var mask: bv32 := 0x5;
    CopiedDiosCorrect(mask);
    assert DioEnabled(mask, 2);
    assert CopiedDios(mask) == 3;
    BufferLookupComplete(1, 3);
    BufferTableKeys();
    MatchFromCorrect(BUFFERCONFIG, 0, 1, 3);
    assert BufferMatch(1, 3) == 2;
  }

  /** Only whether digital channels are enabled matters, not how many. */
  lemma PlanIgnoresDigitalCount(cfg: CaptureCfg, m: uint32)
    requires cfg.numEnabledSGPIO > 0 && m > 0
    ensures PlanBuffers(cfg.(numEnabledSGPIO := m)) == PlanBuffers(cfg)
  {
    var c := cfg.(numEnabledSGPIO := m);
    assert c.numEnabledVADC == cfg.numEnabledVADC && c.sgpio == cfg.sgpio;
  }
}
