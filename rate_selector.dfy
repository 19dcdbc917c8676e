/** Sample-rate selection of capture.c: the constant RATECONFIG table of
    PLL0AUDIO settings and the lookup capture_FindSampleRateIndex. The
    state-changing capture_SetSampleRate lives with the coordinator's state
    (CaptureCoordinator.Capture.SetSampleRate); what it decides is specified
    here by RateAccepted and RateIndexSpec. */
module RateSelector {
  import opened CaptureTypes

  /** One row of RATECONFIG: the wanted rate, the PLL0AUDIO multiplier,
      pre- and post-divider, the SGPIO counter / VADC match value and the
      PLL output frequency. */
  datatype RateEntry = RateEntry(
    sampleRate: uint32,
    pll0Msel: nat,
    pll0Nsel: nat,
    pll0Psel: nat,
    counter: nat,
    pll0Freq: nat)

  /** Index of the 2 MHz entry programmed by capture_Init. */
  const INITIAL_SAMPLE_RATE_IDX: nat := 14
  /** First index of the digital-only region. */
  const SGPIO_ONLY_OFFSET: nat := 25
  /** Index of the sentinel that closes the combined region. */
  const COMBINED_END: nat := 24
  /** Index of the sentinel that closes the digital-only region. */
  const SGPIO_ONLY_END: nat := 35

  const RATECONFIG: seq<RateEntry> := [
    RateEntry(       50, 100, 250, 24, 4000,    200000),
    RateEntry(      100, 100, 250, 12, 4000,    400000),
    RateEntry(      200, 100, 250,  6, 4000,    800000),
    RateEntry(      500, 100, 200,  3, 4000,   2000000),
    RateEntry(     1000, 100, 150,  2, 4000,   4000000),
    RateEntry(     2000, 100, 150,  1, 4000,   8000000),
    RateEntry(     5000, 100,  60,  1, 4000,  20000000),
    RateEntry(    10000, 100,  30,  1, 4000,  40000000),
    RateEntry(    20000, 100,  15,  1, 4000,  80000000),
    RateEntry(    50000, 100,  15,  1, 1600,  80000000),
    RateEntry(   100000, 100,  15,  1,  800,  80000000),
    RateEntry(   200000, 100,  15,  1,  400,  80000000),
    RateEntry(   500000, 100,  15,  1,  160,  80000000),
    RateEntry(  1000000, 100,  15,  1,   80,  80000000),
    RateEntry(  2000000, 100,  15,  1,   40,  80000000),
    RateEntry(  5000000, 100,  15,  1,   16,  80000000),
    RateEntry( 10000000, 100,  15,  1,    8,  80000000),
    RateEntry( 20000000, 100,  15,  1,    4,  80000000),
    RateEntry( 30000000, 100,  20,  1,    2,  60000000),
    RateEntry( 40000000, 100,  15,  1,    2,  80000000),
    RateEntry( 50000000, 100,  24,  1,    1,  50000000),
    RateEntry( 60000000, 100,  20,  1,    1,  60000000),
    RateEntry( 70000000,  70,  12,  1,    1,  70000000),
    RateEntry( 80000000, 100,  15,  1,    1,  80000000),
    RateEntry(        0,   0,   0,  0,    0,         0),
    RateEntry( 10000000,  50,   3,  1,   20, 200000000),
    RateEntry( 20000000,  50,   3,  1,   10, 200000000),
    RateEntry( 30000000,  15,   1,  1,    6, 180000000),
    RateEntry( 40000000,  50,   3,  1,    5, 200000000),
    RateEntry( 50000000,  50,   3,  1,    4, 200000000),
    RateEntry( 60000000,  15,   1,  1,    3, 180000000),
    RateEntry( 70000000,  70,   4,  1,    3, 210000000),
    RateEntry( 80000000,  20,   1,  1,    3, 240000000),
    RateEntry( 90000000,  15,   1,  1,    2, 180000000),
    RateEntry(100000000,  50,   3,  1,    2, 200000000),
    RateEntry(        0,   0,   0,  0,    0,         0)
  ]

  /** A usable (non-sentinel) row of the table. */
  predicate IsRateIndex(i: int) {
    0 <= i < |RATECONFIG| && RATECONFIG[i].sampleRate > 0
  }

  /** The sentinel that closes the region holding index i. */
  function RegionEnd(i: nat): nat {
    if i <= COMBINED_END then COMBINED_END else SGPIO_ONLY_END
  }

  /** Rows lo..hi-1 offer the sample rate `rate`. */
  ghost predicate Offers(lo: nat, hi: nat, rate: uint32)
    requires lo <= hi <= |RATECONFIG|
  {
    exists j :: lo <= j < hi && RATECONFIG[j].sampleRate == rate
  }

  /** The table has exactly two sentinels, closing the combined region
      [0, 24) and the digital-only region [25, 35). */
  lemma TableLayout()
    ensures |RATECONFIG| == SGPIO_ONLY_END + 1
    ensures forall j :: 0 <= j < |RATECONFIG| ==>
      (RATECONFIG[j].sampleRate == 0 <==> j == COMBINED_END || j == SGPIO_ONLY_END)
  {
  }

  /** Every row's PLL output is its sample rate times its counter. */
  lemma PllFrequencyIsRateTimesCounter()
    ensures forall j :: 0 <= j < |RATECONFIG| ==>
      RATECONFIG[j].pll0Freq == RATECONFIG[j].sampleRate * RATECONFIG[j].counter
  {
  }

  /** Every usable row has a counter of at least 1. */
  lemma CountersPositive()
    ensures forall j :: IsRateIndex(j) ==> RATECONFIG[j].counter >= 1
  {
  }

  /** The scan of a table t from row i: the first row before the next
      sentinel whose rate is `rate`, or -1. */
  function FirstMatchFrom(t: seq<RateEntry>, i: nat, rate: uint32): (r: int)
    requires i < |t| && t[|t| - 1].sampleRate == 0
    ensures r == -1 || (i <= r < |t| && t[r].sampleRate == rate)
    decreases |t| - i
  {
    if t[i].sampleRate == 0 then -1
    else if t[i].sampleRate == rate then i
    else FirstMatchFrom(t, i + 1, rate)
  }

  /** The scan of RATECONFIG from row i. */
  function FirstRateMatch(i: nat, rate: uint32): (r: int)
    requires i <= SGPIO_ONLY_END
  {
    TableLayout();
    FirstMatchFrom(RATECONFIG, i, rate)
  }

  /** What capture_FindSampleRateIndex returns: with no analog channel the
      digital-only region is tried first, then the combined region. */
  function RateIndexSpec(rate: uint32, numVADC: int): int {
    if numVADC == 0 && FirstRateMatch(SGPIO_ONLY_OFFSET, rate) != -1
    then FirstRateMatch(SGPIO_ONLY_OFFSET, rate)
    else FirstRateMatch(0, rate)
  }

  /** capture_FindSampleRateIndex: the index of `wantedRate` in RATECONFIG,
      or -1. */
  method FindSampleRateIndex(wantedRate: uint32, numVADC: int) returns (index: int)
    ensures index == RateIndexSpec(wantedRate, numVADC)
  {
    assert RATECONFIG[COMBINED_END].sampleRate == 0;
    assert RATECONFIG[SGPIO_ONLY_END].sampleRate == 0;
    var i: nat;
    if numVADC == 0 {
      i := SGPIO_ONLY_OFFSET;
      while RATECONFIG[i].sampleRate > 0
        invariant SGPIO_ONLY_OFFSET <= i <= SGPIO_ONLY_END
        invariant FirstRateMatch(i, wantedRate) == FirstRateMatch(SGPIO_ONLY_OFFSET, wantedRate)
        decreases SGPIO_ONLY_END - i
      {
        if RATECONFIG[i].sampleRate == wantedRate {
          return i;
        }
        i := i + 1;
      }
    }
    i := 0;
    while RATECONFIG[i].sampleRate > 0
      invariant 0 <= i <= COMBINED_END
      invariant FirstRateMatch(i, wantedRate) == FirstRateMatch(0, wantedRate)
      decreases COMBINED_END - i
    {
      if RATECONFIG[i].sampleRate == wantedRate {
        return i;
      }
      i := i + 1;
    }
    return -1;
  }

  /** Scanning from row i up to a sentinel at row `end` finds the first row
      offering `rate`, and -1 exactly when no row before the sentinel offers
      it. */
  lemma {:induction false} FirstMatchFromCorrect(t: seq<RateEntry>, i: nat, end: nat, rate: uint32)
    requires i <= end < |t| && t[end].sampleRate == 0 && t[|t| - 1].sampleRate == 0
    requires forall j :: i <= j < end ==> t[j].sampleRate != 0
    ensures var r := FirstMatchFrom(t, i, rate);
      && (r == -1 <==> forall j :: i <= j < end ==> t[j].sampleRate != rate)
      && (r != -1 ==> i <= r < end && t[r].sampleRate > 0
                      && forall j :: i <= j < r ==> t[j].sampleRate != rate)
    decreases end - i
  {
    if i < end && t[i].sampleRate != rate {
      FirstMatchFromCorrect(t, i + 1, end, rate);
    }
  }

  /** The scan of the region holding row i, from row i on. */
  lemma FirstRateMatchCorrect(i: nat, rate: uint32)
    requires i <= COMBINED_END || SGPIO_ONLY_OFFSET <= i <= SGPIO_ONLY_END
    ensures var r := FirstRateMatch(i, rate);
      && (r == -1 <==> forall j :: i <= j < RegionEnd(i) ==> RATECONFIG[j].sampleRate != rate)
      && (r != -1 ==> i <= r < RegionEnd(i) && IsRateIndex(r)
                      && forall j :: i <= j < r ==> RATECONFIG[j].sampleRate != rate)
  {
    TableLayout();
    FirstMatchFromCorrect(RATECONFIG, i, RegionEnd(i), rate);
  }

  /** Rate lookup: the result is -1 or a usable row offering exactly the
      wanted rate, the first such row of its region; with analog channels it
      lies in the combined region [0, 24); with none the digital-only region
      [25, 35) is searched first; -1 means no searched region offers the
      rate, which is always so for rate 0 (sentinels are never matched). */
  lemma RateLookupCorrect(rate: uint32, numVADC: int)
    ensures var i := RateIndexSpec(rate, numVADC);
      && (i == -1 || (IsRateIndex(i) && RATECONFIG[i].sampleRate == rate))
      && (numVADC != 0 ==> i < COMBINED_END)
      && (i == -1 <==> !Offers(0, COMBINED_END, rate)
                       && (numVADC == 0 ==> !Offers(SGPIO_ONLY_OFFSET, SGPIO_ONLY_END, rate)))
      && (rate == 0 ==> i == -1)
      && (0 <= i < COMBINED_END ==>
            (forall j :: 0 <= j < i ==> RATECONFIG[j].sampleRate != rate)
            && (numVADC == 0 ==> !Offers(SGPIO_ONLY_OFFSET, SGPIO_ONLY_END, rate)))
      && (i >= SGPIO_ONLY_OFFSET ==>
            numVADC == 0 && forall j :: SGPIO_ONLY_OFFSET <= j < i ==> RATECONFIG[j].sampleRate != rate)
  {
    FirstRateMatchCorrect(0, rate);
    FirstRateMatchCorrect(SGPIO_ONLY_OFFSET, rate);
  }

  /** What capture_SetSampleRate accepts for (rate, numVADC) when it looks
      the rate up: a row must be found, and with two analog channels its
      counter must not be 1 (the counter would have to be halved). */
  predicate RateAccepted(rate: uint32, numVADC: int) {
    var i := RateIndexSpec(rate, numVADC);
    i != -1 && !(numVADC == 2 && RATECONFIG[i].counter == 1)
  }

  /** The cached row idx is the row a fresh lookup of its own rate for
      numVADC analog channels would select, and that lookup accepts it. */
  predicate CacheCoherent(idx: int, numVADC: int) {
    && IsRateIndex(idx)
    && RateIndexSpec(RATECONFIG[idx].sampleRate, numVADC) == idx
    && RateAccepted(RATECONFIG[idx].sampleRate, numVADC)
  }

  /** The 2 MHz row that capture_Init programs is what a lookup of 2 MHz
      selects for any analog-channel count, so resetting the row index
      without resetting the cached analog count keeps the cache coherent. */
  lemma InitialRateCoherent(numVADC: int)
    ensures CacheCoherent(INITIAL_SAMPLE_RATE_IDX, numVADC)
  {
    assert RATECONFIG[INITIAL_SAMPLE_RATE_IDX].sampleRate == 2000000;
    assert forall j :: SGPIO_ONLY_OFFSET <= j < SGPIO_ONLY_END ==> RATECONFIG[j].sampleRate != 2000000;
    assert forall j :: 0 <= j < INITIAL_SAMPLE_RATE_IDX ==> RATECONFIG[j].sampleRate != 2000000;
    FirstRateMatchCorrect(0, 2000000);
    FirstRateMatchCorrect(SGPIO_ONLY_OFFSET, 2000000);
  }
}
