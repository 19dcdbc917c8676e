/** The calibration record the host application reads from a LabTool
    (app/device/labtool/labtoolcalibrationdata.h/.cpp): the raw calib_result
    block kept verbatim, the default-data test and the per-channel,
    per-range scaling factors. */
module LabToolCalibration {
  import opened CaptureTypes
  import opened LabToolDeviceSpec

  type uint8 = x: int | 0 <= x < 0x100

  /** Marker the firmware writes into checksum or version when the EEPROM
      holds no calibration of its own. */
  const DEFAULT_DATA_MARK: uint32 := 0x00dead00

  /** calib_result: every field is a 32-bit word, in this order. userOut,
      inLow and inHigh are indexed [channel][point or range]. */
  datatype CalibResult = CalibResult(
    cmd: uint32,
    checksum: uint32,
    version: uint32,
    dacValOut: seq<uint32>,
    userOut: seq<seq<int32>>,
    voltsInLow: seq<int32>,
    voltsInHigh: seq<int32>,
    inLow: seq<seq<uint32>>,
    inHigh: seq<seq<uint32>>)

  /** A table with one row per analog channel and n entries per row. */
  predicate PerChannel<T>(t: seq<seq<T>>, n: nat) {
    |t| == ANALOG_IN_CHANNELS && forall ch :: 0 <= ch < |t| ==> |t[ch]| == n
  }

  /** The array dimensions the C declaration fixes. */
  predicate Shaped(c: CalibResult) {
    && |c.dacValOut| == ANALOG_IN_CAL_NUMS
    && PerChannel(c.userOut, ANALOG_IN_CAL_NUMS)
    && |c.voltsInLow| == ANALOG_IN_RANGES
    && |c.voltsInHigh| == ANALOG_IN_RANGES
    && PerChannel(c.inLow, ANALOG_IN_RANGES)
    && PerChannel(c.inHigh, ANALOG_IN_RANGES)
  }

  /** Number of 32-bit fields of calib_result. */
  const RAW_WORDS: nat :=
    3 + ANALOG_IN_CAL_NUMS + ANALOG_IN_CHANNELS * ANALOG_IN_CAL_NUMS
    + 2 * ANALOG_IN_RANGES + 2 * ANALOG_IN_CHANNELS * ANALOG_IN_RANGES

  /** rawDataByteSize: sizeof(calib_result), four bytes per field and no
      padding. */
  function RawDataByteSize(): (n: nat)
    ensures n == 240 && n % 4 == 0
  {
    4 * RAW_WORDS
  }

  /*---------------------------------------------------------------------
   * Fields as words: an int is stored as its 32-bit two's complement.
   *---------------------------------------------------------------------*/

  function IntWord(i: int32): (w: uint32)
    ensures AsInt32(w) == i
  {
    if i < 0 then i + 0x1_0000_0000 else i
  }

  lemma WordIntWord(w: uint32)
    ensures IntWord(AsInt32(w)) == w
  {
  }

  function IntWords(s: seq<int32>): (ws: seq<uint32>)
    ensures |ws| == |s|
  {
    seq(|s|, i requires 0 <= i < |s| => IntWord(s[i]))
  }

  function WordInts(ws: seq<uint32>): (s: seq<int32>)
    ensures |s| == |ws|
  {
    seq(|ws|, i requires 0 <= i < |ws| => AsInt32(ws[i]))
  }

  lemma IntWordsRoundTrip(s: seq<int32>, ws: seq<uint32>)
    ensures WordInts(IntWords(s)) == s
    ensures IntWords(WordInts(ws)) == ws
  {
    forall i | 0 <= i < |ws|
      ensures IntWords(WordInts(ws))[i] == ws[i]
    {
      WordIntWord(ws[i]);
    }
  }

  /** The record's 60 fields in memory order. */
  function Words(c: CalibResult): (w: seq<uint32>)
    requires Shaped(c)
    ensures |w| == RAW_WORDS
  {
    [c.cmd, c.checksum, c.version] + c.dacValOut
    + IntWords(c.userOut[0]) + IntWords(c.userOut[1])
    + IntWords(c.voltsInLow) + IntWords(c.voltsInHigh)
    + c.inLow[0] + c.inLow[1]
    + c.inHigh[0] + c.inHigh[1]
  }

  /** The record whose fields are the given 60 words, read in memory order. */
  function Record(w: seq<uint32>): (c: CalibResult)
    requires |w| == RAW_WORDS
    ensures Shaped(c)
  {
    CalibResult(
      w[0], w[1], w[2],
      w[3..6],
      [WordInts(w[6..9]), WordInts(w[9..12])],
      WordInts(w[12..20]), WordInts(w[20..28]),
      [w[28..36], w[36..44]],
      [w[44..52], w[52..60]])
  }

  lemma RecordOfWords(c: CalibResult)
    requires Shaped(c)
    ensures Record(Words(c)) == c
  {
    var w := Words(c);
    IntWordsRoundTrip(c.userOut[0], []);
    IntWordsRoundTrip(c.userOut[1], []);
    IntWordsRoundTrip(c.voltsInLow, []);
    IntWordsRoundTrip(c.voltsInHigh, []);
    assert w[3..6] == c.dacValOut;
    assert w[6..9] == IntWords(c.userOut[0]);
    assert w[9..12] == IntWords(c.userOut[1]);
    assert w[12..20] == IntWords(c.voltsInLow);
    assert w[20..28] == IntWords(c.voltsInHigh);
    assert w[28..36] == c.inLow[0];
    assert w[36..44] == c.inLow[1];
    assert w[44..52] == c.inHigh[0];
    assert w[52..60] == c.inHigh[1];
    assert [c.userOut[0], c.userOut[1]] == c.userOut;
    assert [c.inLow[0], c.inLow[1]] == c.inLow;
    assert [c.inHigh[0], c.inHigh[1]] == c.inHigh;
  }

  lemma WordsOfRecord(w: seq<uint32>)
    requires |w| == RAW_WORDS
    ensures Words(Record(w)) == w
  {
    IntWordsRoundTrip([], w[6..9]);
    IntWordsRoundTrip([], w[9..12]);
    IntWordsRoundTrip([], w[12..20]);
    IntWordsRoundTrip([], w[20..28]);
    assert [w[0], w[1], w[2]] == w[..3];
    assert w[..6] == w[..3] + w[3..6];
    assert w[..9] == w[..6] + w[6..9];
    assert w[..12] == w[..9] + w[9..12];
    assert w[..20] == w[..12] + w[12..20];
    assert w[..28] == w[..20] + w[20..28];
    assert w[..36] == w[..28] + w[28..36];
    assert w[..44] == w[..36] + w[36..44];
    assert w[..52] == w[..44] + w[44..52];
    assert w == w[..52] + w[52..60];
  }

  /*---------------------------------------------------------------------
   * Words as bytes, least significant byte first (the byte order of the
   * hosts the application runs on).
   *---------------------------------------------------------------------*/

  function WordBytes(w: uint32): (b: seq<uint8>)
    ensures |b| == 4
  {
    var q1 := w / 0x100;
    var q2 := q1 / 0x100;
    [w % 0x100, q1 % 0x100, q2 % 0x100, q2 / 0x100]
  }

  function WordOf(b: seq<uint8>): uint32
    requires |b| == 4
  {
    b[0] as int + 0x100 * (b[1] as int + 0x100 * (b[2] as int + 0x100 * (b[3] as int)))
  }

  lemma WordOfWordBytes(w: uint32)
    ensures WordOf(WordBytes(w)) == w
  {
    var q1 := w / 0x100;
    var q2 := q1 / 0x100;
    assert w == w % 0x100 + 0x100 * q1;
    assert q1 == q1 % 0x100 + 0x100 * q2;
    assert q2 == q2 % 0x100 + 0x100 * (q2 / 0x100);
  }

  lemma WordBytesWordOf(b: seq<uint8>)
    requires |b| == 4
    ensures WordBytes(WordOf(b)) == b
  {
    var q2 := b[2] as int + 0x100 * (b[3] as int);
    var q1 := b[1] as int + 0x100 * q2;
    var x := b[0] as int + 0x100 * q1;
    assert x == WordOf(b);
    assert x % 0x100 == b[0] && x / 0x100 == q1;
    assert q1 % 0x100 == b[1] && q1 / 0x100 == q2;
    assert q2 % 0x100 == b[2] && q2 / 0x100 == b[3];
  }

  function EncodeWords(ws: seq<uint32>): (bs: seq<uint8>)
    ensures |bs| == 4 * |ws|
  {
    if ws == [] then [] else WordBytes(ws[0]) + EncodeWords(ws[1..])
  }

  function DecodeWords(bs: seq<uint8>): (ws: seq<uint32>)
    requires |bs| % 4 == 0
    ensures 4 * |ws| == |bs|
  {
    if bs == [] then [] else [WordOf(bs[..4])] + DecodeWords(bs[4..])
  }

  lemma {:induction false} DecodeEncodeWords(ws: seq<uint32>)
    ensures DecodeWords(EncodeWords(ws)) == ws
  {
    if ws != [] {
      var bs := EncodeWords(ws);
      assert bs[..4] == WordBytes(ws[0]) && bs[4..] == EncodeWords(ws[1..]);
      WordOfWordBytes(ws[0]);
      DecodeEncodeWords(ws[1..]);
    }
  }

  lemma {:induction false} EncodeDecodeWords(bs: seq<uint8>)
    requires |bs| % 4 == 0
    ensures EncodeWords(DecodeWords(bs)) == bs
  {
    if bs != [] {
      var ws := DecodeWords(bs);
      assert ws[0] == WordOf(bs[..4]) && ws[1..] == DecodeWords(bs[4..]);
      WordBytesWordOf(bs[..4]);
      EncodeDecodeWords(bs[4..]);
      assert bs == bs[..4] + bs[4..];
    }
  }

  /** Word k of a byte image is read from bytes 4k..4k+3. */
  lemma {:induction false} DecodedWordAt(bs: seq<uint8>, k: nat)
    requires |bs| % 4 == 0 && 4 * k + 4 <= |bs|
    ensures DecodeWords(bs)[k] == WordOf(bs[4 * k..4 * k + 4])
  {
    if k > 0 {
      var m := 4 * (k - 1);
      DecodedWordAt(bs[4..], k - 1);
      assert m + 4 == 4 * k;
      var shifted, direct := bs[4..][m..m + 4], bs[4 * k..4 * k + 4];
      assert forall j :: 0 <= j < 4 ==> shifted[j] == direct[j];
      assert shifted == direct;
    }
  }

  /** The bytes of a record as memcpy sees them. */
  function Serialize(c: CalibResult): (bytes: seq<uint8>)
    requires Shaped(c)
    ensures |bytes| == RawDataByteSize()
  {
    EncodeWords(Words(c))
  }

  /** The record memcpy fills from a block of bytes. */
  function Deserialize(bytes: seq<uint8>): (c: CalibResult)
    requires |bytes| == RawDataByteSize()
    ensures Shaped(c)
  {
    Record(DecodeWords(bytes))
  }

  /** A record survives the trip through its bytes. */
  lemma RecordRoundTrip(c: CalibResult)
    requires Shaped(c)
    ensures Deserialize(Serialize(c)) == c
  {
    DecodeEncodeWords(Words(c));
    RecordOfWords(c);
  }

  /** Copying bytes into the record and back gives the same bytes. */
  lemma BytesRoundTrip(bytes: seq<uint8>)
    requires |bytes| == RawDataByteSize()
    ensures Serialize(Deserialize(bytes)) == bytes
  {
    WordsOfRecord(DecodeWords(bytes));
    EncodeDecodeWords(bytes);
  }

  /*---------------------------------------------------------------------
   * LabToolCalibrationData
   *---------------------------------------------------------------------*/

  /** A LabToolCalibrationData object: the raw record, the factor tables
      mCalibA and mCalibB indexed [channel][volts/div range], and the
      reasonableness verdict. The factors are doubles computed once by the
      constructor; they are modelled as reals that are only stored. */
  datatype CalibrationData = CalibrationData(
    raw: CalibResult,
    calibA: seq<seq<real>>,
    calibB: seq<seq<real>>,
    reasonable: bool)

  predicate Valid(d: CalibrationData) {
    Shaped(d.raw) && PerChannel(d.calibA, ANALOG_IN_RANGES) && PerChannel(d.calibB, ANALOG_IN_RANGES)
  }

  /** The constructor: the first rawDataByteSize bytes of data are copied
      verbatim into the record. The factors and the verdict it derives in
      floating point are given. */
  function FromRawData(data: seq<uint8>, calibA: seq<seq<real>>, calibB: seq<seq<real>>,
                       reasonable: bool): (d: CalibrationData)
    requires |data| >= RawDataByteSize()
    requires PerChannel(calibA, ANALOG_IN_RANGES) && PerChannel(calibB, ANALOG_IN_RANGES)
    ensures Valid(d)
    ensures RawCalibrationData(d) == data[..RawDataByteSize()]
    ensures d.calibA == calibA && d.calibB == calibB && d.reasonable == reasonable
  {
    var bytes := data[..RawDataByteSize()];
    BytesRoundTrip(bytes);
    CalibrationData(Deserialize(bytes), calibA, calibB, reasonable)
  }

  /** rawCalibrationData: the record's bytes, as saved back to the device. */
  function RawCalibrationData(d: CalibrationData): (bytes: seq<uint8>)
    requires Shaped(d.raw)
    ensures |bytes| == RawDataByteSize()
    ensures Deserialize(bytes) == d.raw
  {
    RecordRoundTrip(d.raw);
    Serialize(d.raw)
  }

  /** isDefaultData: the checksum or the version carries the default mark. */
  function IsDefaultData(d: CalibrationData): bool {
    d.raw.checksum == DEFAULT_DATA_MARK || d.raw.version == DEFAULT_DATA_MARK
  }

  /** isDataReasonable */
  function IsDataReasonable(d: CalibrationData): bool {
    d.reasonable
  }

  /** analogFactorA: the A factor of a channel and volts/div range. */
  function AnalogFactorA(d: CalibrationData, ch: nat, voltsPerDivIndex: nat): real
    requires Valid(d) && ch < ANALOG_IN_CHANNELS && voltsPerDivIndex < ANALOG_IN_RANGES
  {
    d.calibA[ch][voltsPerDivIndex]
  }

  /** analogFactorB: the B factor of a channel and volts/div range. */
  function AnalogFactorB(d: CalibrationData, ch: nat, voltsPerDivIndex: nat): real
    requires Valid(d) && ch < ANALOG_IN_CHANNELS && voltsPerDivIndex < ANALOG_IN_RANGES
  {
    d.calibB[ch][voltsPerDivIndex]
  }

  /** Read from the bytes the device sent, the data is the default data
      exactly when bytes 4..7 (checksum) or 8..11 (version) hold the mark,
      least significant byte first. */
  lemma DefaultDataFromBytes(data: seq<uint8>, calibA: seq<seq<real>>, calibB: seq<seq<real>>,
                             reasonable: bool)
    requires |data| >= RawDataByteSize()
    requires PerChannel(calibA, ANALOG_IN_RANGES) && PerChannel(calibB, ANALOG_IN_RANGES)
    ensures IsDefaultData(FromRawData(data, calibA, calibB, reasonable))
            <==> WordOf(data[4..8]) == DEFAULT_DATA_MARK || WordOf(data[8..12]) == DEFAULT_DATA_MARK
  {
    var bytes := data[..RawDataByteSize()];
    DecodedWordAt(bytes, 1);
    DecodedWordAt(bytes, 2);
    assert bytes[4..8] == data[4..8] && bytes[8..12] == data[8..12];
  }

  /** The default-data verdict depends on the checksum and version fields
      only: two records that agree on those two agree on the verdict,
      whatever cmd, the measurements and the factors hold. */
  lemma DefaultDataReadsOnlyMarks(d: CalibrationData, e: CalibrationData)
    requires d.raw.checksum == e.raw.checksum && d.raw.version == e.raw.version
    ensures IsDefaultData(d) == IsDefaultData(e)
  {
  }

  /** The getters return what the constructor stored, entry by entry. */
  lemma GettersReturnStored(data: seq<uint8>, calibA: seq<seq<real>>, calibB: seq<seq<real>>,
                            reasonable: bool, ch: nat, voltsPerDivIndex: nat)
    requires |data| >= RawDataByteSize()
    requires PerChannel(calibA, ANALOG_IN_RANGES) && PerChannel(calibB, ANALOG_IN_RANGES)
    requires ch < ANALOG_IN_CHANNELS && voltsPerDivIndex < ANALOG_IN_RANGES
    ensures var d := FromRawData(data, calibA, calibB, reasonable);
            && AnalogFactorA(d, ch, voltsPerDivIndex) == calibA[ch][voltsPerDivIndex]
            && AnalogFactorB(d, ch, voltsPerDivIndex) == calibB[ch][voltsPerDivIndex]
            && IsDataReasonable(d) == reasonable
  {
  }
}
