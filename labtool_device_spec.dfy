/** The LabTool device limits of the host application
    (app/device/labtool/labtooldevicespec.h): channel and range counts,
    calibration points, and the clamp of a value to the 10-bit SPI DAC. */
module LabToolDeviceSpec {

  const ANALOG_IN_CHANNELS: nat := 2
  const ANALOG_IN_RANGES: nat := 8
  const ANALOG_IN_CAL_LOW: nat := 0
  const ANALOG_IN_CAL_MIDDLE: nat := 1
  const ANALOG_IN_CAL_HIGH: nat := 2
  const ANALOG_IN_CAL_NUMS: nat := 3
  const SPI_DAC_BITS: nat := 10

  /** 1 << n, as the enum initialisers write it. */
  function ShiftOne(n: nat): (p: nat)
    ensures p >= 1
  {
    if n == 0 then 1 else 2 * ShiftOne(n - 1)
  }

  const SPI_DAC_MAX: int := ShiftOne(SPI_DAC_BITS) - 1
  const SPI_DAC_MIN: int := 0
  const SPI_DAC_MASK: int := ShiftOne(SPI_DAC_BITS) - 1

  /** The DAC accepts 0..1023, and the mask is the same all-ones value. */
  lemma DacLimits()
    ensures SPI_DAC_MIN == 0 && SPI_DAC_MAX == 1023 && SPI_DAC_MASK == SPI_DAC_MAX
    ensures SPI_DAC_MAX + 1 == ShiftOne(SPI_DAC_BITS)
  {
    assert ShiftOne(10) == 1024 by {
      assert ShiftOne(5) == 32;
    }
  }

  /** The calibration points index the three DAC outputs in order. */
  lemma CalibrationPointsDistinct()
    ensures ANALOG_IN_CAL_LOW < ANALOG_IN_CAL_MIDDLE < ANALOG_IN_CAL_HIGH < ANALOG_IN_CAL_NUMS
  {
  }

  /** spiDacClipValue: a value below the DAC range becomes its minimum, one
      above becomes its maximum, one inside is kept. */
  function SpiDacClipValue(val: int): (r: int)
    ensures SPI_DAC_MIN <= r <= SPI_DAC_MAX
    ensures SPI_DAC_MIN <= val <= SPI_DAC_MAX ==> r == val
    ensures val < SPI_DAC_MIN ==> r == SPI_DAC_MIN
    ensures val > SPI_DAC_MAX ==> r == SPI_DAC_MAX
  {
    DacLimits();
    if val < SPI_DAC_MIN then SPI_DAC_MIN
    else if val > SPI_DAC_MAX then SPI_DAC_MAX
    else val
  }

  function Distance(a: int, b: int): nat {
    if a <= b then b - a else a - b
  }

  /** The clipped value is the point of the DAC range nearest to the input,
      and the only one that near. */
  lemma ClipIsNearest(val: int, y: int)
    requires SPI_DAC_MIN <= y <= SPI_DAC_MAX
    ensures Distance(val, SpiDacClipValue(val)) <= Distance(val, y)
    ensures Distance(val, y) == Distance(val, SpiDacClipValue(val)) ==> y == SpiDacClipValue(val)
  {
  }

  /** Clipping twice is clipping once. */
  lemma ClipIdempotent(val: int)
    ensures SpiDacClipValue(SpiDacClipValue(val)) == SpiDacClipValue(val)
  {
  }

  /** Clipping keeps the order of its inputs. */
  lemma ClipMonotone(x: int, y: int)
    requires x <= y
    ensures SpiDacClipValue(x) <= SpiDacClipValue(y)
  {
  }

  /** Every clipped value fits in SPI_DAC_BITS bits: keeping only those
      bits (masking with SPI_DAC_MASK) changes nothing. */
  lemma ClipFitsMask(val: int)
    ensures SpiDacClipValue(val) % (SPI_DAC_MASK + 1) == SpiDacClipValue(val)
  {
    DacLimits();
  }
}
