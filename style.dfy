/** The numeric part of the root style projection (script.js lines 185-195):
    physical card width to CSS pixels, and the typography scale relative to a
    63 mm card at 300 dpi, clamped to a legible range. Arithmetic is exact
    (`real`); JavaScript's floating-point rounding is not modelled. */
module StyleProjection {

  const MmPerInch: real := 25.4
  const BaseWidthMm: real := 63.0
  const BaseDpi: real := 300.0
  const MinScale: real := 0.3
  const MaxScale: real := 4.0

  /** `mm / 25.4 * dpi`: the card's width in pixels. */
  function WidthPx(mm: real, dpi: real): (px: real)
    ensures px * MmPerInch == mm * dpi
    ensures mm > 0.0 && dpi > 0.0 ==> px > 0.0
  {
    mm / MmPerInch * dpi
  }

  /** Width of the reference card, 63 mm at 300 dpi. */
  function BaseWidthPx(): (px: real)
    ensures px * MmPerInch == BaseWidthMm * BaseDpi
  {
    WidthPx(BaseWidthMm, BaseDpi)
  }

  /** The unclamped scale: how many reference widths the card is. It grows
      with the product of width and resolution, 18900 = 63 * 300 being one. */
  function RawScale(mm: real, dpi: real): (s: real)
    ensures s * (BaseWidthMm * BaseDpi) == mm * dpi
  {
    WidthPx(mm, dpi) / BaseWidthPx()
  }

  /** `Math.max(0.3, Math.min(x, 4))`. */
  function ClampScale(x: real): (r: real)
    ensures MinScale <= r <= MaxScale
    ensures MinScale <= x <= MaxScale ==> r == x
    ensures x < MinScale ==> r == MinScale
    ensures x > MaxScale ==> r == MaxScale
  {
    var upper := if x < MaxScale then x else MaxScale;
    if MinScale > upper then MinScale else upper
  }

  /** The `--card-scale` value written for a card of `mm` millimetres at `dpi`. */
  function CardScale(mm: real, dpi: real): (s: real)
    ensures MinScale <= s <= MaxScale
  {
    ClampScale(RawScale(mm, dpi))
  }

  /** The reference card has scale exactly 1. */
  lemma ReferenceCardScale()
    ensures RawScale(BaseWidthMm, BaseDpi) == 1.0
    ensures CardScale(BaseWidthMm, BaseDpi) == 1.0
  {
  }

  /** The start-up setting, 63 mm at 72 dpi, has raw scale 72/300 = 0.24,
      which the clamp raises to 0.3. */
  lemma DefaultCardScale()
    ensures RawScale(63.0, 72.0) == 0.24
    ensures CardScale(63.0, 72.0) == MinScale
  {
  }

  /** A wider card or a finer resolution never shrinks the scale. */
  lemma ScaleMonotonic(mm1: real, dpi1: real, mm2: real, dpi2: real)
    requires 0.0 < mm1 <= mm2 && 0.0 < dpi1 <= dpi2
    ensures RawScale(mm1, dpi1) <= RawScale(mm2, dpi2)
    ensures CardScale(mm1, dpi1) <= CardScale(mm2, dpi2)
  {
    assert mm1 * dpi1 <= mm2 * dpi1;
    assert mm2 * dpi1 <= mm2 * dpi2;
    var k := BaseWidthMm * BaseDpi;
    assert RawScale(mm1, dpi1) * k <= RawScale(mm2, dpi2) * k;
  }
}
