/**
 * The pure numeric rules of the widget: the conversion of an observed rate in
 * bytes per second into the value stored on a link, the stroke width drawn for
 * a stored value, and the density factor that shrinks the drawing as the
 * graph grows.
 */
module Style {
  import opened Wrappers

  /** Default (and minimum displayed) link thickness. */
  const LinkWidth: real := 0.7
  /** Thickness reached at MaxBytes. */
  const MaxWidth: real := 5.0
  /** Bytes per second at which a link reaches MaxWidth (2 MiB/s). */
  const MaxBytes: real := 2097152.0

  /** Stored link rate for an observed rate: min(bytes, MaxBytes) scaled into [0, MaxWidth]. */
  function SpeedRange(bytes: real): (r: real)
    ensures 0.0 <= bytes ==> 0.0 <= r <= MaxWidth
    ensures bytes >= MaxBytes ==> r == MaxWidth
    ensures bytes <= MaxBytes ==> r * MaxBytes == bytes * MaxWidth
  {
    (if bytes < MaxBytes then bytes else MaxBytes) * MaxWidth / MaxBytes
  }

  lemma SpeedRangeMonotone(x: real, y: real)
    requires x <= y
    ensures SpeedRange(x) <= SpeedRange(y)
  {
  }

  /** Every rate at or above the threshold is stored as the same value. */
  lemma SpeedRangeSaturates(x: real, y: real)
    requires MaxBytes <= x && MaxBytes <= y
    ensures SpeedRange(x) == SpeedRange(y) == MaxWidth
  {
  }

  /**
   * Displayed stroke width for a link's stored rate: an absent or zero rate
   * (both falsy in the source) shows at LinkWidth, any other rate at
   * max(rate, LinkWidth).
   */
  function StrokeWidth(rate: Option<real>): (w: real)
    ensures LinkWidth <= w
    ensures w == LinkWidth || (rate.Some? && w == rate.value)
    ensures rate.Some? ==> rate.value <= w
  {
    match rate
    case None => LinkWidth
    case Some(x) => if x == 0.0 then LinkWidth else if x < LinkWidth then LinkWidth else x
  }

  /**
   * The width shown after `rate` with a non-negative byte rate lies in
   * [LinkWidth, MaxWidth]; it is the minimum exactly when the byte rate is at
   * most LinkWidth * MaxBytes / MaxWidth (293601.28 bytes/s), and the maximum
   * from MaxBytes on.
   */
  lemma DisplayedWidth(bytes: real)
    requires 0.0 <= bytes
    ensures LinkWidth <= StrokeWidth(Some(SpeedRange(bytes))) <= MaxWidth
    ensures StrokeWidth(Some(SpeedRange(bytes))) == LinkWidth <==> bytes * MaxWidth <= LinkWidth * MaxBytes
    ensures MaxBytes <= bytes ==> StrokeWidth(Some(SpeedRange(bytes))) == MaxWidth
  {
  }

  /** The 150 KB/s rate of the example driver is drawn at the minimum width. */
  lemma ExampleRateShowsMinimum()
    ensures StrokeWidth(Some(SpeedRange(150000.0))) == LinkWidth
  {
  }

  /**
   * Density factor for a graph of `count` nodes: 1 below 10 nodes, then
   * 1 - (count - 10) / 100, never below 0.2.
   */
  function Scale(count: nat): (r: real)
    ensures 0.2 <= r <= 1.0
    ensures count < 10 ==> r == 1.0
    ensures 90 <= count ==> r == 0.2
    ensures 10 <= count < 90 ==> r == 1.0 - (count - 10) as real / 100.0
  {
    if count < 10 then 1.0
    else
      var shrunk := 1.0 - (count - 10) as real / 100.0;
      if 0.2 < shrunk then shrunk else 0.2
  }

  /** The drawing never grows as nodes are added. */
  lemma ScaleAntitone(m: nat, n: nat)
    requires m <= n
    ensures Scale(n) <= Scale(m)
  {
  }
}
