/** The market-data side of one paint: the most recent one-minute opens of the
    futures and reference series, the ratio between them, and the strike the
    reference open falls on. */
module Quotes {
  import opened Wrappers

  /** A one-minute history bar; the overlay reads only its open. */
  datatype Bar = Bar(open: real)

  /** The open of the most recent bar, absent (NaN in the indicator) when the
      history is empty. */
  function LatestOpen(bars: seq<Bar>): (r: Option<real>)
    ensures r.None? <==> |bars| == 0
    ensures r.Some? ==> r.value == bars[|bars| - 1].open
  {
    if |bars| == 0 then None else Some(bars[|bars| - 1].open)
  }

  /** Appending a bar makes its open the latest one, whatever came before. */
  lemma LatestOpenOfAppended(bars: seq<Bar>, b: Bar)
    ensures LatestOpen(bars + [b]) == Some(b.open)
  {
  }

  /** The futures/reference scale factor. It exists exactly when both opens are
      present and strictly positive, and is then positive. */
  function OpenRatio(futOpen: Option<real>, testOpen: Option<real>): (r: Option<real>)
    ensures r.Some? <==> futOpen.Some? && testOpen.Some? && futOpen.value > 0.0 && testOpen.value > 0.0
    ensures r.Some? ==> r.value > 0.0
  {
    if futOpen.Some? && testOpen.Some? && futOpen.value > 0.0 && testOpen.value > 0.0
    then Some(futOpen.value / testOpen.value)
    else None
  }

  /** The ratio maps the reference open exactly onto the futures open. */
  lemma OpenRatioScales(futOpen: Option<real>, testOpen: Option<real>)
    requires OpenRatio(futOpen, testOpen).Some?
    ensures OpenRatio(futOpen, testOpen).value * testOpen.value == futOpen.value
  {
  }

  /** The `(int)` cast of a double: the fractional part is discarded, so the
      result is the integer next to `x` on the side of zero. */
  function TruncateTowardZero(x: real): (n: int)
    ensures 0.0 <= x ==> 0 <= n && n as real <= x < n as real + 1.0
    ensures x < 0.0 ==> n <= 0 && n as real - 1.0 < x <= n as real
  {
    if x >= 0.0 then x.Floor else -((-x).Floor)
  }

  /** For the non-negative opens (and the ratio guard admits only positive
      ones), truncation is flooring. */
  lemma TruncateIsFloorWhenPositive(x: real)
    requires x >= 0.0
    ensures TruncateTowardZero(x) == x.Floor
  {
  }

  /** Below zero the two differ on every non-integer: truncation lands one
      above the floor, as at -0.5, which truncates to 0 and floors to -1. */
  lemma TruncateIsNotFloorBelowZero(x: real)
    requires x < 0.0 && x != x.Floor as real
    ensures TruncateTowardZero(x) == x.Floor + 1
  {
  }
}
