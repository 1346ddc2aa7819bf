/** The candidate strikes of one paint: the integers the indicator's `for`
    loop visits around the truncated reference open. */
module Strikes {
  import opened Quotes

  predicate StrictlyAscending(s: seq<int>) {
    forall i, j :: 0 <= i < j < |s| ==> s[i] < s[j]
  }

  /** The values of `i` in `for (i = lo; i <= hi; i++)`: empty when `hi < lo`,
      otherwise each integer from `lo` to `hi` once, ascending. */
  function Range(lo: int, hi: int): (r: seq<int>)
    ensures |r| == if hi < lo then 0 else hi - lo + 1
    ensures forall k :: 0 <= k < |r| ==> r[k] == lo + k
    ensures forall s :: s in r <==> lo <= s <= hi
    decreases hi - lo + 1
  {
    if hi < lo then [] else [lo] + Range(lo + 1, hi)
  }

  /** The strikes `baseStrike - width .. baseStrike + width`: a contiguous
      ascending run of `2 * width + 1` integers centred on `baseStrike`. */
  function StrikeRange(baseStrike: int, width: int): (r: seq<int>)
    ensures |r| == if width < 0 then 0 else 2 * width + 1
    ensures StrictlyAscending(r)
    ensures forall k :: 0 <= k < |r| ==> r[k] == baseStrike - width + k
    ensures width >= 0 ==> r[width] == baseStrike
    ensures forall s :: s in r <==> baseStrike - width <= s <= baseStrike + width
  {
    Range(baseStrike - width, baseStrike + width)
  }

  /** A reference open of 500.37 with a half-width of 2 gives the strikes 498
      to 502. */
  lemma StrikeRangeExample()
    ensures StrikeRange(TruncateTowardZero(500.37), 2) == [498, 499, 500, 501, 502]
  {
  }
}
