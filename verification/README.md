# SPY/ES strike-level overlay — a Dafny model

The indicator `SPY_ES_Price_Converter` draws options strikes of a reference
symbol (SPY by default) on a futures chart (ES). On every repaint it does four things:

1. It takes the open of the last one-minute bar of each series. Both series are
   loaded once, when the indicator initialises.
2. It forms the ratio futures-open / reference-open. If either open is missing or not
   positive, it draws nothing.
3. It walks the integer strikes `base - W .. base + W` around the truncated
   reference open. Each strike is scaled by the ratio and rounded to the
   chart's tick. A strike is kept only if its vertical pixel position lies
   inside the window.
4. For each kept strike it computes a horizontal line, a label
   `"<symbol> <strike>"` and a rounded "pill" behind the label. The pill is
   built by `CreateRoundedRectanglePath` from four quarter-circle arcs.

The project models that per-frame calculation as pure functions:

| file | module | contents |
|---|---|---|
| `wrappers.dfy` | `Wrappers` | `Option`, which stands for a `double` that may be NaN |
| `quotes.dfy` | `Quotes` | latest opens, the guarded ratio, truncation toward zero |
| `strikes.dfy` | `Strikes` | the contiguous candidate run around the base strike |
| `decimal.dfy` | `Decimal` | decimal rendering of a strike and its parser (the label text) |
| `geometry.dfy` | `Geometry` | points, rectangles, arcs, and the rounded-rectangle path |
| `overlay.dfy` | `Overlay` | clipping scan, entry layout, label/pill geometry, and the whole paint |

The host platform's services are not visible to the model: tick rounding
(`RoundPriceToTickSize`), the price-to-pixel converter (`GetChartY`) and text
measurement (`MeasureString`). They are carried as uninterpreted functions
in `Overlay.Host`, so every property holds for *any* host behaviour.
Properties that need a host assumption state it as a requirement: monotone
rounding, and a y axis that grows downward as price rises.

## Model

| member | source | states |
|---|---|---|
| Quotes.LatestOpen | SPY_ES_Price_Converter.cs:105-106 | absent exactly when the series is empty; otherwise the open of the last bar |
| Quotes.LatestOpenOfAppended | SPY_ES_Price_Converter.cs:105-106 | for any history ending in a bar b, the latest open is b's open, whatever precedes it |
| Quotes.OpenRatio | SPY_ES_Price_Converter.cs:107 | a ratio exists iff both opens are present and strictly positive; the ratio is then itself positive |
| Quotes.OpenRatioScales | SPY_ES_Price_Converter.cs:107 | the ratio maps the reference open onto the futures open (ratio × reference open = futures open) |
| Quotes.TruncateTowardZero | SPY_ES_Price_Converter.cs:137 | the `(int)` cast: for x ≥ 0 the integer n with n ≤ x < n+1; for x < 0 the n with n−1 < x ≤ n, i.e. rounded toward zero |
| Quotes.TruncateIsFloorWhenPositive | SPY_ES_Price_Converter.cs:137 | for every non-negative open (the guard admits only positive ones), the base strike is the floor of the open |
| Quotes.TruncateIsNotFloorBelowZero | SPY_ES_Price_Converter.cs:137 | for every negative non-integer the cast lands one above the floor (−0.5 truncates to 0, floors to −1); the guard keeps line 137 away from this range |
| Strikes.Range | SPY_ES_Price_Converter.cs:138 | the loop's counter values: hi−lo+1 consecutive integers starting at lo (none if hi < lo), and exactly those in [lo, hi] |
| Strikes.StrikeRange | SPY_ES_Price_Converter.cs:137-138 | 2W+1 strictly ascending candidates (none for W < 0), the k-th being base−W+k, the base strike in the middle |
| Strikes.StrikeRangeExample | SPY_ES_Price_Converter.cs:137-138 | a reference open of 500.37 with half-width 2 gives the strikes 498, 499, 500, 501, 502 |
| Overlay.Scan | SPY_ES_Price_Converter.cs:138-144 | the kept strikes are an ascending sub-run of [lo, hi]: each is in range and visible, every visible strike in range is kept, and no more than hi−lo+1 are kept |
| Overlay.ScanAllVisible | SPY_ES_Price_Converter.cs:138-144 | when nothing is clipped, the loop keeps every candidate |
| Overlay.DrawnStrikes | SPY_ES_Price_Converter.cs:105-144 | with no ratio nothing is drawn; otherwise the drawn strikes ascend strictly, number at most 2W+1, and all lie inside the window's vertical extent |
| Overlay.DrawnStrikesExactly | SPY_ES_Price_Converter.cs:137-144 | a strike is drawn iff it is a candidate of the base run and its rounded, scaled level maps inside the window |
| Overlay.DrawnStrikesCount | SPY_ES_Price_Converter.cs:138-144 | the number of drawn strikes equals the number of visible candidates |
| Overlay.DrawnStrikesUnclipped | SPY_ES_Price_Converter.cs:137-144 | if every one of the 2W+1 candidates maps inside the window, all of them are drawn, in order: exactly the run base−W..base+W |
| Overlay.EmptyHistoryPaintsNothing | SPY_ES_Price_Converter.cs:105-107 | an empty futures or reference history draws no strike lines |
| Overlay.PaintChart | SPY_ES_Price_Converter.cs:104-168 | a paint draws nothing without a ratio; otherwise one entry per drawn strike, in ascending strike order |
| Overlay.EntryAt | SPY_ES_Price_Converter.cs:140-161 | one pass of the loop body for a strike: the level is the host's tick rounding of strike × ratio, the row is where the host puts that level, the line is horizontal from Left+offset to Right+offset at that row, and the label reads "<symbol> <strike>", laid out as `LabelLayout` states; `Placed` collects these facts together with the clip for callers |
| Overlay.PaintChartEntry | SPY_ES_Price_Converter.cs:140-163 | every painted entry has level = tick-rounded (strike × ratio), y = the level's pixel row, lies within Top..Bottom, spans the full width shifted by the offset, reads "<symbol> <strike>", and sits in its label pill |
| Overlay.EntryAtPlaced | SPY_ES_Price_Converter.cs:140-163 | a visible strike's entry satisfies all placement facts (line, clip, text, pill) |
| Overlay.LayoutClimbs | SPY_ES_Price_Converter.cs:140-141 | for a monotone rounding and a downward y axis, ascending strikes get non-decreasing levels and non-increasing pixel rows |
| Overlay.HigherStrikesDrawnHigher | SPY_ES_Price_Converter.cs:138-144 | in a paint, a later (higher) strike never sits lower on screen, nor at a lower level, than an earlier one |
| Overlay.LabelLayout | SPY_ES_Price_Converter.cs:155-163 | the text's right edge is the 5 px margin (line 119) left of the shifted right edge and the text is centred on the line; the pill encloses the text strictly: 2 px of border left and right, 1 px top and bottom; it is centred on the line; its radius is half its height, and its outline is the rounded-rectangle path |
| Overlay.LabelTextNamesStrike | SPY_ES_Price_Converter.cs:151 | the label starts with the symbol name and a space, and the rest reads back as exactly the strike |
| Overlay.LabelTextInjective | SPY_ES_Price_Converter.cs:151 | two strikes with the same symbol get different labels |
| Decimal.NatToDecimal | SPY_ES_Price_Converter.cs:151 | the decimal digits of a natural number: non-empty, digits only, no leading zero |
| Decimal.DecimalValueOfNatToDecimal | SPY_ES_Price_Converter.cs:151 | reading the digits back gives the number |
| Decimal.IntToDecimal | SPY_ES_Price_Converter.cs:151 | a strike renders as a minus sign exactly for negatives, followed by the shortest numeral of its magnitude: digits only, never a leading zero except for 0 itself |
| Decimal.ParseIntOfIntToDecimal | SPY_ES_Price_Converter.cs:151 | parsing the rendered strike gives the strike back |
| Decimal.IntToDecimalInjective | SPY_ES_Price_Converter.cs:151 | distinct strikes render differently |
| Geometry.RoundedRectanglePath | SPY_ES_Price_Converter.cs:172-182 | a closed figure of four 90° arcs with 2r-sided square boxes in the top-left, top-right, bottom-right and bottom-left corners; the first starts at 180°, each starts where the previous ended, and together they turn 360° back to the start |
| Geometry.RoundedRectangleJoinsOnSides | SPY_ES_Price_Converter.cs:176-180 | the straight joins between consecutive arcs lie on the top, right, bottom and left sides of the rectangle |
| Geometry.PillEndsAreHalfDiscs | SPY_ES_Price_Converter.cs:160-163 | with radius = height/2 the left arcs share one box and the right arcs another: each end of the pill is a half disc |

## Left out

- Symbol lookup, history download and the "symbol not found" exception in
  `OnInit` (lines 74–87): this is I/O against the host. The model takes the two
  bar histories as inputs.
- The histories are snapshots: `OnInit` copies them once (`.ToList()`, lines
  82–87), and nothing appends to them later. Every paint therefore sees the same
  two opens and the same ratio until the indicator is re-initialised. The model
  is one paint over given histories; it has no notion of time or of live updates.
- The label names the symbol the host resolved (`_testSymbol.Name`, line 151).
  That symbol was matched case-insensitively against the user's input at line 76,
  so it may differ in case from what was typed. `Settings.symbolName` is that
  resolved name; the lookup itself is not modelled.
- Fonts, brushes, pens, the dash style, `SetClip`, and the `DrawLine` / `FillPath` /
  `DrawString` calls (89–94, 133–135, 146–148, 164, 167): these are rendering side effects.
  The model computes the geometry that they are given.
- The debug-text loop (110–127): its only line is empty, and it does not
  influence the strike overlay.
- Host services: `RoundPriceToTickSize`, `GetChartY` and `MeasureString` are
  parameters, not implementations. Tick-rounding tie-breaking and the grid
  property "every level is a multiple of the tick size" are therefore not
  modelled. Monotonicity is stated as an assumption where it is needed.
- IEEE arithmetic: `double`/`float` are modelled as exact reals. NaN is
  `None`. The `(float)` narrowing of the chart y is not modelled. Neither
  is overflow of the `(int)` cast or of `baseStrike ± StrikeWidth`: integers are
  unbounded.
- Quotes.OpenRatio: does not state the quotient itself in its own contract. That
  product fact is proved separately, in `Quotes.OpenRatioScales`.
- The input-parameter ranges (`StrikeWidth` 1..100 and so on, line 20) are
  editor hints, not checks in the code. The model accepts any integer width:
  a negative width gives no candidates and zero gives one. A window whose top is below its
  bottom clips every strike. The code reports no configuration or viewport
  error in these cases, and the model follows the code.
- Negative strikes are rendered with an ASCII `-`; culture-specific
  formatting of `{i}` is not modelled.
- Arcs are described by their box, start and sweep angles. Only their end
  points at multiples of 90° are modelled; the curve between them is not.
- Bars keep only their open price; the other OHLCV fields are never read by
  the overlay.
