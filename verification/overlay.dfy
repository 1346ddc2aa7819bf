/** One paint of the strike overlay, with the drawing calls replaced by the
    geometry they would have been given. Everything the chart host supplies --
    tick rounding, the price-to-pixel conversion and text measurement -- arrives
    as a function in `Host`. */
module Overlay {
  import opened Wrappers
  import opened Geometry
  import opened Quotes
  import opened Strikes
  import Decimal

  /** Gap in pixels between a label's right edge and the window's right edge. */
  const Margin: int := 5

  /** Extra pill width around the text; half of it is added to the height. */
  const Pad: real := 4.0

  /** The chart host's services. */
  datatype Host = Host(
    roundToTick: (real, real) -> real,  // price, tick size -> price on the tick grid
    priceToY: real -> real,              // price -> pixel row in the chart window
    measure: string -> SizeF)            // label text -> its rendered size

  /** What shapes the overlay besides the bars: the name of the reference
      symbol the host resolved at initialisation (its own spelling, which may
      differ in case from the name the user typed), the strike half-width and
      the horizontal offset. Colours, line style and thickness only select pens
      and brushes and are not part of the model. */
  datatype Settings = Settings(symbolName: string, strikeWidth: int, horizontalOffset: int)

  /** What one paint works with once a ratio exists. */
  datatype Scene = Scene(rect: Rect, offX: int, tickSize: real, symbolName: string, ratio: real, host: Host)

  /** A pill-backed label: its text, where the text is drawn, the pill's
      rectangle and corner radius, and the outline that is filled. */
  datatype Label = Label(text: string, anchor: PointF, pill: RectF, radius: real, outline: Path)

  /** What the indicator draws for one visible strike. */
  datatype Entry = Entry(strike: int, level: real, y: real, line: Segment, caption: Label)

  /** The text of a strike's label: the reference symbol's name, one space, and
      the strike in decimal. */
  function LabelText(symbolName: string, strike: int): string {
    symbolName + " " + Decimal.IntToDecimal(strike)
  }

  /** A label names its strike: the strike can be read back after the symbol
      name and the space, so distinct strikes get distinct labels. */
  lemma LabelTextNamesStrike(symbolName: string, strike: int)
    ensures var t := LabelText(symbolName, strike);
      && t[..|symbolName| + 1] == symbolName + " "
      && Decimal.ParseInt(t[|symbolName| + 1..]) == Some(strike)
  {
    var t := LabelText(symbolName, strike);
    assert t[|symbolName| + 1..] == Decimal.IntToDecimal(strike);
    Decimal.ParseIntOfIntToDecimal(strike);
  }

  lemma LabelTextInjective(symbolName: string, a: int, b: int)
    ensures LabelText(symbolName, a) == LabelText(symbolName, b) ==> a == b
  {
    LabelTextNamesStrike(symbolName, a);
    LabelTextNamesStrike(symbolName, b);
  }

  /** Places the label of a line at pixel row `y`: the text ends `Margin`
      pixels left of the offset right edge and is centred on the line; the pill
      surrounds it with a border of `Pad / 2` on the sides and `Pad / 4` above
      and below, so it strictly encloses the text and is itself centred on the
      line; the corner radius is half the pill's height, which rounds its ends
      fully. */
  function LabelLayout(rect: Rect, offX: int, y: real, text: string, size: SizeF): (l: Label)
    ensures l.text == text
    ensures l.anchor.x + size.width == (rect.Right() + offX - Margin) as real
    ensures l.anchor.y + size.height / 2.0 == y
    ensures l.pill.x < l.anchor.x && l.anchor.x + size.width < l.pill.Right()
    ensures l.pill.y < l.anchor.y && l.anchor.y + size.height < l.pill.Bottom()
    ensures l.anchor.x - l.pill.x == l.pill.Right() - (l.anchor.x + size.width) == Pad / 2.0
    ensures l.anchor.y - l.pill.y == l.pill.Bottom() - (l.anchor.y + size.height) == Pad / 4.0
    ensures l.pill.y + l.pill.height / 2.0 == y
    ensures 2.0 * l.radius == l.pill.height
    ensures l.outline == RoundedRectanglePath(l.pill, l.radius)
  {
    var lblX := (rect.Right() + offX) as real - size.width - Margin as real;
    var lblY := y - size.height / 2.0;
    var width := size.width + Pad;
    var height := size.height + Pad / 2.0;
    var radius := height / 2.0;
    var pill := RectF(lblX - Pad / 2.0, lblY - Pad / 4.0, width, height);
    Label(text, PointF(lblX, lblY), pill, radius, RoundedRectanglePath(pill, radius))
  }

  /** A reference strike expressed in futures points: `i * ratio`. */
  function Scale(strike: int, ratio: real): real {
    strike as real * ratio
  }

  /** The futures price drawn for `strike`: the strike scaled by the ratio and
      rounded to the chart's tick size by the host. */
  function Level(sc: Scene, strike: int): real {
    sc.host.roundToTick(Scale(strike, sc.ratio), sc.tickSize)
  }

  function ChartY(sc: Scene, strike: int): real {
    sc.host.priceToY(Level(sc, strike))
  }

  /** The clip test: a strike is drawn only when its row lies within the
      window, both edges included. */
  predicate Visible(sc: Scene, strike: int) {
    sc.rect.Top() as real <= ChartY(sc, strike) <= sc.rect.Bottom() as real
  }

  /** The line and label drawn for a strike. */
  function EntryAt(sc: Scene, strike: int): (e: Entry)
    ensures e.strike == strike && e.level == Level(sc, strike)
    ensures e.y == sc.host.priceToY(e.level)
    ensures e.line.start.y == e.y == e.line.end.y
    ensures e.line.start.x == (sc.rect.Left() + sc.offX) as real
    ensures e.line.end.x == (sc.rect.Right() + sc.offX) as real
    ensures e.caption.text == LabelText(sc.symbolName, strike)
    ensures e.caption == LabelLayout(sc.rect, sc.offX, e.y, e.caption.text, sc.host.measure(e.caption.text))
  {
    var y := ChartY(sc, strike);
    var text := LabelText(sc.symbolName, strike);
    Entry(strike, Level(sc, strike), y,
          Segment(PointF((sc.rect.Left() + sc.offX) as real, y), PointF((sc.rect.Right() + sc.offX) as real, y)),
          LabelLayout(sc.rect, sc.offX, y, text, sc.host.measure(text)))
  }

  /** The clip pass of the strike loop `for (i = lo; i <= hi; i++)`: the
      strikes whose row is visible, in the loop's ascending order, and no
      others. */
  function Scan(sc: Scene, lo: int, hi: int): (r: seq<int>)
    ensures |r| <= if hi < lo then 0 else hi - lo + 1
    ensures forall k :: 0 <= k < |r| ==> lo <= r[k] <= hi && Visible(sc, r[k])
    ensures forall s :: lo <= s <= hi && Visible(sc, s) ==> s in r
    ensures StrictlyAscending(r)
    decreases hi - lo + 1
  {
    if hi < lo then []
    else
      var rest := Scan(sc, lo + 1, hi);
      if Visible(sc, lo) then [lo] + rest else rest
  }

  /** The strikes in `lo..hi` whose line is visible. */
  function VisibleStrikes(sc: Scene, lo: int, hi: int): set<int> {
    set s | lo <= s <= hi && Visible(sc, s)
  }

  /** A strictly ascending sequence lists as many integers as it holds
      distinct ones. */
  lemma {:induction false} AscendingCardinality(r: seq<int>)
    requires StrictlyAscending(r)
    ensures |set x | x in r| == |r|
  {
    if |r| > 0 {
      AscendingCardinality(r[1..]);
      assert (set x | x in r) == {r[0]} + (set x | x in r[1..]);
    }
  }

  /** A strictly ascending sequence holding exactly the members of a set is as
      long as the set is large. */
  lemma AscendingListsItsSet(r: seq<int>, members: set<int>)
    requires StrictlyAscending(r)
    requires forall x :: x in r <==> x in members
    ensures |r| == |members|
  {
    AscendingCardinality(r);
    assert (set x | x in r) == members;
  }

  /** With nothing clipped, the loop keeps every candidate. */
  lemma {:induction false} ScanAllVisible(sc: Scene, lo: int, hi: int)
    requires forall s :: lo <= s <= hi ==> Visible(sc, s)
    ensures Scan(sc, lo, hi) == Range(lo, hi)
    decreases hi - lo + 1
  {
    if lo <= hi {
      ScanAllVisible(sc, lo + 1, hi);
    }
  }

  function SceneOf(settings: Settings, rect: Rect, tickSize: real, host: Host, ratio: real): Scene {
    Scene(rect, settings.horizontalOffset, tickSize, settings.symbolName, ratio, host)
  }

  /** What every drawn entry satisfies: its row is where the host puts its
      level and lies inside the window, its
      line is horizontal at that row across the offset window, and its label
      names the strike and is laid out against the line. */
  predicate Placed(e: Entry, rect: Rect, offX: int, symbolName: string, host: Host) {
    && e.y == host.priceToY(e.level)
    && rect.Top() as real <= e.y <= rect.Bottom() as real
    && e.line.start == PointF((rect.Left() + offX) as real, e.y)
    && e.line.end == PointF((rect.Right() + offX) as real, e.y)
    && e.caption.text == LabelText(symbolName, e.strike)
    && e.caption == LabelLayout(rect, offX, e.y, e.caption.text, host.measure(e.caption.text))
  }

  /** The line and label of each strike, in the given order. */
  function Layout(sc: Scene, strikes: seq<int>): (r: seq<Entry>)
    ensures |r| == |strikes|
    ensures forall k :: 0 <= k < |r| ==> r[k] == EntryAt(sc, strikes[k])
  {
    seq(|strikes|, k requires 0 <= k < |strikes| => EntryAt(sc, strikes[k]))
  }

  /** The strikes a paint draws: none without a ratio, otherwise the visible
      ones among the `2 * strikeWidth + 1` around the truncated reference open,
      ascending. */
  function DrawnStrikes(settings: Settings, futBars: seq<Bar>, testBars: seq<Bar>, rect: Rect, tickSize: real, host: Host): (r: seq<int>)
    ensures StrictlyAscending(r)
    ensures |r| <= if settings.strikeWidth < 0 then 0 else 2 * settings.strikeWidth + 1
    ensures var ratio := OpenRatio(LatestOpen(futBars), LatestOpen(testBars));
      && (ratio.None? ==> r == [])
      && (ratio.Some? ==> forall k :: 0 <= k < |r| ==> Visible(SceneOf(settings, rect, tickSize, host, ratio.value), r[k]))
  {
    var testOpen := LatestOpen(testBars);
    match OpenRatio(LatestOpen(futBars), testOpen)
    case None => []
    case Some(ratio) =>
      var baseStrike := TruncateTowardZero(testOpen.value);
      Scan(SceneOf(settings, rect, tickSize, host, ratio),
           baseStrike - settings.strikeWidth, baseStrike + settings.strikeWidth)
  }

  /** One paint of the overlay. Without a ratio nothing is drawn. Otherwise the
      strikes around the truncated reference open are visited in ascending
      order, and each one whose line falls inside the window yields a
      horizontal line across the (offset) window and a label naming it. */
  function PaintChart(settings: Settings, futBars: seq<Bar>, testBars: seq<Bar>, rect: Rect, tickSize: real, host: Host): (r: seq<Entry>)
    ensures OpenRatio(LatestOpen(futBars), LatestOpen(testBars)).None? ==> r == []
    ensures var strikes := DrawnStrikes(settings, futBars, testBars, rect, tickSize, host);
      |r| == |strikes| && forall k :: 0 <= k < |r| ==> r[k].strike == strikes[k]
  {
    match OpenRatio(LatestOpen(futBars), LatestOpen(testBars))
    case None => []
    case Some(ratio) =>
      Layout(SceneOf(settings, rect, tickSize, host, ratio), DrawnStrikes(settings, futBars, testBars, rect, tickSize, host))
  }

  /** A visible strike's entry is placed as every drawn entry must be. */
  lemma EntryAtPlaced(sc: Scene, strike: int)
    requires Visible(sc, strike)
    ensures Placed(EntryAt(sc, strike), sc.rect, sc.offX, sc.symbolName, sc.host)
  {
  }

  /** Every entry of a paint is its strike's line and label: the level is the
      host's tick rounding of the strike scaled by the ratio, the row is where
      the host puts that level and lies inside the window, the line is
      horizontal across the offset window, and the label names the strike. */
  lemma PaintChartEntry(settings: Settings, futBars: seq<Bar>, testBars: seq<Bar>, rect: Rect, tickSize: real, host: Host, k: int)
    requires 0 <= k < |PaintChart(settings, futBars, testBars, rect, tickSize, host)|
    ensures var ratio := OpenRatio(LatestOpen(futBars), LatestOpen(testBars));
      var e := PaintChart(settings, futBars, testBars, rect, tickSize, host)[k];
      && ratio.Some?
      && e == EntryAt(SceneOf(settings, rect, tickSize, host, ratio.value), e.strike)
      && e.level == host.roundToTick(Scale(e.strike, ratio.value), tickSize)
      && Placed(e, rect, settings.horizontalOffset, settings.symbolName, host)
  {
    var ratio := OpenRatio(LatestOpen(futBars), LatestOpen(testBars));
    var sc := SceneOf(settings, rect, tickSize, host, ratio.value);
    var strikes := DrawnStrikes(settings, futBars, testBars, rect, tickSize, host);
    var e := PaintChart(settings, futBars, testBars, rect, tickSize, host)[k];
    assert e == EntryAt(sc, strikes[k]);
    EntryAtPlaced(sc, strikes[k]);
  }

  /** Which strikes a paint draws: with a ratio, exactly the candidate strikes
      (those within `strikeWidth` of the truncated reference open) whose line
      is visible. */
  lemma DrawnStrikesExactly(settings: Settings, futBars: seq<Bar>, testBars: seq<Bar>, rect: Rect, tickSize: real, host: Host, s: int)
    requires OpenRatio(LatestOpen(futBars), LatestOpen(testBars)).Some?
    ensures var sc := SceneOf(settings, rect, tickSize, host, OpenRatio(LatestOpen(futBars), LatestOpen(testBars)).value);
      s in DrawnStrikes(settings, futBars, testBars, rect, tickSize, host)
      <==> s in StrikeRange(TruncateTowardZero(LatestOpen(testBars).value), settings.strikeWidth) && Visible(sc, s)
  {
  }

  /** The tick rounding the host applies at a fixed tick size never reorders
      prices. */
  ghost predicate RoundingMonotone(roundToTick: (real, real) -> real, tickSize: real) {
    forall a, b :: a <= b ==> roundToTick(a, tickSize) <= roundToTick(b, tickSize)
  }

  /** The usual chart convention: a higher price is drawn on a higher (smaller)
      pixel row. */
  ghost predicate AxisDescending(priceToY: real -> real) {
    forall a, b :: a <= b ==> priceToY(b) <= priceToY(a)
  }

  /** A higher strike gets a level no lower and a row no lower on screen. */
  lemma StrikeClimbs(sc: Scene, s: int, t: int)
    requires s < t && sc.ratio > 0.0
    requires RoundingMonotone(sc.host.roundToTick, sc.tickSize)
    requires AxisDescending(sc.host.priceToY)
    ensures Level(sc, s) <= Level(sc, t) && ChartY(sc, t) <= ChartY(sc, s)
  {
    assert Scale(s, sc.ratio) <= Scale(t, sc.ratio);
  }

  /** Under a monotone tick rounding, a positive ratio and a descending price
      axis, laying out ascending strikes gives ascending levels on rising
      rows. */
  lemma LayoutClimbs(sc: Scene, strikes: seq<int>)
    requires StrictlyAscending(strikes) && sc.ratio > 0.0
    requires RoundingMonotone(sc.host.roundToTick, sc.tickSize)
    requires AxisDescending(sc.host.priceToY)
    ensures var r := Layout(sc, strikes);
      forall i, j :: 0 <= i < j < |r| ==> r[i].level <= r[j].level && r[j].y <= r[i].y
  {
    var r := Layout(sc, strikes);
    forall i, j | 0 <= i < j < |r|
      ensures r[i].level <= r[j].level && r[j].y <= r[i].y
    {
      StrikeClimbs(sc, strikes[i], strikes[j]);
    }
  }

  /** Under a monotone tick rounding and a descending price axis, the lines of a
      paint climb up the chart as the strikes rise: entries later in the
      output (higher strikes) never sit lower on screen. */
  lemma HigherStrikesDrawnHigher(settings: Settings, futBars: seq<Bar>, testBars: seq<Bar>, rect: Rect, tickSize: real, host: Host)
    requires RoundingMonotone(host.roundToTick, tickSize)
    requires AxisDescending(host.priceToY)
    ensures var r := PaintChart(settings, futBars, testBars, rect, tickSize, host);
      forall i, j :: 0 <= i < j < |r| ==> r[i].level <= r[j].level && r[j].y <= r[i].y
  {
    var ratio := OpenRatio(LatestOpen(futBars), LatestOpen(testBars));
    if ratio.Some? {
      LayoutClimbs(SceneOf(settings, rect, tickSize, host, ratio.value),
                   DrawnStrikes(settings, futBars, testBars, rect, tickSize, host));
    }
  }

  /** How many strikes a paint draws when a ratio exists (and so, by
      `PaintChart`'s contract, how many lines and labels): one per visible
      candidate strike -- `2 * strikeWidth + 1` less the clipped ones. */
  lemma DrawnStrikesCount(settings: Settings, futBars: seq<Bar>, testBars: seq<Bar>, rect: Rect, tickSize: real, host: Host)
    requires OpenRatio(LatestOpen(futBars), LatestOpen(testBars)).Some?
    ensures var baseStrike := TruncateTowardZero(LatestOpen(testBars).value);
      var sc := SceneOf(settings, rect, tickSize, host, OpenRatio(LatestOpen(futBars), LatestOpen(testBars)).value);
      |DrawnStrikes(settings, futBars, testBars, rect, tickSize, host)|
      == |VisibleStrikes(sc, baseStrike - settings.strikeWidth, baseStrike + settings.strikeWidth)|
  {
    var baseStrike := TruncateTowardZero(LatestOpen(testBars).value);
    var sc := SceneOf(settings, rect, tickSize, host, OpenRatio(LatestOpen(futBars), LatestOpen(testBars)).value);
    var drawn := DrawnStrikes(settings, futBars, testBars, rect, tickSize, host);
    var visible := VisibleStrikes(sc, baseStrike - settings.strikeWidth, baseStrike + settings.strikeWidth);
    forall x
      ensures x in drawn <==> x in visible
    {
      DrawnStrikesExactly(settings, futBars, testBars, rect, tickSize, host, x);
    }
    AscendingListsItsSet(drawn, visible);
  }

  /** With a ratio and no candidate clipped, a paint draws every candidate
      strike: the full run of `2 * strikeWidth + 1` around the truncated
      reference open. */
  lemma DrawnStrikesUnclipped(settings: Settings, futBars: seq<Bar>, testBars: seq<Bar>, rect: Rect, tickSize: real, host: Host)
    requires OpenRatio(LatestOpen(futBars), LatestOpen(testBars)).Some?
    requires var sc := SceneOf(settings, rect, tickSize, host, OpenRatio(LatestOpen(futBars), LatestOpen(testBars)).value);
      var baseStrike := TruncateTowardZero(LatestOpen(testBars).value);
      forall s :: baseStrike - settings.strikeWidth <= s <= baseStrike + settings.strikeWidth ==> Visible(sc, s)
    ensures DrawnStrikes(settings, futBars, testBars, rect, tickSize, host)
      == StrikeRange(TruncateTowardZero(LatestOpen(testBars).value), settings.strikeWidth)
  {
    var baseStrike := TruncateTowardZero(LatestOpen(testBars).value);
    var sc := SceneOf(settings, rect, tickSize, host, OpenRatio(LatestOpen(futBars), LatestOpen(testBars)).value);
    ScanAllVisible(sc, baseStrike - settings.strikeWidth, baseStrike + settings.strikeWidth);
  }

  /** An empty futures or reference history leaves the chart without strike
      lines. */
  lemma EmptyHistoryPaintsNothing(settings: Settings, futBars: seq<Bar>, testBars: seq<Bar>, rect: Rect, tickSize: real, host: Host)
    requires |futBars| == 0 || |testBars| == 0
    ensures PaintChart(settings, futBars, testBars, rect, tickSize, host) == []
  {
  }
}
