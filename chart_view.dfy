/**
 * The client's view of an option-chain snapshot (`OpenInterestData` in
 * src/app/open-interest/page.tsx) and the pure derivations the page renders
 * from it: the axis tick marks, the reference line at the underlying value,
 * and the four bar series.
 */
module ChartView {
  import opened Wrappers

  /** The snapshot as the page stores it; the last two fields may be missing from a payload. */
  datatype OpenInterestData = OpenInterestData(
    strikePrices: seq<int>,
    ceOpenInterests: seq<real>,
    peOpenInterests: seq<real>,
    ceOpenInterestsChange: seq<real>,
    peOpenInterestsChange: seq<real>,
    underlyingValue: real,
    expiryDates: Option<seq<string>>,
    selectedExpiry: Option<string>)

  /** Plotly's coordinate references: data units or fractions of the plotting area. */
  datatype AxisRef = DataRef | PaperRef

  /** A straight line shape of the layout. */
  datatype LineShape = LineShape(x0: real, y0: real, x1: real, y1: real, xref: AxisRef, yref: AxisRef)

  /** One grouped bar trace. */
  datatype BarSeries = BarSeries(name: string, x: seq<int>, y: seq<real>)

  /** What the page draws: the change chart, the overall chart, and their shared axis layout. */
  datatype View = View(change: seq<BarSeries>, overall: seq<BarSeries>, tickVals: seq<int>, referenceLine: LineShape)

  /** Every numeric list of the snapshot has one entry per strike. */
  predicate Aligned(d: OpenInterestData) {
    |d.ceOpenInterests| == |d.strikePrices| && |d.peOpenInterests| == |d.strikePrices|
    && |d.ceOpenInterestsChange| == |d.strikePrices| && |d.peOpenInterestsChange| == |d.strikePrices|
  }

  /**
   * `strike_prices.filter(price => price % 100 === 0)`. JavaScript's `%` keeps
   * the dividend's sign and Dafny's does not, but the two agree on whether the
   * remainder is zero, which is all the filter asks.
   */
  function TickVals(strikes: seq<int>): (ticks: seq<int>)
    ensures |ticks| <= |strikes|
    ensures forall i :: 0 <= i < |ticks| ==> ticks[i] % 100 == 0
  {
    if strikes == [] then []
    else
      var last := strikes[|strikes| - 1];
      TickVals(strikes[..|strikes| - 1]) + (if last % 100 == 0 then [last] else [])
  }

  lemma TickValsSnoc(strikes: seq<int>, x: int)
    ensures TickVals(strikes + [x]) == TickVals(strikes) + (if x % 100 == 0 then [x] else [])
  {
    assert (strikes + [x])[..|strikes|] == strikes;
  }

  /** Tick marks keep the input order: the filter distributes over concatenation. */
  lemma {:induction false} TickValsAppend(a: seq<int>, b: seq<int>)
    ensures TickVals(a + b) == TickVals(a) + TickVals(b)
    decreases |b|
  {
    if b == [] {
      assert a + b == a;
    } else {
      var b' := b[..|b| - 1];
      var last := b[|b| - 1];
      assert a + b == (a + b') + [last];
      assert b == b' + [last];
      TickValsSnoc(a + b', last);
      TickValsSnoc(b', last);
      TickValsAppend(a, b');
    }
  }

  /** Each multiple of 100 is kept as often as it occurs, and nothing else is kept. */
  lemma {:induction false} TickValsCounts(strikes: seq<int>, x: int)
    ensures multiset(TickVals(strikes))[x] == if x % 100 == 0 then multiset(strikes)[x] else 0
  {
    if strikes != [] {
      var init := strikes[..|strikes| - 1];
      assert strikes == init + [strikes[|strikes| - 1]];
      TickValsCounts(init, x);
    }
  }

  /** No false negatives and no false positives. */
  lemma TickValsMembership(strikes: seq<int>, x: int)
    ensures x in TickVals(strikes) <==> x in strikes && x % 100 == 0
  {
    TickValsCounts(strikes, x);
    assert x in TickVals(strikes) <==> multiset(TickVals(strikes))[x] > 0;
    assert x in strikes <==> multiset(strikes)[x] > 0;
  }

  /** When every strike is already a multiple of 100, the filter drops nothing. */
  lemma {:induction false} TickValsKeepsAll(strikes: seq<int>)
    requires forall i :: 0 <= i < |strikes| ==> strikes[i] % 100 == 0
    ensures TickVals(strikes) == strikes
  {
    if strikes != [] {
      var init := strikes[..|strikes| - 1];
      TickValsKeepsAll(init);
      assert strikes == init + [strikes[|strikes| - 1]];
    }
  }

  /** The dashed marker of `shapes`: a vertical line at the underlying value over the whole plot height. */
  function ReferenceLine(d: OpenInterestData): (line: LineShape)
    ensures line.x0 == line.x1 == d.underlyingValue && line.xref == DataRef
    ensures line.y0 == 0.0 && line.y1 == 1.0 && line.yref == PaperRef
  {
    LineShape(d.underlyingValue, 0.0, d.underlyingValue, 1.0, DataRef, PaperRef)
  }

  /**
   * The two plots' traces and their shared layout: change in open interest
   * (calls, then puts) and overall open interest (calls, then puts), all over
   * the strike prices.
   */
  function BuildView(d: OpenInterestData): (v: View)
    ensures |v.change| == 2 && |v.overall| == 2
    ensures forall s :: s in v.change + v.overall ==> s.x == d.strikePrices
    ensures Aligned(d) ==> forall s :: s in v.change + v.overall ==> |s.y| == |s.x|
    ensures v.change[0].y == d.ceOpenInterestsChange && v.change[1].y == d.peOpenInterestsChange
    ensures v.overall[0].y == d.ceOpenInterests && v.overall[1].y == d.peOpenInterests
    ensures v.tickVals == TickVals(d.strikePrices)
    ensures forall t :: t in v.tickVals ==> t in d.strikePrices && t % 100 == 0
    ensures v.referenceLine.x0 == v.referenceLine.x1 == d.underlyingValue
  {
    var ticks := TickVals(d.strikePrices);
    forall t | t in ticks ensures t in d.strikePrices && t % 100 == 0 {
      TickValsMembership(d.strikePrices, t);
    }
    View(
      [BarSeries("CE OI Change", d.strikePrices, d.ceOpenInterestsChange),
       BarSeries("PE OI Change", d.strikePrices, d.peOpenInterestsChange)],
      [BarSeries("CE OI Overall", d.strikePrices, d.ceOpenInterests),
       BarSeries("PE OI Overall", d.strikePrices, d.peOpenInterests)],
      ticks,
      ReferenceLine(d))
  }
}
