/**
 * The JSON boundary between the two halves: what the page receives when the
 * server answers a chain request successfully.
 */
module Wire {
  import opened Wrappers
  import OptionChain
  import ChartView

  /** The server's payload as the page reads it (`closest_strike` is not among the fields the page declares). */
  function ToClientData(p: OptionChain.Payload): (d: ChartView.OpenInterestData)
    ensures d.strikePrices == p.strikePrices && d.underlyingValue == p.underlyingValue
    ensures d.expiryDates == Some(p.expiryDates) && d.selectedExpiry == Some(p.selectedExpiry)
    ensures OptionChain.Aligned(p) ==> ChartView.Aligned(d)
  {
    ChartView.OpenInterestData(
      p.strikePrices, p.ceOpenInterests, p.peOpenInterests,
      p.ceOpenInterestsChange, p.peOpenInterestsChange, p.underlyingValue,
      Some(p.expiryDates), Some(p.selectedExpiry))
  }

  /**
   * For a payload with the shape the server guarantees (aligned lists, every
   * strike a multiple of 100), the page draws a tick at every strike, bars of
   * matching length, and the reference line at the underlying value.
   */
  lemma ServedPayloadRenders(p: OptionChain.Payload)
    requires OptionChain.Aligned(p)
    requires forall i :: 0 <= i < |p.strikePrices| ==> p.strikePrices[i] % 100 == 0
    ensures var v := ChartView.BuildView(ToClientData(p));
      && v.tickVals == p.strikePrices
      && (forall s :: s in v.change + v.overall ==> |s.y| == |s.x| == |p.strikePrices|)
      && v.referenceLine.x0 == p.underlyingValue
  {
    ChartView.TickValsKeepsAll(p.strikePrices);
  }

  /**
   * What either chain route serves renders completely: a tick at every
   * strike, bars of matching length and the reference line at the underlying.
   */
  lemma RouteAnswerRenders(p: OptionChain.Payload, symbol: string, expiry: string,
                           expiryDates: seq<string>, chainFor: string -> OptionChain.Chain)
    requires OptionChain.Served(p, symbol, expiry, expiryDates, chainFor)
    ensures var v := ChartView.BuildView(ToClientData(p));
      && v.tickVals == p.strikePrices
      && (forall s :: s in v.change + v.overall ==> |s.y| == |s.x| == |p.strikePrices|)
      && v.referenceLine.x0 == v.referenceLine.x1 == p.underlyingValue
  {
    ServedPayloadRenders(p);
  }
}
