/**
 * The numeric settings index.ts wires the services with, and what they mean for the model: a
 * full buffer of 1620 snapshots with 5 lags and a 20-record label window yields regression
 * series of 1595 entries, and with the signal fixed at 0 the 0.2 threshold keeps the strategy idle.
 */
module Configuration {
  import opened Common
  import opened Snapshots
  import opened DataStores
  import opened LinearStrategies

  /** The manager's `riskTolerance`. */
  const RiskTolerance: real := 0.1
  /** The trader's `threshold`. */
  const Threshold: real := 0.2
  /** The data store's `recordSize`, `delay` and `lags`. */
  const RecordSize: nat := 1620
  const Delay: nat := 20
  const Lags: nat := 5

  /**
   * With the configured buffer size, lags and window, a full buffer gives four series of 1595
   * entries, entry `j` of each taken from snapshot `5 + j`: its three signals, and as label the
   * mean mid-price of snapshots `5 + j .. 24 + j` minus its own mid-price.
   */
  lemma ConfiguredSeries(records: seq<Snapshot>)
    requires |records| == RecordSize
    ensures var d := LinearDataOf(records, RecordSize, Lags, Delay);
      && |d.VOI| == |d.OIR| == |d.MPB| == |d.dMid| == 1595
      && (forall j :: 0 <= j < 1595 ==>
            d.VOI[j] == records[5 + j].VOI && d.OIR[j] == records[5 + j].OIR && d.MPB[j] == records[5 + j].MPB)
      && (forall j :: 0 <= j < 1595 ==>
            d.dMid[j] == Sum(Column(records, MidPriceField)[5 + j..25 + j]) / 20.0 - records[5 + j].midPrice)
  {
    LinearDataAligned(records, RecordSize, Lags, Delay);
  }

  /** With the configured threshold and the signal at its only value, no tick acts. */
  lemma ConfiguredStrategyIdle(v: ManagerView, q: Quote, hasOpenOrders: bool)
    requires q.bestBid != 0.0
    ensures Decide(v, 0.0, Threshold, q, hasOpenOrders) == Act([], None)
  {
    IdleAtZeroSignal(v, Threshold, q, hasOpenOrders);
  }

  /**
   * With the configured risk tolerance the open branch spends a tenth of the USD balance at the
   * bid, so with a positive bid it buys only when that balance exceeds a hundredth of the bid.
   */
  lemma ConfiguredOpenNeedsBalance(v: ManagerView, q: Quote)
    requires v.risk == RiskTolerance && v.usd.Some? && q.bestBid > 0.0
    ensures BuySize(v, q) * q.bestBid == v.usd.value / 10.0
    ensures BuySize(v, q) > 0.001 <==> v.usd.value > 0.01 * q.bestBid
  {
    var bid, usd := q.bestBid, v.usd.value;
    assert BuySize(v, q) == 0.1 * usd / bid;
    if 0.1 * usd / bid > 0.001 {
      assert 0.1 * usd > 0.001 * bid;
    } else {
      assert 0.1 * usd <= 0.001 * bid;
    }
  }
}
