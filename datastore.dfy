/**
 * The signal buffer of services/DataStore.ts. Trade messages feed two running accumulators
 * (traded size and notional); once per tick a snapshot is built from the top of the order book
 * and those accumulators, its derived signals are computed against the record two positions
 * back in the buffer, and it is appended to a buffer trimmed to `recordSize + 1` entries. When
 * the buffer holds exactly `recordSize` records it can be turned into aligned feature and label
 * series, and a three-feature linear model is fitted to those series.
 */
module DataStores {
  import opened Common
  import opened Snapshots

  /** The top of the live order book: best prices and the resting size at each. */
  datatype TopOfBook = TopOfBook(bidPrice: real, bidSize: real, askPrice: real, askSize: real)

  /** One trade message as the buffer reads it. */
  datatype TradeMsg = TradeMsg(price: real, size: real)

  /** The aligned series the regression is fitted to. */
  datatype LinearData = LinearData(VOI: seq<real>, OIR: seq<real>, MPB: seq<real>, dMid: seq<real>)

  /** An intercept and one coefficient per feature. */
  datatype LinearModel = LinearModel(b: real, oirCoeff: real, voiCoeff: real, mpbCoeff: real)

  // ---------------------------------------------------------------------------------------------
  // Sums

  function Sum(s: seq<real>): real
  {
    if |s| == 0 then 0.0 else Sum(s[..|s| - 1]) + s[|s| - 1]
  }

  function SumProducts(x: seq<real>, y: seq<real>): real
    requires |x| == |y|
  {
    if |x| == 0 then 0.0 else var n := |x| - 1; SumProducts(x[..n], y[..n]) + x[n] * y[n]
  }

  function SizeSum(msgs: seq<TradeMsg>): real
  {
    if |msgs| == 0 then 0.0 else SizeSum(msgs[..|msgs| - 1]) + msgs[|msgs| - 1].size
  }

  function NotionalSum(msgs: seq<TradeMsg>): real
  {
    if |msgs| == 0 then 0.0 else NotionalSum(msgs[..|msgs| - 1]) + msgs[|msgs| - 1].price * msgs[|msgs| - 1].size
  }

  // ---------------------------------------------------------------------------------------------
  // JavaScript array helpers: `slice` with its clamping of negative and oversized indices, and
  // `fill(Array(n), 0)`.

  function JsIndex(i: int, len: nat): (k: nat)
    ensures k <= len
    ensures 0 <= i <= len ==> k == i
  {
    if i < 0 then (if len + i < 0 then 0 else len + i) else if i > len then len else i
  }

  function JsSlice<T>(s: seq<T>, start: int, end: int): (r: seq<T>)
    ensures |r| <= |s|
    ensures 0 <= start <= end <= |s| ==> r == s[start..end]
    ensures 0 <= end <= start ==> r == []
  {
    var a, b := JsIndex(start, |s|), JsIndex(end, |s|);
    if a < b then s[a..b] else []
  }

  function Zeros(n: nat): (r: seq<real>)
    ensures |r| == n && forall i :: 0 <= i < n ==> r[i] == 0.0
  {
    seq(n, _ => 0.0)
  }

  /** `records.map(snapshot => snapshot[param])`. */
  function Column(records: seq<Snapshot>, f: Field): (r: seq<real>)
    ensures |r| == |records|
    ensures forall i :: 0 <= i < |records| ==> r[i] == Get(records[i], f)
  {
    seq(|records|, i requires 0 <= i < |records| => Get(records[i], f))
  }

  // ---------------------------------------------------------------------------------------------
  // The derived fields (`_setDPrice` ... `_setVOI`). Each takes the snapshot being filled and the
  // record two back in the buffer, if there is one, and writes only its own fields.

  /** `records[length - 2]`, read before the new snapshot is pushed. */
  function Previous(records: seq<Snapshot>): (p: Option<Snapshot>)
    ensures p.Some? <==> |records| >= 2
    ensures p.Some? ==> p.value == records[|records| - 2]
  {
    if |records| >= 2 then Some(records[|records| - 2]) else None
  }

  /** The fields `buildSnapshot` sets before any derivation; the others stay unset. */
  function FromBook(book: TopOfBook, volume: real, turnover: real): (s: Snapshot)
    ensures s.bid == book.bidPrice && s.ask == book.askPrice
    ensures s.bidVolume == book.bidSize && s.askVolume == book.askSize
    ensures s.volume == volume && s.turnover == turnover
    ensures s.spread == s.ask - s.bid && s.midPrice == (s.ask + s.bid) / 2.0
  {
    Snapshot(size := 0.0, price := 0.0, bid := book.bidPrice, ask := book.askPrice,
             askVolume := book.askSize, bidVolume := book.bidSize,
             volume := volume, turnover := turnover,
             spread := book.askPrice - book.bidPrice, midPrice := (book.askPrice + book.bidPrice) / 2.0,
             dBid := 0.0, dAsk := 0.0, bidCV := 0.0, askCV := 0.0, dVol := 0.0, dTO := 0.0,
             avgTrade := 0.0, MPB := 0.0, OIR := 0.0, VOI := 0.0)
  }

  function SetDPrice(s: Snapshot, prev: Option<Snapshot>): (r: Snapshot)
    ensures r.(dBid := s.dBid, dAsk := s.dAsk) == s
  {
    match prev
    case Some(p) => s.(dBid := s.bid - p.bid, dAsk := s.ask - p.ask)
    case None => s.(dBid := 0.0, dAsk := 0.0)
  }

  function SetCV(s: Snapshot, prev: Option<Snapshot>): (r: Snapshot)
    ensures r.(bidCV := s.bidCV, askCV := s.askCV) == s
  {
    match prev
    case Some(p) =>
      s.(bidCV := s.bidVolume - (if s.dBid == 0.0 then p.bidVolume else 0.0) * (if s.dBid >= 0.0 then 1.0 else 0.0),
         askCV := s.askVolume - (if s.dAsk == 0.0 then p.askVolume else 0.0) * (if s.dAsk <= 0.0 then 1.0 else 0.0))
    case None => s.(bidCV := 0.0, askCV := 0.0)
  }

  function SetDVol(s: Snapshot, prev: Option<Snapshot>): (r: Snapshot)
    ensures r.(dVol := s.dVol) == s
  {
    match prev
    case Some(p) => s.(dVol := if s.volume - p.volume > 0.0 then s.volume - p.volume else p.dVol)
    case None => s.(dVol := 0.0)
  }

  function SetDTO(s: Snapshot, prev: Option<Snapshot>): (r: Snapshot)
    ensures r.(dTO := s.dTO) == s
  {
    match prev
    case Some(p) => s.(dTO := if s.turnover - p.turnover > 0.0 then s.turnover - p.turnover else p.dTO)
    case None => s.(dTO := 0.0)
  }

  function SetAvgTrade(s: Snapshot, prev: Option<Snapshot>): (r: Snapshot)
    requires prev.Some? && prev.value.volume != s.volume ==> s.dVol != 0.0
    ensures r.(avgTrade := s.avgTrade) == s
  {
    match prev
    case Some(p) => s.(avgTrade := if p.volume != s.volume then s.dTO / s.dVol / 300.0 else p.avgTrade)
    case None => s.(avgTrade := s.midPrice)
  }

  function SetMPB(s: Snapshot, prev: Option<Snapshot>): (r: Snapshot)
    requires s.spread != 0.0
    ensures r.(MPB := s.MPB) == s
  {
    match prev
    case Some(p) => s.(MPB := (s.avgTrade - (s.midPrice + p.midPrice) / 2.0) / s.spread)
    case None => s.(MPB := (s.avgTrade - s.midPrice) / s.spread)
  }

  function SetOIR(s: Snapshot): (r: Snapshot)
    requires s.spread != 0.0 && s.bidVolume + s.askVolume != 0.0
    ensures r.(OIR := s.OIR) == s
  {
    s.(OIR := ((s.bidVolume - s.askVolume) / (s.bidVolume + s.askVolume)) / s.spread)
  }

  function SetVOI(s: Snapshot): (r: Snapshot)
    ensures r.(VOI := s.VOI) == s
  {
    s.(VOI := s.bidCV - s.askCV)
  }

  /** The divisions of the derivations have nonzero divisors. */
  predicate Derivable(s: Snapshot, prev: Option<Snapshot>)
  {
    && s.spread != 0.0
    && s.bidVolume + s.askVolume != 0.0
    && (prev.Some? && prev.value.volume != s.volume ==> s.volume > prev.value.volume || prev.value.dVol != 0.0)
  }

  /**
   * All derivations, in the order `buildSnapshot` runs them. The prices, sizes and accumulators
   * are kept; without a previous record every delta is 0 and the average trade price is the
   * mid-price; with one, the volume contributions follow the tie rule below, and each of `dVol`
   * and `dTO` is a strictly positive increase or a copy of the previous record's value.
   */
  function Derive(s: Snapshot, prev: Option<Snapshot>): (r: Snapshot)
    requires Derivable(s, prev)
    ensures r.bid == s.bid && r.ask == s.ask && r.spread == s.spread && r.midPrice == s.midPrice
    ensures r.bidVolume == s.bidVolume && r.askVolume == s.askVolume
    ensures r.volume == s.volume && r.turnover == s.turnover
    ensures r.VOI == r.bidCV - r.askCV
    ensures r.OIR == ((s.bidVolume - s.askVolume) / (s.bidVolume + s.askVolume)) / s.spread
    ensures prev.None? ==>
      && r.dBid == 0.0 && r.dAsk == 0.0 && r.bidCV == 0.0 && r.askCV == 0.0
      && r.dVol == 0.0 && r.dTO == 0.0 && r.avgTrade == s.midPrice
      && r.MPB == (s.midPrice - s.midPrice) / s.spread
    ensures prev.Some? ==>
      var p := prev.value;
      && r.dBid == s.bid - p.bid && r.dAsk == s.ask - p.ask
      && r.bidCV == (if r.dBid == 0.0 then s.bidVolume - p.bidVolume else s.bidVolume)
      && r.askCV == (if r.dAsk == 0.0 then s.askVolume - p.askVolume else s.askVolume)
      && (if s.volume > p.volume then r.dVol == s.volume - p.volume else r.dVol == p.dVol)
      && (if s.turnover > p.turnover then r.dTO == s.turnover - p.turnover else r.dTO == p.dTO)
      && (p.volume == s.volume ==> r.avgTrade == p.avgTrade)
      && (p.volume != s.volume ==> r.dVol != 0.0 && r.avgTrade == r.dTO / r.dVol / 300.0)
      && r.MPB == (r.avgTrade - (s.midPrice + p.midPrice) / 2.0) / s.spread
    ensures prev.Some? && prev.value.dVol >= 0.0 ==> r.dVol >= 0.0
    ensures prev.Some? && prev.value.dTO >= 0.0 ==> r.dTO >= 0.0
  {
    var s1 := SetDPrice(s, prev);
    var s2 := SetCV(s1, prev);
    var s3 := SetDVol(s2, prev);
    var s4 := SetDTO(s3, prev);
    var s5 := SetAvgTrade(s4, prev);
    var s6 := SetMPB(s5, prev);
    var s7 := SetOIR(s6);
    SetVOI(s7)
  }

  // ---------------------------------------------------------------------------------------------
  // The label: `_rollingMeanMinusCurrentMidPrice`.

  /** Entry `k` of the label while `k + delay` is inside the buffer: mean of the next `delay` mid-prices (from `k` on) minus the mid-price at `k`. */
  function ForwardDrift(mids: seq<real>, k: nat, delay: nat): real
    requires delay > 0 && k + delay <= |mids|
  {
    Sum(mids[k..k + delay]) / (delay as real) - mids[k]
  }

  /** The number of leading entries for which the drift is computed. */
  function Computed(len: nat, delay: nat): nat
  {
    if len > delay then len - delay else 0
  }

  /**
   * The rolling series: one entry per record; past the last computable entry it repeats the last
   * computed value (`lastValid`), or 0 when none was computed.
   */
  function Rolling(mids: seq<real>, delay: nat): (r: seq<real>)
    requires delay > 0
    ensures |r| == |mids|
    ensures forall k :: 0 <= k < |mids| && k + delay < |mids| ==> r[k] == ForwardDrift(mids, k, delay)
  {
    seq(|mids|, k requires 0 <= k < |mids| => LastValid(mids, delay, k + 1))
  }

  /** The value of `lastValid` once the first `n` records have been visited. */
  function LastValid(mids: seq<real>, delay: nat, n: nat): real
    requires delay > 0
  {
    var m := if n < Computed(|mids|, delay) then n else Computed(|mids|, delay);
    if m > 0 then ForwardDrift(mids, m - 1, delay) else 0.0
  }

  /** Visiting record `key` replaces `lastValid` by its drift exactly when that drift is computed. */
  lemma LastValidStep(mids: seq<real>, delay: nat, key: nat)
    requires delay > 0 && key < |mids|
    ensures LastValid(mids, delay, key + 1)
      == if key + delay < |mids| then ForwardDrift(mids, key, delay) else LastValid(mids, delay, key)
  {
  }

  // ---------------------------------------------------------------------------------------------
  // `buildLinearData`

  /** A feature series with `lags > 0`: zero-padded, windowed and trimmed. */
  function Lagged(col: seq<real>, lags: nat, delay: nat, recordSize: nat): seq<real>
  {
    JsSlice(Zeros(lags) + JsSlice(col, lags, recordSize - lags), lags, recordSize - delay)
  }

  /** The label series with `delay > 0`: the rolling series, zero-padded and trimmed. */
  function Label(rolling: seq<real>, lags: nat, delay: nat, recordSize: nat): seq<real>
  {
    JsSlice(rolling + Zeros(delay), lags, recordSize - delay)
  }

  /**
   * The series `buildLinearData` returns for a buffer: four empty series unless the buffer
   * holds exactly `recordSize` records; an empty label when `delay` is 0; the raw per-record
   * signals as features when `lags` is 0.
   */
  function LinearDataOf(records: seq<Snapshot>, recordSize: nat, lags: nat, delay: nat): (d: LinearData)
    ensures |records| != recordSize ==> d == LinearData([], [], [], [])
    ensures |records| == recordSize && delay == 0 ==> d.dMid == []
    ensures |records| == recordSize && lags == 0 ==>
      d.VOI == Column(records, VOIField) && d.OIR == Column(records, OIRField) && d.MPB == Column(records, MPBField)
  {
    if |records| != recordSize then LinearData([], [], [], [])
    else
      var dMid := if delay > 0 then Label(Rolling(Column(records, MidPriceField), delay), lags, delay, recordSize) else [];
      var voi, oir, mpb := Column(records, VOIField), Column(records, OIRField), Column(records, MPBField);
      if lags > 0 then
        LinearData(Lagged(voi, lags, delay, recordSize), Lagged(oir, lags, delay, recordSize),
                   Lagged(mpb, lags, delay, recordSize), dMid)
      else LinearData(voi, oir, mpb, dMid)
  }

  lemma {:induction false} LaggedAt(col: seq<real>, lags: nat, delay: nat, recordSize: nat, j: nat)
    requires |col| == recordSize && 0 < lags <= delay && lags + delay <= recordSize
    requires j < recordSize - lags - delay
    ensures |Lagged(col, lags, delay, recordSize)| == recordSize - lags - delay
    ensures Lagged(col, lags, delay, recordSize)[j] == col[lags + j]
  {
    var inner := JsSlice(col, lags, recordSize - lags);
    assert inner == col[lags..recordSize - lags];
    var padded := Zeros(lags) + inner;
    assert Lagged(col, lags, delay, recordSize) == padded[lags..recordSize - delay];
    assert padded[lags + j] == inner[j];
  }

  lemma {:induction false} LabelAt(mids: seq<real>, lags: nat, delay: nat, recordSize: nat, j: nat)
    requires |mids| == recordSize && 0 < lags <= delay && lags + delay <= recordSize
    requires j < recordSize - lags - delay
    ensures |Label(Rolling(mids, delay), lags, delay, recordSize)| == recordSize - lags - delay
    ensures Label(Rolling(mids, delay), lags, delay, recordSize)[j] == ForwardDrift(mids, lags + j, delay)
  {
    var rolling := Rolling(mids, delay);
    var padded := rolling + Zeros(delay);
    assert Label(rolling, lags, delay, recordSize) == padded[lags..recordSize - delay];
    assert padded[lags + j] == rolling[lags + j];
  }

  lemma {:induction false} FeatureAligned(records: seq<Snapshot>, f: Field, lags: nat, delay: nat)
    requires 0 < lags <= delay && lags + delay <= |records|
    ensures |Lagged(Column(records, f), lags, delay, |records|)| == |records| - lags - delay
    ensures forall j :: 0 <= j < |records| - lags - delay ==>
      Lagged(Column(records, f), lags, delay, |records|)[j] == Get(records[lags + j], f)
  {
    var col := Column(records, f);
    if lags + delay < |records| {
      LaggedAt(col, lags, delay, |records|, 0);
    } else {
      assert |Lagged(col, lags, delay, |records|)| == 0;
    }
    forall j | 0 <= j < |records| - lags - delay
      ensures Lagged(col, lags, delay, |records|)[j] == Get(records[lags + j], f)
    {
      LaggedAt(col, lags, delay, |records|, j);
    }
  }

  lemma {:induction false} LabelAligned(records: seq<Snapshot>, lags: nat, delay: nat)
    requires 0 < lags <= delay && lags + delay <= |records|
    ensures var mids := Column(records, MidPriceField);
      && |Label(Rolling(mids, delay), lags, delay, |records|)| == |records| - lags - delay
      && forall j :: 0 <= j < |records| - lags - delay ==>
           Label(Rolling(mids, delay), lags, delay, |records|)[j]
             == Sum(mids[lags + j..lags + j + delay]) / (delay as real) - records[lags + j].midPrice
  {
    var mids := Column(records, MidPriceField);
    if lags + delay < |records| {
      LabelAt(mids, lags, delay, |records|, 0);
    } else {
      assert |Label(Rolling(mids, delay), lags, delay, |records|)| == 0;
    }
    forall j | 0 <= j < |records| - lags - delay
      ensures Label(Rolling(mids, delay), lags, delay, |records|)[j]
                == Sum(mids[lags + j..lags + j + delay]) / (delay as real) - records[lags + j].midPrice
    {
      LabelAt(mids, lags, delay, |records|, j);
      assert mids[lags + j] == records[lags + j].midPrice;
    }
  }

  /** With a full buffer and `lags > 0`, `delay > 0` the four series are the lagged columns and the label. */
  lemma LinearDataOfFull(records: seq<Snapshot>, lags: nat, delay: nat)
    requires 0 < lags && 0 < delay
    ensures LinearDataOf(records, |records|, lags, delay)
      == LinearData(Lagged(Column(records, VOIField), lags, delay, |records|),
                    Lagged(Column(records, OIRField), lags, delay, |records|),
                    Lagged(Column(records, MPBField), lags, delay, |records|),
                    Label(Rolling(Column(records, MidPriceField), delay), lags, delay, |records|))
  {
  }

  /**
   * With a full buffer and `0 < lags <= delay`, all four series have `recordSize - lags - delay`
   * entries and entry `j` of each comes from record `lags + j`: its three signals, and as label
   * the mean mid-price of records `lags + j .. lags + j + delay - 1` minus its own mid-price.
   */
  lemma {:induction false} LinearDataAligned(records: seq<Snapshot>, recordSize: nat, lags: nat, delay: nat)
    requires |records| == recordSize && 0 < lags <= delay && lags + delay <= recordSize
    ensures var d := LinearDataOf(records, recordSize, lags, delay);
      && |d.VOI| == |d.OIR| == |d.MPB| == |d.dMid| == recordSize - lags - delay
      && (forall j :: 0 <= j < recordSize - lags - delay ==> d.VOI[j] == Get(records[lags + j], VOIField))
      && (forall j :: 0 <= j < recordSize - lags - delay ==> d.OIR[j] == Get(records[lags + j], OIRField))
      && (forall j :: 0 <= j < recordSize - lags - delay ==> d.MPB[j] == Get(records[lags + j], MPBField))
      && (forall j :: 0 <= j < recordSize - lags - delay ==>
            d.dMid[j] == Sum(Column(records, MidPriceField)[lags + j..lags + j + delay]) / (delay as real)
                         - records[lags + j].midPrice)
  {
    LinearDataOfFull(records, lags, delay);
    FeatureAligned(records, VOIField, lags, delay);
    FeatureAligned(records, OIRField, lags, delay);
    FeatureAligned(records, MPBField, lags, delay);
    LabelAligned(records, lags, delay);
  }

  // ---------------------------------------------------------------------------------------------
  // `_linearRegression`

  /** The mean of a non-empty series. */
  function Mean(x: seq<real>): real
    requires |x| > 0
  {
    MeanOf(Sum(x), |x| as real)
  }

  /** A mean over a running sum `s` and a count `n`. */
  function MeanOf(s: real, n: real): real
    requires n != 0.0
  {
    s / n
  }

  /** The mean of a series is the mean over its running sum. */
  lemma MeanCongruent(x: seq<real>, n: real, s: real)
    requires |x| > 0 && n == |x| as real && s == Sum(x)
    ensures MeanOf(s, n) == Mean(x)
  {
  }

  /** N times the variance, over the count `n`, the sum `sx` and the sum of squares `sxx`. */
  function SpreadOf(n: real, sx: real, sxx: real): real
    requires n != 0.0
  {
    sxx - sx * sx / n
  }

  /** The least-squares slope over the count and the running sums of the regression loop. */
  function SlopeOf(n: real, sx: real, sy: real, sxy: real, sxx: real): real
    requires n != 0.0 && SpreadOf(n, sx, sxx) != 0.0
  {
    (sxy - sx * sy / n) / SpreadOf(n, sx, sxx)
  }

  /** The denominator of the simple-regression slope: N times the variance of `x`. */
  function Spread(x: seq<real>): real
    requires |x| > 0
  {
    SpreadOf(|x| as real, Sum(x), SumProducts(x, x))
  }

  /** The simple (one-feature) least-squares slope of `y` on `x`. */
  function Slope(x: seq<real>, y: seq<real>): real
    requires |x| == |y| > 0 && Spread(x) != 0.0
  {
    SlopeOf(|x| as real, Sum(x), Sum(y), SumProducts(x, y), SumProducts(x, x))
  }

  /** The series have one common, nonzero length and no feature is constant. */
  predicate Fittable(d: LinearData)
  {
    && |d.VOI| > 0 && |d.OIR| == |d.VOI| && |d.MPB| == |d.VOI| && |d.dMid| == |d.VOI|
    && Spread(d.VOI) != 0.0 && Spread(d.OIR) != 0.0 && Spread(d.MPB) != 0.0
  }

  /** One more element extends both running sums by that element's terms. */
  lemma SumsExtend(x: seq<real>, y: seq<real>, i: nat)
    requires |x| == |y| && i < |x|
    ensures Sum(x[..i + 1]) == Sum(x[..i]) + x[i]
    ensures SumProducts(x[..i + 1], y[..i + 1]) == SumProducts(x[..i], y[..i]) + x[i] * y[i]
  {
    assert x[..i + 1][..i] == x[..i];
    assert y[..i + 1][..i] == y[..i];
  }

  /**
   * The fit: each coefficient is the simple-regression slope of the label on that feature alone
   * (the features' cross-correlation is ignored), and the intercept puts the model through the
   * point of means.
   */
  method LinearRegression(data: LinearData) returns (model: LinearModel)
    requires Fittable(data)
    ensures model.voiCoeff == Slope(data.VOI, data.dMid)
    ensures model.oirCoeff == Slope(data.OIR, data.dMid)
    ensures model.mpbCoeff == Slope(data.MPB, data.dMid)
    ensures model.b + model.voiCoeff * Mean(data.VOI) + model.oirCoeff * Mean(data.OIR)
            + model.mpbCoeff * Mean(data.MPB) == Mean(data.dMid)
  {
    var sumX1, sumX2, sumX3, sumY := 0.0, 0.0, 0.0, 0.0;
    var sumX1Y, sumX2Y, sumX3Y := 0.0, 0.0, 0.0;
    var sumX1sq, sumX2sq, sumX3sq := 0.0, 0.0, 0.0;
    var n := |data.VOI|;
    var x1, x2, x3, y := data.VOI, data.OIR, data.MPB, data.dMid;
    for i := 0 to n
      invariant sumX1 == Sum(x1[..i]) && sumX2 == Sum(x2[..i]) && sumX3 == Sum(x3[..i])
      invariant sumY == Sum(y[..i])
      invariant sumX1Y == SumProducts(x1[..i], y[..i])
      invariant sumX2Y == SumProducts(x2[..i], y[..i])
      invariant sumX3Y == SumProducts(x3[..i], y[..i])
      invariant sumX1sq == SumProducts(x1[..i], x1[..i])
      invariant sumX2sq == SumProducts(x2[..i], x2[..i])
      invariant sumX3sq == SumProducts(x3[..i], x3[..i])
    {
      SumsExtend(x1, y, i);
      SumsExtend(x2, y, i);
      SumsExtend(x3, y, i);
      SumsExtend(y, y, i);
      SumsExtend(x1, x1, i);
      SumsExtend(x2, x2, i);
      SumsExtend(x3, x3, i);
      sumX1 := sumX1 + x1[i];
      sumX2 := sumX2 + x2[i];
      sumX3 := sumX3 + x3[i];
      sumY := sumY + y[i];
      sumX1Y := sumX1Y + x1[i] * y[i];
      sumX2Y := sumX2Y + x2[i] * y[i];
      sumX3Y := sumX3Y + x3[i] * y[i];
      sumX1sq := sumX1sq + x1[i] * x1[i];
      sumX2sq := sumX2sq + x2[i] * x2[i];
      sumX3sq := sumX3sq + x3[i] * x3[i];
    }
    assert x1[..n] == x1 && x2[..n] == x2 && x3[..n] == x3 && y[..n] == y;
    FitOfSeries(data);
    model := Fit(n as real, sumX1, sumX2, sumX3, sumY, sumX1Y, sumX2Y, sumX3Y, sumX1sq, sumX2sq, sumX3sq);
  }

  /**
   * The coefficient lines of the regression over the count and the running sums: one slope per
   * feature, then the intercept.
   */
  function Fit(n: real, sumX1: real, sumX2: real, sumX3: real, sumY: real, sumX1Y: real, sumX2Y: real,
               sumX3Y: real, sumX1sq: real, sumX2sq: real, sumX3sq: real): LinearModel
    requires n != 0.0
    requires SpreadOf(n, sumX1, sumX1sq) != 0.0 && SpreadOf(n, sumX2, sumX2sq) != 0.0 && SpreadOf(n, sumX3, sumX3sq) != 0.0
  {
    var voiCoeff := (sumX1Y - sumX1 * sumY / n) / (sumX1sq - sumX1 * sumX1 / n);
    var oirCoeff := (sumX2Y - sumX2 * sumY / n) / (sumX2sq - sumX2 * sumX2 / n);
    var mpbCoeff := (sumX3Y - sumX3 * sumY / n) / (sumX3sq - sumX3 * sumX3 / n);
    var b := (sumY / n) - ((voiCoeff * sumX1) / n) - ((oirCoeff * sumX2) / n) - ((mpbCoeff * sumX3) / n);
    LinearModel(b, oirCoeff, voiCoeff, mpbCoeff)
  }

  /** `Fit` over the sums of the series gives each feature's slope and a line through the means. */
  lemma FitOfSeries(data: LinearData)
    requires Fittable(data)
    ensures var n, x1, x2, x3, y := |data.VOI| as real, data.VOI, data.OIR, data.MPB, data.dMid;
      && SpreadOf(n, Sum(x1), SumProducts(x1, x1)) != 0.0
      && SpreadOf(n, Sum(x2), SumProducts(x2, x2)) != 0.0
      && SpreadOf(n, Sum(x3), SumProducts(x3, x3)) != 0.0
      && var model := Fit(n, Sum(x1), Sum(x2), Sum(x3), Sum(y), SumProducts(x1, y), SumProducts(x2, y),
                          SumProducts(x3, y), SumProducts(x1, x1), SumProducts(x2, x2), SumProducts(x3, x3));
         && model.voiCoeff == Slope(x1, y) && model.oirCoeff == Slope(x2, y) && model.mpbCoeff == Slope(x3, y)
         && model.b + model.voiCoeff * Mean(x1) + model.oirCoeff * Mean(x2) + model.mpbCoeff * Mean(x3) == Mean(y)
  {
    var n, x1, x2, x3, y := |data.VOI| as real, data.VOI, data.OIR, data.MPB, data.dMid;
    SlopeCongruent(x1, y, n, Sum(x1), Sum(y), SumProducts(x1, y), SumProducts(x1, x1));
    SlopeCongruent(x2, y, n, Sum(x2), Sum(y), SumProducts(x2, y), SumProducts(x2, x2));
    SlopeCongruent(x3, y, n, Sum(x3), Sum(y), SumProducts(x3, y), SumProducts(x3, x3));
    FitOfSums(n, Sum(x1), Sum(x2), Sum(x3), Sum(y), SumProducts(x1, y), SumProducts(x2, y),
              SumProducts(x3, y), SumProducts(x1, x1), SumProducts(x2, x2), SumProducts(x3, x3));
    MeanCongruent(x1, n, Sum(x1));
    MeanCongruent(x2, n, Sum(x2));
    MeanCongruent(x3, n, Sum(x3));
    MeanCongruent(y, n, Sum(y));
  }

  /** `Fit` over plain sums: the three slopes, and a line through the means. */
  lemma FitOfSums(n: real, sumX1: real, sumX2: real, sumX3: real, sumY: real, sumX1Y: real, sumX2Y: real,
                  sumX3Y: real, sumX1sq: real, sumX2sq: real, sumX3sq: real)
    requires n != 0.0
    requires SpreadOf(n, sumX1, sumX1sq) != 0.0 && SpreadOf(n, sumX2, sumX2sq) != 0.0 && SpreadOf(n, sumX3, sumX3sq) != 0.0
    ensures var model := Fit(n, sumX1, sumX2, sumX3, sumY, sumX1Y, sumX2Y, sumX3Y, sumX1sq, sumX2sq, sumX3sq);
      && model.voiCoeff == SlopeOf(n, sumX1, sumY, sumX1Y, sumX1sq)
      && model.oirCoeff == SlopeOf(n, sumX2, sumY, sumX2Y, sumX2sq)
      && model.mpbCoeff == SlopeOf(n, sumX3, sumY, sumX3Y, sumX3sq)
      && model.b + model.voiCoeff * MeanOf(sumX1, n) + model.oirCoeff * MeanOf(sumX2, n)
         + model.mpbCoeff * MeanOf(sumX3, n) == MeanOf(sumY, n)
  {
    var model := Fit(n, sumX1, sumX2, sumX3, sumY, sumX1Y, sumX2Y, sumX3Y, sumX1sq, sumX2sq, sumX3sq);
    InterceptThroughMeans(model.b, model.voiCoeff, model.oirCoeff, model.mpbCoeff, sumX1, sumX2, sumX3, sumY, n);
  }

  /** The slope written over the four running sums, as the loop's result computes it. */
  lemma SlopeFromSums(x: seq<real>, y: seq<real>, n: real, sx: real, sy: real, sxy: real, sxx: real)
    requires |x| == |y| > 0 && Spread(x) != 0.0 && n == |x| as real
    requires sx == Sum(x) && sy == Sum(y) && sxy == SumProducts(x, y) && sxx == SumProducts(x, x)
    ensures sxx - sx * sx / n != 0.0
    ensures (sxy - sx * sy / n) / (sxx - sx * sx / n) == Slope(x, y)
  {
    SlopeCongruent(x, y, n, sx, sy, sxy, sxx);
    SlopeUnfold(n, sx, sy, sxy, sxx);
  }

  /** The slope of two series is the slope over their sums. */
  lemma SlopeCongruent(x: seq<real>, y: seq<real>, n: real, sx: real, sy: real, sxy: real, sxx: real)
    requires |x| == |y| > 0 && Spread(x) != 0.0 && n == |x| as real
    requires sx == Sum(x) && sy == Sum(y) && sxy == SumProducts(x, y) && sxx == SumProducts(x, x)
    ensures SpreadOf(n, sx, sxx) != 0.0
    ensures SlopeOf(n, sx, sy, sxy, sxx) == Slope(x, y)
  {
  }

  /** `SlopeOf` written out, as the regression's coefficient lines compute it. */
  lemma SlopeUnfold(n: real, sx: real, sy: real, sxy: real, sxx: real)
    requires n != 0.0 && SpreadOf(n, sx, sxx) != 0.0
    ensures sxx - sx * sx / n != 0.0
    ensures (sxy - sx * sy / n) / (sxx - sx * sx / n) == SlopeOf(n, sx, sy, sxy, sxx)
  {
  }

  lemma InterceptThroughMeans(b: real, c1: real, c2: real, c3: real, s1: real, s2: real, s3: real, sy: real, n: real)
    requires n != 0.0
    requires b == sy / n - (c1 * s1) / n - (c2 * s2) / n - (c3 * s3) / n
    ensures b + c1 * MeanOf(s1, n) + c2 * MeanOf(s2, n) + c3 * MeanOf(s3, n) == MeanOf(sy, n)
  {
    assert (c1 * s1) / n == c1 * (s1 / n);
    assert (c2 * s2) / n == c2 * (s2 / n);
    assert (c3 * s3) / n == c3 * (s3 / n);
  }

  /** Summing a line `a + c * x` over a series. */
  lemma {:induction false} SumOfLine(x: seq<real>, y: seq<real>, a: real, c: real)
    requires |x| == |y|
    requires forall i :: 0 <= i < |x| ==> y[i] == a + c * x[i]
    ensures Sum(y) == a * (|x| as real) + c * Sum(x)
  {
    if |x| > 0 {
      var k := |x| - 1;
      SumOfLine(x[..k], y[..k], a, c);
      assert Sum(y) == Sum(y[..k]) + y[k];
      assert Sum(x) == Sum(x[..k]) + x[k];
      assert a * (|x| as real) == a * (k as real) + a;
      assert c * Sum(x) == c * Sum(x[..k]) + c * x[k];
    }
  }

  /** `n` copies of `a`. */
  function Constant(n: nat, a: real): (r: seq<real>)
    ensures |r| == n && forall i :: 0 <= i < n ==> r[i] == a
  {
    seq(n, i => a)
  }

  /** `x` scaled by `c`. */
  function Scaled(x: seq<real>, c: real): (r: seq<real>)
    ensures |r| == |x| && forall i :: 0 <= i < |x| ==> r[i] == c * x[i]
  {
    seq(|x|, i requires 0 <= i < |x| => c * x[i])
  }

  /** Products with a constant series sum to the constant times the sum. */
  lemma {:induction false} ProductsWithConstant(x: seq<real>, y: seq<real>, a: real)
    requires |x| == |y|
    requires forall i :: 0 <= i < |y| ==> y[i] == a
    ensures SumProducts(x, y) == a * Sum(x)
  {
    if |x| > 0 {
      var k := |x| - 1;
      ProductsWithConstant(x[..k], y[..k], a);
      assert a * Sum(x) == a * Sum(x[..k]) + a * x[k];
    }
  }

  /** Products with a scaled copy of the series sum to the scale times the sum of squares. */
  lemma {:induction false} ProductsWithScaled(x: seq<real>, y: seq<real>, c: real)
    requires |x| == |y|
    requires forall i :: 0 <= i < |y| ==> y[i] == c * x[i]
    ensures SumProducts(x, y) == c * SumProducts(x, x)
  {
    if |x| > 0 {
      var k := |x| - 1;
      ProductsWithScaled(x[..k], y[..k], c);
      ScaledStep(SumProducts(x[..k], y[..k]), SumProducts(x[..k], x[..k]), x[k], y[k], c, SumProducts(x, y), SumProducts(x, x));
    }
  }

  /** One step of `ProductsWithScaled`, over plain numbers: `p`, `q` extended to `sp`, `sq`. */
  lemma ScaledStep(p: real, q: real, xk: real, yk: real, c: real, sp: real, sq: real)
    requires p == c * q && yk == c * xk && sp == p + xk * yk && sq == q + xk * xk
    ensures sp == c * sq
  {
    assert xk * yk == c * (xk * xk);
  }

  /** Sums of products distribute over a sum of series. */
  lemma {:induction false} ProductsAdd(x: seq<real>, y: seq<real>, u: seq<real>, v: seq<real>)
    requires |x| == |y| == |u| == |v|
    requires forall i :: 0 <= i < |y| ==> y[i] == u[i] + v[i]
    ensures SumProducts(x, y) == SumProducts(x, u) + SumProducts(x, v)
  {
    if |x| > 0 {
      var k := |x| - 1;
      ProductsAdd(x[..k], y[..k], u[..k], v[..k]);
      assert x[k] * y[k] == x[k] * u[k] + x[k] * v[k];
    }
  }

  /** Summing the products of a series with a line `a + c * x` in it. */
  lemma SumProductsOfLine(x: seq<real>, y: seq<real>, a: real, c: real)
    requires |x| == |y|
    requires forall i :: 0 <= i < |x| ==> y[i] == a + c * x[i]
    ensures SumProducts(x, y) == a * Sum(x) + c * SumProducts(x, x)
  {
    ProductsAdd(x, y, Constant(|x|, a), Scaled(x, c));
    ProductsWithConstant(x, Constant(|x|, a), a);
    ProductsWithScaled(x, Scaled(x, c), c);
  }

  /** For sums of a line `a + c * x`, the slope formula gives back `c`. */
  lemma LineSlope(sx: real, sxx: real, sy: real, sxy: real, n: real, a: real, c: real)
    requires n != 0.0 && sxx - sx * sx / n != 0.0
    requires sy == a * n + c * sx && sxy == a * sx + c * sxx
    ensures (sxy - sx * sy / n) / (sxx - sx * sx / n) == c
  {
    assert sx * sy == a * n * sx + c * (sx * sx);
    assert sx * sy / n == a * sx + c * (sx * sx) / n;
    assert sxy - sx * sy / n == c * (sxx - sx * sx / n);
  }

  /** When the label is an exact line in one feature, that feature's slope recovers the line's slope. */
  lemma SlopeOfExactLine(x: seq<real>, y: seq<real>, a: real, c: real)
    requires |x| == |y| > 0 && Spread(x) != 0.0
    requires forall i :: 0 <= i < |x| ==> y[i] == a + c * x[i]
    ensures Slope(x, y) == c
  {
    var n := |x| as real;
    var sx, sy, sxy, sxx := Sum(x), Sum(y), SumProducts(x, y), SumProducts(x, x);
    assert sy == a * n + c * sx && sxy == a * sx + c * sxx by {
      SumOfLine(x, y, a, c);
      SumProductsOfLine(x, y, a, c);
    }
    assert sxx - sx * sx / n != 0.0 && (sxy - sx * sy / n) / (sxx - sx * sx / n) == Slope(x, y) by {
      SlopeFromSums(x, y, n, sx, sy, sxy, sxx);
    }
    LineSlope(sx, sxx, sy, sxy, n, a, c);
  }

  // ---------------------------------------------------------------------------------------------
  // The buffer

  /** How many of `n` records the shift-while loop drops. */
  function Evicted(n: nat, recordSize: nat): nat
  {
    if n > recordSize then n - recordSize else 0
  }

  class DataStore {
    const recordSize: nat
    const delay: nat
    const lags: nat
    var records: seq<Snapshot>
    var msgCount: nat
    var volume: real
    var turnover: real
    var processStarted: bool
    /** The trade messages since the accumulators were last reset. */
    ghost var batch: seq<TradeMsg>

    ghost predicate Valid()
      reads this
    {
      && msgCount == |batch|
      && volume == SizeSum(batch) && turnover == NotionalSum(batch)
      && (recordSize > 0 ==> msgCount <= recordSize)
      && |records| <= recordSize + 1
      && forall i :: 0 <= i < |records| ==> records[i].dVol >= 0.0 && records[i].dTO >= 0.0
    }

    constructor (recordSize: nat, delay: nat, lags: nat)
      ensures Valid()
      ensures this.recordSize == recordSize && this.delay == delay && this.lags == lags
      ensures records == [] && msgCount == 0 && volume == 0.0 && turnover == 0.0 && !processStarted
    {
      this.recordSize, this.delay, this.lags := recordSize, delay, lags;
      msgCount := 0;
      records := [];
      turnover, volume := 0.0, 0.0;
      processStarted := false;
      batch := [];
    }

    /** The getter `lastRecord`: the newest record, if any. */
    function LastRecord(): (r: Option<Snapshot>)
      reads this
      ensures r.Some? <==> |records| > 0
      ensures r.Some? ==> r.value == records[|records| - 1]
    {
      if |records| > 0 then Some(records[|records| - 1]) else None
    }

    /**
     * `_write`: one trade message. The accumulators restart from this message when the counter
     * was 0 or had reached `recordSize`, and otherwise add it; afterwards they are the size sum
     * and the notional sum of the messages since the last restart, and the counter is their number.
     */
    method Write(msg: TradeMsg)
      requires Valid()
      modifies this`msgCount, this`volume, this`turnover, this`processStarted, this`batch
      ensures Valid() && processStarted
      ensures old(msgCount) == 0 || old(msgCount) == recordSize ==> batch == [msg]
      ensures old(msgCount) != 0 && old(msgCount) != recordSize ==> batch == old(batch) + [msg]
      ensures msgCount == |batch| && volume == SizeSum(batch) && turnover == NotionalSum(batch)
      ensures recordSize > 0 ==> 1 <= msgCount <= recordSize
    {
      if msgCount == recordSize {
        msgCount := 0;
        batch := [];
      }
      if msgCount == 0 {
        turnover := msg.price * msg.size;
        volume := msg.size;
        batch := [msg];
        assert batch[..0] == [];
      } else {
        turnover := turnover + msg.price * msg.size;
        volume := volume + msg.size;
        batch := batch + [msg];
        assert batch[..|batch| - 1] == old(batch);
      }
      msgCount := msgCount + 1;
      if !processStarted {
        processStarted := true;
      }
    }

    /**
     * `buildSnapshot`: derives the new snapshot from the top of the book, the accumulators and
     * the record two back, drops the oldest records while more than `recordSize` are held, and
     * appends the snapshot, which becomes `lastRecord`. The buffer never exceeds `recordSize + 1`
     * records; once full it stays at that size and each call drops exactly the oldest record.
     */
    method BuildSnapshot(book: TopOfBook) returns (snapshot: Snapshot)
      requires Valid()
      requires Derivable(FromBook(book, volume, turnover), Previous(records))
      modifies this`records
      ensures Valid()
      ensures snapshot == Derive(FromBook(book, volume, turnover), Previous(old(records)))
      ensures records == old(records)[Evicted(|old(records)|, recordSize)..] + [snapshot]
      ensures LastRecord() == Some(snapshot)
      ensures |old(records)| >= recordSize ==> |records| == recordSize + 1
      ensures |old(records)| == recordSize + 1 ==> records == old(records)[1..] + [snapshot]
    {
      var prev := Previous(records);
      snapshot := FromBook(book, volume, turnover);
      snapshot := SetDPrice(snapshot, prev);
      snapshot := SetCV(snapshot, prev);
      snapshot := SetDVol(snapshot, prev);
      snapshot := SetDTO(snapshot, prev);
      snapshot := SetAvgTrade(snapshot, prev);
      snapshot := SetMPB(snapshot, prev);
      snapshot := SetOIR(snapshot);
      snapshot := SetVOI(snapshot);
      assert snapshot.dVol >= 0.0 && snapshot.dTO >= 0.0;
      TrimToSize();
      records := records + [snapshot];
    }

    /** The shift-while loop of `buildSnapshot`: drops the oldest records until at most `recordSize` remain. */
    method TrimToSize()
      requires Valid()
      modifies this`records
      ensures Valid() && |records| <= recordSize
      ensures records == old(records)[Evicted(|old(records)|, recordSize)..]
    {
      while |records| > recordSize
        invariant |records| <= |old(records)|
        invariant records == old(records)[|old(records)| - |records|..]
        invariant |old(records)| > recordSize ==> |records| >= recordSize
        invariant |old(records)| <= recordSize ==> records == old(records)
        invariant Valid()
      {
        records := records[1..];
      }
    }

    /** `_rollingMeanMinusCurrentMidPrice`: the map over the buffer that carries `lastValid`. */
    method RollingMeanMinusCurrentMidPrice() returns (r: seq<real>)
      requires delay > 0
      ensures r == Rolling(Column(records, MidPriceField), delay)
    {
      var mids := Column(records, MidPriceField);
      var lastValid := 0.0;
      r := [];
      for key := 0 to |records|
        invariant |r| == key
        invariant forall k :: 0 <= k < key ==> r[k] == LastValid(mids, delay, k + 1)
        invariant lastValid == LastValid(mids, delay, key)
      {
        LastValidStep(mids, delay, key);
        if key + delay < |records| {
          var current := Sum(mids[key..key + delay]) / (delay as real) - mids[key];
          assert current == ForwardDrift(mids, key, delay);
          lastValid := current;
        }
        assert lastValid == LastValid(mids, delay, key + 1);
        r := r + [lastValid];
      }
      assert forall k :: 0 <= k < |r| ==> r[k] == Rolling(mids, delay)[k];
    }

    /** `buildLinearData`: the aligned series of the current buffer. */
    method BuildLinearData() returns (data: LinearData)
      ensures data == LinearDataOf(records, recordSize, lags, delay)
    {
      data := LinearData([], [], [], []);
      if |records| == recordSize {
        var dMid: seq<real> := [];
        if delay > 0 {
          var rolling := RollingMeanMinusCurrentMidPrice();
          dMid := Label(rolling, lags, delay, recordSize);
        }
        var voi, oir, mpb := Column(records, VOIField), Column(records, OIRField), Column(records, MPBField);
        if lags > 0 {
          voi, oir, mpb := Lagged(voi, lags, delay, recordSize), Lagged(oir, lags, delay, recordSize),
                           Lagged(mpb, lags, delay, recordSize);
        }
        data := LinearData(voi, oir, mpb, dMid);
      }
    }
  }
}
