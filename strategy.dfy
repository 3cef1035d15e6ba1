/**
 * The `LinearStrategy` of services/LinearStrategy.ts: smooths the linear model's prediction
 * (EFPC, the expected future price change), decides on each tick whether to move, open or close
 * an order, settles the exchange's answer to a placed order on the manager, and records the
 * mid-price change per snapshot. The trader, the order book and the database are not part of
 * this model: the book's best prices and the trader's open-order state are parameters, the
 * orders to send are returned as commands, and each promise continuation is its own method.
 */
module LinearStrategies {
  import opened Common
  import opened Snapshots
  import opened DataStores
  import opened Managers

  /** The best bid and best ask of the order book when the strategy reads it. */
  datatype Quote = Quote(bestBid: real, bestAsk: real)

  /** The side, price and size of a limit order the strategy submits. */
  datatype OrderRequest = OrderRequest(side: Side, price: real, size: real)

  /** What the strategy asks of the trader. */
  datatype Command =
    | CancelMyOrders             // `cancelOrders`
    | CancelThenReplace          // the move branch: cancel, then `ReplaceAfterCancel`
    | Place(order: OrderRequest) // `placeOrder`

  /**
   * The outcome of one tick: the commands in the order they are issued and, when a branch
   * commits to a position ahead of the exchange's answer, that position; or a fatal stop.
   */
  datatype Decision = Act(commands: seq<Command>, newPosition: Option<int>) | Halt

  /** What the strategy reads from the manager. */
  datatype ManagerView = ManagerView(
    position: int, activeRequest: bool, openOrderPrice: real,
    sizeRead: real,          // the `openOrderSize` getter
    remainingOrderSize: real, risk: real,
    usd: Option<real>)       // what `getBalance('USD')` would find

  /** The order the exchange reports back for a placed order. */
  datatype LiveOrder = LiveOrder(side: Side, price: real, size: real, status: string)

  /** The `type` column of a persisted order. */
  datatype OrderKind = OpenKind | CloseKind

  /** The order row persisted for an accepted order. */
  datatype OrderRecord = OrderRecord(side: Side, price: real, size: real, kind: OrderKind)

  /** The row `saveVOI` persists for a snapshot. */
  datatype VoiRecord = VoiRecord(voi: real, deltaPrice: real)

  // ---------------------------------------------------------------------------------------------
  // The prediction

  /** The model's raw prediction for a snapshot. */
  function Prediction(s: Snapshot, m: LinearModel): real
  {
    m.b + m.voiCoeff * s.VOI + m.oirCoeff * s.OIR + m.mpbCoeff * s.MPB
  }

  /** The smoothing step of `calculateEFPC`: the mean of the new prediction and the last value. */
  function Smoothed(prediction: real, last: real): (e: real)
    ensures prediction <= last ==> prediction <= e <= last
    ensures last <= prediction ==> last <= e <= prediction
    ensures e - last == (prediction - last) / 2.0
  {
    (prediction + last) / 2.0
  }

  // ---------------------------------------------------------------------------------------------
  // The decision of `strategyRunner`

  /** The size the open branch asks for: the risked share of the USD balance at the bid. */
  function BuySize(v: ManagerView, q: Quote): real
    requires v.usd.Some? && q.bestBid != 0.0
  {
    v.risk * v.usd.value / q.bestBid
  }

  /** The size the close branch asks for: the filled part when positive, else the size read. */
  function CloseSize(v: ManagerView): (size: real)
    ensures v.sizeRead - v.remainingOrderSize > 0.0 ==> size == v.sizeRead - v.remainingOrderSize
    ensures v.sizeRead - v.remainingOrderSize <= 0.0 ==> size == v.sizeRead
  {
    if v.sizeRead - v.remainingOrderSize > 0.0 then v.sizeRead - v.remainingOrderSize else v.sizeRead
  }

  /** The move guard: long, orders open, the signal still long, and the open price off the bid. */
  predicate MoveGuard(v: ManagerView, efpc: real, threshold: real, q: Quote, hasOpenOrders: bool)
  {
    v.position == 1 && hasOpenOrders && efpc >= threshold && v.openOrderPrice != q.bestBid
  }

  /** The open guard: out of the market, the signal long, and no balance request in flight. */
  predicate OpenGuard(v: ManagerView, efpc: real, threshold: real)
  {
    v.position == 0 && efpc >= threshold && !v.activeRequest
  }

  /** The close guard: long, the signal short, and no balance request in flight. */
  predicate CloseGuard(v: ManagerView, efpc: real, threshold: real)
  {
    v.position == 1 && efpc <= -threshold && !v.activeRequest
  }

  /**
   * One tick of `strategyRunner`. The move branch issues a cancel-and-replace. Then either the
   * open branch or the close branch runs: with orders open it only cancels; otherwise it places
   * a buy at the bid (when the size exceeds 0.001) or a sell at the ask (when the size is not 0),
   * committing to position 1 or 0. A missing USD balance in the open branch stops the process.
   */
  function Decide(v: ManagerView, efpc: real, threshold: real, q: Quote, hasOpenOrders: bool): (d: Decision)
    requires q.bestBid != 0.0
    ensures d.Halt? <==> OpenGuard(v, efpc, threshold) && !hasOpenOrders && v.usd.None?
    ensures d.Act? && d.newPosition == Some(1) <==>
      OpenGuard(v, efpc, threshold) && !hasOpenOrders && v.usd.Some? && BuySize(v, q) > 0.001
    ensures d.Act? && d.newPosition == Some(0) <==>
      CloseGuard(v, efpc, threshold) && !OpenGuard(v, efpc, threshold) && !hasOpenOrders && CloseSize(v) != 0.0
    ensures d.Act? ==> d.newPosition.None? || d.newPosition == Some(0) || d.newPosition == Some(1)
    ensures d.Act? && d.newPosition == Some(1) ==>
      d.commands == [Place(OrderRequest(Buy, q.bestBid, BuySize(v, q)))]
    ensures d.Act? && d.newPosition == Some(0) ==>
      exists pre :: pre <= [CancelThenReplace] && d.commands == pre + [Place(OrderRequest(Sell, q.bestAsk, CloseSize(v)))]
    ensures d.Act? && d.newPosition.None? ==> forall o :: Place(o) !in d.commands
    ensures d.Act? ==> (CancelThenReplace in d.commands <==> MoveGuard(v, efpc, threshold, q, hasOpenOrders))
    ensures d.Act? && CancelMyOrders in d.commands <==>
      hasOpenOrders && (OpenGuard(v, efpc, threshold) || CloseGuard(v, efpc, threshold))
  {
    var pre := if MoveGuard(v, efpc, threshold, q, hasOpenOrders) then [CancelThenReplace] else [];
    if OpenGuard(v, efpc, threshold) then
      if hasOpenOrders then Act(pre + [CancelMyOrders], None)
      else if v.usd.None? then Halt
      else if BuySize(v, q) > 0.001 then Act(pre + [Place(OrderRequest(Buy, q.bestBid, BuySize(v, q)))], Some(1))
      else Act(pre, None)
    else if CloseGuard(v, efpc, threshold) then
      if hasOpenOrders then Act(pre + [CancelMyOrders], None)
      else if CloseSize(v) == 0.0 then Act(pre, None)
      else Act(pre + [Place(OrderRequest(Sell, q.bestAsk, CloseSize(v)))], Some(0))
    else Act(pre, None)
  }

  /**
   * With a positive threshold a signal of 0 passes no guard: the tick issues nothing and commits
   * to nothing. Since the `EFPC` field the guards read stays 0, this is every tick.
   */
  lemma IdleAtZeroSignal(v: ManagerView, threshold: real, q: Quote, hasOpenOrders: bool)
    requires threshold > 0.0 && q.bestBid != 0.0
    ensures Decide(v, 0.0, threshold, q, hasOpenOrders) == Act([], None)
  {
  }

  /** The persisted order type: `close` for a sell, `open` for anything else. */
  function KindOf(side: Side): (k: OrderKind)
    ensures k == CloseKind <==> side == Sell
  {
    if side == Sell then CloseKind else OpenKind
  }

  /** Mid-price changes between consecutive snapshots, starting from `start`. */
  function Deltas(mids: seq<real>, start: real): (r: seq<real>)
    ensures |r| == |mids|
  {
    if |mids| == 0 then []
    else Deltas(mids[..|mids| - 1], start) + [mids[|mids| - 1] - (if |mids| == 1 then start else mids[|mids| - 2])]
  }

  /** The recorded changes add up to the last mid-price minus the starting one. */
  lemma {:induction false} DeltasTelescope(mids: seq<real>, start: real)
    requires |mids| > 0
    ensures Sum(Deltas(mids, start)) == mids[|mids| - 1] - start
  {
    var n := |mids| - 1;
    var r := Deltas(mids, start);
    assert r[..n] == Deltas(mids[..n], start);
    if n > 0 {
      DeltasTelescope(mids[..n], start);
    }
  }

  /** The manager state the strategy reads. */
  function ViewOf(m: Manager): ManagerView
    reads m
  {
    ManagerView(m.position, m.activeRequest, m.openOrderPrice, m.OpenOrderSize(),
                m.remainingOrderSize, m.riskTolerance, Lookup(m.accounts, "USD"))
  }

  class LinearStrategy {
    const manager: Manager
    const threshold: real
    /** The value every guard reads; nothing writes it after the constructor. */
    var efpc: real
    var lastEFPC: real
    var lastMidPrice: real
    /** The mid-prices of the snapshots passed to `saveVOI`, and the changes it recorded. */
    ghost var savedMids: seq<real>
    ghost var recorded: seq<real>

    /**
     * The guards' signal stays 0, and the recorded changes are the consecutive mid-price changes
     * from the initial 0, the last saved mid-price being `lastMidPrice`.
     */
    ghost predicate Valid()
      reads this
    {
      && efpc == 0.0
      && recorded == Deltas(savedMids, 0.0)
      && lastMidPrice == (if |savedMids| == 0 then 0.0 else savedMids[|savedMids| - 1])
    }

    constructor (manager: Manager, threshold: real)
      ensures Valid()
      ensures this.manager == manager && this.threshold == threshold
      ensures efpc == 0.0 && lastEFPC == 0.0 && lastMidPrice == 0.0
    {
      this.manager := manager;
      this.threshold := threshold;
      efpc := 0.0;
      lastEFPC := 0.0;
      lastMidPrice := 0.0;
      savedMids, recorded := [], [];
    }

    /**
     * `saveVOI`: the row for a snapshot holds its VOI and the mid-price change since the last call.
     * Over successive calls the recorded changes are `Deltas` of the saved mid-prices, so they add
     * up to the latest mid-price.
     */
    method SaveVOI(snapshot: Snapshot) returns (row: VoiRecord)
      requires Valid()
      modifies this`lastMidPrice, this`savedMids, this`recorded
      ensures Valid()
      ensures row == VoiRecord(snapshot.VOI, snapshot.midPrice - old(lastMidPrice))
      ensures lastMidPrice == snapshot.midPrice
      ensures savedMids == old(savedMids) + [snapshot.midPrice] && recorded == old(recorded) + [row.deltaPrice]
      ensures Sum(recorded) == lastMidPrice
    {
      row := VoiRecord(snapshot.VOI, snapshot.midPrice - lastMidPrice);
      lastMidPrice := snapshot.midPrice;
      savedMids := savedMids + [snapshot.midPrice];
      recorded := recorded + [row.deltaPrice];
      assert savedMids[..|savedMids| - 1] == old(savedMids);
      DeltasTelescope(savedMids, 0.0);
    }

    /** `calculateEFPC`: smooths the prediction into `lastEFPC` and returns it; `efpc` is left alone. */
    method CalculateEFPC(snapshot: Snapshot, model: LinearModel) returns (e: real)
      modifies this`lastEFPC
      ensures e == Smoothed(Prediction(snapshot, model), old(lastEFPC)) && lastEFPC == e
    {
      e := Prediction(snapshot, model);
      e := (e + lastEFPC) / 2.0;
      lastEFPC := e;
    }

    /**
     * `strategyRunner`: smooths the prediction, then acts as `Decide` says on the manager state
     * before the tick, writing the committed position through the setter (the previous position
     * becomes the old one).
     */
    method StrategyRunner(snapshot: Snapshot, model: LinearModel, q: Quote, hasOpenOrders: bool) returns (d: Decision)
      requires Valid() && q.bestBid != 0.0
      modifies this`lastEFPC, manager`position, manager`previousPosition
      ensures Valid()
      ensures lastEFPC == Smoothed(Prediction(snapshot, model), old(lastEFPC))
      ensures d == Decide(old(ViewOf(manager)), efpc, threshold, q, hasOpenOrders)
      ensures d.Act? && d.newPosition.Some? ==>
        manager.position == d.newPosition.value && manager.previousPosition == old(manager.position)
      ensures d.Halt? || d.newPosition.None? ==>
        manager.position == old(manager.position) && manager.previousPosition == old(manager.previousPosition)
      ensures threshold > 0.0 ==> d == Act([], None)
    {
      var _ := CalculateEFPC(snapshot, model);
      ghost var v := ViewOf(manager);
      var commands: seq<Command> := [];
      if manager.position == 1 && hasOpenOrders && efpc >= threshold && manager.openOrderPrice != q.bestBid {
        commands := [CancelThenReplace];
      }
      if manager.position == 0 && efpc >= threshold && !manager.activeRequest {
        if hasOpenOrders {
          return Act(commands + [CancelMyOrders], None);
        }
        var usd := manager.GetBalance("USD");
        LookupNone(manager.accounts, "USD");
        if usd.Fatal? {
          return Halt;
        }
        var size := manager.riskTolerance * usd.value / q.bestBid;
        assert size == BuySize(v, q);
        if size > 0.001 {
          manager.previousPosition := manager.position;
          manager.SetPosition(1);
          return Act(commands + [Place(OrderRequest(Buy, q.bestBid, size))], Some(1));
        }
        return Act(commands, None);
      } else if manager.position == 1 && efpc <= -threshold && !manager.activeRequest {
        if hasOpenOrders {
          return Act(commands + [CancelMyOrders], None);
        }
        var size := if manager.OpenOrderSize() - manager.remainingOrderSize > 0.0
          then manager.OpenOrderSize() - manager.remainingOrderSize else manager.OpenOrderSize();
        assert size == CloseSize(v);
        if size == 0.0 {
          return Act(commands, None);
        }
        manager.previousPosition := manager.position;
        manager.SetPosition(0);
        return Act(commands + [Place(OrderRequest(Sell, q.bestAsk, size))], Some(0));
      }
      return Act(commands, None);
    }

    /**
     * The move branch's continuation once the cancel settled: a buy one cent under the ask, sized
     * by the risked USD balance; a fatal stop when no USD balance is found.
     */
    method ReplaceAfterCancel(q: Quote) returns (o: Outcome<OrderRequest>)
      requires q.bestAsk - 0.01 != 0.0
      ensures o.Fatal? <==> Lookup(manager.accounts, "USD").None?
      ensures o.Ok? ==> o.value == OrderRequest(Buy, q.bestAsk - 0.01,
                                                manager.riskTolerance * Lookup(manager.accounts, "USD").value / (q.bestAsk - 0.01))
    {
      var price := q.bestAsk - 0.01;
      var usd := manager.GetBalance("USD");
      LookupNone(manager.accounts, "USD");
      if usd.Fatal? {
        return Fatal;
      }
      assert usd.value == Lookup(manager.accounts, "USD").value;
      var size := manager.riskTolerance * usd.value / price;
      return Ok(OrderRequest(Buy, price, size));
    }

    /** `isRejected`: a rejected order rolls the position back through the setter. */
    method IsRejected(order: LiveOrder) returns (rejected: bool)
      modifies manager`position, manager`previousPosition
      ensures rejected <==> order.status == "rejected"
      ensures rejected ==> manager.position == old(manager.previousPosition) && manager.previousPosition == old(manager.position)
      ensures !rejected ==> manager.position == old(manager.position) && manager.previousPosition == old(manager.previousPosition)
    {
      if order.status == "rejected" {
        manager.SetPosition(manager.previousPosition);
        return true;
      }
      return false;
    }

    /**
     * The continuation of `placeOrder`. No order (the call failed or yielded nothing): nothing
     * changes. A rejected order: two rollbacks, so the positions end as they were. An accepted
     * order: its price goes to the open price and (as written) to the remaining size, its size to
     * `openOrderSize`, one rollback swaps the positions, and the order row is produced.
     */
    method PlaceOrderSettled(order: Option<LiveOrder>) returns (row: Option<OrderRecord>)
      modifies manager`position, manager`previousPosition, manager`openOrderPrice
      modifies manager`remainingOrderSize, manager`openOrderSize
      ensures order.None? || order.value.status == "rejected" ==>
        row.None? && unchanged(manager`position, manager`previousPosition, manager`openOrderPrice)
        && unchanged(manager`remainingOrderSize, manager`openOrderSize)
      ensures order.Some? && order.value.status != "rejected" ==>
        && manager.openOrderPrice == order.value.price && manager.remainingOrderSize == order.value.price
        && manager.openOrderSize == order.value.size
        && manager.position == old(manager.previousPosition) && manager.previousPosition == old(manager.position)
        && row == Some(OrderRecord(order.value.side, order.value.price, order.value.size, KindOf(order.value.side)))
    {
      if order.None? {
        return None;
      }
      var o := order.value;
      var rejected := IsRejected(o);
      row := None;
      if !rejected {
        manager.openOrderPrice := o.price;
        manager.remainingOrderSize := o.price;
        manager.openOrderSize := o.size;
        row := Some(OrderRecord(o.side, o.price, o.size, if o.side == Sell then CloseKind else OpenKind));
      }
      manager.SetPosition(manager.previousPosition);
    }
  }
}
