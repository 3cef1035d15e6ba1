/**
 * The trader listeners of index.ts: each event the trader emits about the bot's own orders is a
 * small transition on the manager. A listener that calls `process.exit` returns `Fatal` and
 * leaves the manager as it was. Persisting the executed trade is not part of this model.
 */
module TraderListeners {
  import opened Common
  import opened Managers

  /** ASCII `toLowerCase` of one character. */
  function LowerChar(c: char): (l: char)
    ensures 'A' <= c <= 'Z' ==> l as int == c as int + 32
    ensures !('A' <= c <= 'Z') ==> l == c
  {
    if 'A' <= c <= 'Z' then (c as int + 32) as char else c
  }

  /** ASCII `toLowerCase` of a string. */
  function Lower(s: string): (r: string)
    ensures |r| == |s| && forall i :: 0 <= i < |s| ==> r[i] == LowerChar(s[i])
  {
    seq(|s|, i requires 0 <= i < |s| => LowerChar(s[i]))
  }

  /** The cause that stops the bot: a non-empty message that lower-cases to "insufficient funds". */
  predicate InsufficientFunds(cause: Option<string>)
  {
    cause.Some? && cause.value != "" && Lower(cause.value) == "insufficient funds"
  }

  /** The check ignores case: "Insufficient Funds" stops the bot, "insufficient fund" does not. */
  lemma InsufficientFundsIgnoresCase()
    ensures InsufficientFunds(Some("Insufficient Funds"))
    ensures !InsufficientFunds(Some("insufficient fund"))
    ensures !InsufficientFunds(None)
  {
    assert Lower("Insufficient Funds") == "insufficient funds";
  }

  /** An upper-case cause stops the bot too. */
  lemma InsufficientFundsUpperCase()
    ensures InsufficientFunds(Some("INSUFFICIENT FUNDS"))
  {
    assert Lower("INSUFFICIENT FUNDS") == "insufficient funds";
  }

  /** trade-executed: raises the remaining size to the reported one, never lowers it. */
  method OnTradeExecuted(m: Manager, remainingSize: real)
    modifies m`remainingOrderSize
    ensures m.remainingOrderSize == if remainingSize > old(m.remainingOrderSize) then remainingSize else old(m.remainingOrderSize)
    ensures m.remainingOrderSize >= old(m.remainingOrderSize) && m.remainingOrderSize >= remainingSize
  {
    if remainingSize > m.remainingOrderSize {
      m.remainingOrderSize := remainingSize;
    }
  }

  /**
   * trade-finalized: a sell books the round trip's profit and closes the position; either side
   * clears the open-orders flag. Returns the running total a sell produced.
   */
  method OnTradeFinalized(m: Manager, side: Side, price: real) returns (cumulative: Option<real>)
    modifies m`cumLosses, m`position, m`previousPosition, m`openOrderPrice, m`openOrderSize
    modifies m`remainingOrderSize, m`activeRequest, m`openOrders
    ensures !m.openOrders
    ensures side == Buy ==> cumulative.None? && unchanged(m`cumLosses, m`position, m`previousPosition)
    ensures side == Buy ==> unchanged(m`openOrderPrice, m`openOrderSize, m`remainingOrderSize, m`activeRequest)
    ensures side == Sell ==>
      && m.cumLosses == old(m.cumLosses) + TradeProfit(old(m.openOrderPrice), old(m.OpenOrderSize()), old(m.remainingOrderSize), price)
      && cumulative == Some(m.cumLosses)
      && m.position == 0 && m.previousPosition == old(m.position)
      && m.openOrderPrice == 0.0 && m.openOrderSize == 0.0 && m.remainingOrderSize == 0.0 && m.activeRequest
    ensures BinaryPositions(old(m.position), old(m.previousPosition)) ==> BinaryPositions(m.position, m.previousPosition)
  {
    cumulative := None;
    if side == Sell {
      var total := m.CalculateLoss(price);
      cumulative := Some(total);
      m.ClosePosition();
    }
    m.openOrders := false;
  }

  /**
   * order-cancelled: after a partial fill the open size becomes the size read (the open price,
   * as written) less the remaining size; the open-orders flag is cleared and the position rolled
   * back.
   */
  method OnOrderCancelled(m: Manager)
    modifies m`openOrderSize, m`openOrders, m`position, m`previousPosition
    ensures old(m.remainingOrderSize) != 0.0 ==> m.openOrderSize == old(m.openOrderPrice) - old(m.remainingOrderSize)
    ensures old(m.remainingOrderSize) == 0.0 ==> m.openOrderSize == old(m.openOrderSize)
    ensures !m.openOrders
    ensures m.position == old(m.previousPosition) && m.previousPosition == old(m.position)
    ensures BinaryPositions(old(m.position), old(m.previousPosition)) ==> BinaryPositions(m.position, m.previousPosition)
  {
    if m.remainingOrderSize != 0.0 {
      m.openOrderSize := m.OpenOrderSize() - m.remainingOrderSize;
    }
    if m.openOrders {
      m.openOrders := false;
    }
    m.RollbackPosition();
  }

  /** The "gone rogue" condition: a buy while in a position, or a sell while out of one. */
  predicate Rogue(position: int, side: Side)
  {
    (position != 0 && side == Buy) || (position == 0 && side == Sell)
  }

  /**
   * order-placed: a rogue order stops the bot; otherwise, when in a position, the order's price
   * and size become the open price, open size and remaining size, and the open-orders flag is set.
   */
  method OnOrderPlaced(m: Manager, side: Side, price: real, size: real) returns (o: Outcome<()>)
    modifies m`openOrderPrice, m`openOrderSize, m`remainingOrderSize, m`openOrders
    ensures o.Fatal? <==> Rogue(old(m.position), side)
    ensures o.Fatal? ==> unchanged(m`openOrderPrice, m`openOrderSize, m`remainingOrderSize, m`openOrders)
    ensures o.Ok? ==> m.openOrders
    ensures o.Ok? && m.position != 0 ==>
      side == Sell && m.openOrderPrice == price && m.openOrderSize == size && m.remainingOrderSize == size
    ensures o.Ok? && m.position == 0 ==>
      side == Buy && unchanged(m`openOrderPrice, m`openOrderSize, m`remainingOrderSize)
  {
    if (m.position != 0 && side == Buy) || (m.position == 0 && side == Sell) {
      return Fatal;
    }
    if m.position != 0 {
      m.openOrderPrice := price;
      m.openOrderSize := size;
      m.remainingOrderSize := size;
    }
    m.openOrders := true;
    return Ok(());
  }

  /** The `cause` of a failed placement: an error object whose `message` may be missing. */
  datatype Cause = Cause(message: Option<string>)

  /** How the place-order-failed listener ends. */
  datatype FailureHandling =
    | Toggled   // the position was toggled and the flag cleared
    | Exited    // `process.exit` on insufficient funds
    | Threw     // reading `err.cause.message` threw, as the error carried no cause

  /**
   * place-order-failed: an error without a cause object throws when the log line reads
   * `err.cause.message`, before any update; insufficient funds stops the bot; any other failure
   * toggles the position between 0 and 1 through the setter and clears the open-orders flag.
   */
  method OnPlaceOrderFailed(m: Manager, cause: Option<Cause>) returns (o: FailureHandling)
    modifies m`position, m`previousPosition, m`openOrders
    ensures o == Threw <==> cause.None?
    ensures o == Exited <==> cause.Some? && InsufficientFunds(cause.value.message)
    ensures o != Toggled ==> unchanged(m`position, m`previousPosition, m`openOrders)
    ensures o == Toggled ==> m.previousPosition == old(m.position) && !m.openOrders
    ensures o == Toggled ==> m.position == (if old(m.position) != 0 then 0 else 1)
    ensures o == Toggled && BinaryPositions(old(m.position), old(m.previousPosition)) ==> BinaryPositions(m.position, m.previousPosition)
  {
    if cause.None? {
      return Threw;
    }
    var message := cause.value.message;
    if message.Some? && message.value != "" && Lower(message.value) == "insufficient funds" {
      return Exited;
    }
    m.SetPosition(if m.position != 0 then 0 else 1);
    m.openOrders := false;
    return Toggled;
  }
}
