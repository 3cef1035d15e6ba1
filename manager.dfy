/**
 * The `Manager` of services/Manager.ts: the bot's position (1 long, 0 out) with the previous
 * position the setter remembers, the fields that track the open order, the running profit,
 * and the account balances loaded from the exchange. The exchange call `loadBalances` is not
 * part of this model: its two continuations are the methods `BalancesSettled` and
 * `CheckCanShort`, and the balances it yields are their parameters.
 */
module Managers {
  import opened Common

  /** One currency entry of a profile's balances. */
  datatype Holding = Holding(currency: string, balance: real)

  /** The balances as loaded: profiles in iteration order, each with its currencies in key order. */
  type Accounts = seq<seq<Holding>>

  // ---------------------------------------------------------------------------------------------
  // `getProfile`: the nested for-in loop keeps overwriting its result, so the last match wins.

  /** The balance of the last entry for `currency` in one profile, if any. */
  function LastIn(holdings: seq<Holding>, currency: string): Option<real>
  {
    if |holdings| == 0 then None
    else if holdings[|holdings| - 1].currency == currency then Some(holdings[|holdings| - 1].balance)
    else LastIn(holdings[..|holdings| - 1], currency)
  }

  /** The balance of the last entry for `currency` over all profiles, in iteration order. */
  function Lookup(accounts: Accounts, currency: string): Option<real>
  {
    if |accounts| == 0 then None
    else
      var here := LastIn(accounts[|accounts| - 1], currency);
      if here.Some? then here else Lookup(accounts[..|accounts| - 1], currency)
  }

  /** Profile `p` holds `currency` at position `h`. */
  predicate Occurs(accounts: Accounts, currency: string, p: int, h: int)
  {
    0 <= p < |accounts| && 0 <= h < |accounts[p]| && accounts[p][h].currency == currency
  }

  /** Position `(p, h)` comes no later than `(q, k)` in iteration order. */
  predicate NotAfter(p: int, h: int, q: int, k: int)
  {
    p < q || (p == q && h <= k)
  }

  lemma {:induction false} LastInNone(holdings: seq<Holding>, currency: string)
    ensures LastIn(holdings, currency).None? <==> forall h :: 0 <= h < |holdings| ==> holdings[h].currency != currency
  {
    if |holdings| > 0 {
      var k := |holdings| - 1;
      LastInNone(holdings[..k], currency);
      assert forall h :: 0 <= h < k ==> holdings[..k][h] == holdings[h];
    }
  }

  lemma {:induction false} LastInSome(holdings: seq<Holding>, currency: string, v: real)
    ensures LastIn(holdings, currency) == Some(v) <==>
      exists h :: 0 <= h < |holdings| && holdings[h] == Holding(currency, v)
        && forall k :: h < k < |holdings| ==> holdings[k].currency != currency
  {
    if |holdings| > 0 {
      var n := |holdings| - 1;
      LastInSome(holdings[..n], currency, v);
      assert forall h :: 0 <= h < n ==> holdings[..n][h] == holdings[h];
      if holdings[n].currency != currency {
        forall h | 0 <= h < |holdings| && holdings[h] == Holding(currency, v)
            && forall k :: h < k < |holdings| ==> holdings[k].currency != currency
          ensures 0 <= h < n && holdings[..n][h] == Holding(currency, v)
            && forall k :: h < k < n ==> holdings[..n][k].currency != currency
        {
        }
      }
    }
  }

  /** `Lookup` finds nothing exactly when no profile holds the currency. */
  lemma {:induction false} LookupNone(accounts: Accounts, currency: string)
    ensures Lookup(accounts, currency).None? <==> forall p, h :: !Occurs(accounts, currency, p, h)
  {
    if |accounts| > 0 {
      var n := |accounts| - 1;
      var last := accounts[n];
      LookupNone(accounts[..n], currency);
      LastInNone(last, currency);
      assert forall p, h :: Occurs(accounts[..n], currency, p, h) <==> p < n && Occurs(accounts, currency, p, h);
      if Lookup(accounts, currency).None? {
      } else if LastIn(last, currency).Some? {
        var h :| 0 <= h < |last| && last[h].currency == currency;
        assert Occurs(accounts, currency, n, h);
      } else {
        var p, h :| Occurs(accounts[..n], currency, p, h);
        assert Occurs(accounts, currency, p, h);
      }
    }
  }

  /** Entry `(p, h)` holds the currency, and no entry for the currency comes after it. */
  ghost predicate IsLastOccurrence(accounts: Accounts, currency: string, p: int, h: int)
  {
    Occurs(accounts, currency, p, h) && forall q, k :: Occurs(accounts, currency, q, k) ==> NotAfter(q, k, p, h)
  }

  /** What `Lookup` finds is the balance of the last entry for the currency. */
  lemma {:induction false} LookupIsLast(accounts: Accounts, currency: string)
    requires Lookup(accounts, currency).Some?
    ensures exists p, h ::
      IsLastOccurrence(accounts, currency, p, h) && accounts[p][h].balance == Lookup(accounts, currency).value
  {
    var n := |accounts| - 1;
    var last := accounts[n];
    assert forall p, h :: Occurs(accounts[..n], currency, p, h) <==> p < n && Occurs(accounts, currency, p, h);
    if LastIn(last, currency).Some? {
      var v := LastIn(last, currency).value;
      LastInSome(last, currency, v);
      var h :| 0 <= h < |last| && last[h] == Holding(currency, v)
        && forall k :: h < k < |last| ==> last[k].currency != currency;
      assert IsLastOccurrence(accounts, currency, n, h);
    } else {
      LastInNone(last, currency);
      LookupIsLast(accounts[..n], currency);
      var p, h :| IsLastOccurrence(accounts[..n], currency, p, h)
        && accounts[..n][p][h].balance == Lookup(accounts, currency).value;
      assert IsLastOccurrence(accounts, currency, p, h);
    }
  }

  /** At most one entry is the last one for a currency. */
  lemma LastOccurrenceUnique(accounts: Accounts, currency: string, p: int, h: int, q: int, k: int)
    requires IsLastOccurrence(accounts, currency, p, h) && IsLastOccurrence(accounts, currency, q, k)
    ensures p == q && h == k
  {
    assert NotAfter(q, k, p, h) && NotAfter(p, h, q, k);
  }

  /**
   * `Lookup` yields `v` exactly when the last entry for the currency, in iteration order, holds
   * `v`.
   */
  lemma LookupSome(accounts: Accounts, currency: string, v: real)
    ensures Lookup(accounts, currency) == Some(v) <==>
      exists p, h :: (IsLastOccurrence(accounts, currency, p, h) && accounts[p][h].balance == v)
  {
    LookupNone(accounts, currency);
    if Lookup(accounts, currency).Some? {
      LookupIsLast(accounts, currency);
      var p, h :| IsLastOccurrence(accounts, currency, p, h)
        && accounts[p][h].balance == Lookup(accounts, currency).value;
      forall q, k | IsLastOccurrence(accounts, currency, q, k)
        ensures q == p && k == h
      {
        LastOccurrenceUnique(accounts, currency, p, h, q, k);
      }
    }
  }

  // ---------------------------------------------------------------------------------------------
  // Profit of one round trip

  /**
   * The profit `calculateLoss` books for a close at `closingPrice`: the size it reads (the
   * `openOrderSize` getter) less the remaining size when that is positive, times the price move
   * from the open price.
   */
  function TradeProfit(openOrderPrice: real, sizeRead: real, remaining: real, closingPrice: real): real
  {
    var size := if remaining > 0.0 then sizeRead - remaining else sizeRead;
    size * (closingPrice - openOrderPrice)
  }

  /** With a positive size, the trade gains exactly when it closes above the open price. */
  lemma ProfitSign(openOrderPrice: real, sizeRead: real, remaining: real, closingPrice: real)
    requires (if remaining > 0.0 then sizeRead - remaining else sizeRead) > 0.0
    ensures TradeProfit(openOrderPrice, sizeRead, remaining, closingPrice) > 0.0 <==> closingPrice > openOrderPrice
    ensures TradeProfit(openOrderPrice, sizeRead, remaining, closingPrice) == 0.0 <==> closingPrice == openOrderPrice
  {
    var size := if remaining > 0.0 then sizeRead - remaining else sizeRead;
    var move := closingPrice - openOrderPrice;
    if move > 0.0 {
      assert size * move > 0.0;
    } else if move < 0.0 {
      assert size * move < 0.0;
    }
  }

  /** Position 1 (long) or 0 (out), as the bot uses it, for both the position and the previous one. */
  predicate BinaryPositions(position: int, previousPosition: int)
  {
    0 <= position <= 1 && 0 <= previousPosition <= 1
  }

  class Manager {
    const riskTolerance: real
    var previousPosition: int
    var position: int
    var canShort: bool
    var cumLosses: real
    var accounts: Accounts
    var openOrderPrice: real
    var openOrderSize: real
    var remainingOrderSize: real
    var activeRequest: bool
    /** The flag the trader listeners attach to the manager; it is not declared on the class. */
    var openOrders: bool

    /**
     * Sets the defaults (no position, no losses, no shorting) and starts the first balance load,
     * which marks a request as active. Fields the class leaves undefined read as 0.
     */
    constructor (riskTolerance: real)
      ensures this.riskTolerance == riskTolerance
      ensures position == 0 && previousPosition == 0 && cumLosses == 0.0 && !canShort
      ensures activeRequest
      ensures accounts == [] && openOrderPrice == 0.0 && openOrderSize == 0.0 && remainingOrderSize == 0.0
      ensures !openOrders
    {
      this.riskTolerance := riskTolerance;
      previousPosition, position := 0, 0;
      cumLosses := 0.0;
      canShort := false;
      activeRequest := false;
      accounts := [];
      openOrderPrice, openOrderSize, remainingOrderSize := 0.0, 0.0, 0.0;
      openOrders := false;
      activeRequest := true;
    }

    /** The `position` setter: the old position becomes the previous one. */
    method SetPosition(pos: int)
      modifies this`position, this`previousPosition
      ensures previousPosition == old(position) && position == pos
    {
      previousPosition := position;
      position := pos;
    }

    /** The `openOrderSize` getter, which reads the open price rather than the size. */
    function OpenOrderSize(): (size: real)
      reads this
      ensures size == openOrderPrice
    {
      openOrderPrice
    }

    /** `rollbackPosition`: writes the previous position through the setter, swapping the two. */
    method RollbackPosition()
      modifies this`position, this`previousPosition
      ensures position == old(previousPosition) && previousPosition == old(position)
      ensures BinaryPositions(old(position), old(previousPosition)) ==> BinaryPositions(position, previousPosition)
    {
      SetPosition(previousPosition);
    }

    /** `calculateLoss`: books the trade's profit into the running total and returns that total. */
    method CalculateLoss(closingPrice: real) returns (total: real)
      modifies this`cumLosses
      ensures cumLosses == old(cumLosses) + TradeProfit(openOrderPrice, OpenOrderSize(), remainingOrderSize, closingPrice)
      ensures total == cumLosses
    {
      var priceDiff := closingPrice - openOrderPrice;
      var size := OpenOrderSize();
      if remainingOrderSize > 0.0 {
        size := size - remainingOrderSize;
      }
      var profit := size * priceDiff;
      cumLosses := cumLosses + profit;
      total := cumLosses;
    }

    /** `closePosition`: out of the market, order fields cleared, and a balance reload started. */
    method ClosePosition()
      modifies this`position, this`previousPosition, this`openOrderPrice, this`openOrderSize
      modifies this`remainingOrderSize, this`activeRequest
      ensures position == 0 && previousPosition == old(position)
      ensures openOrderPrice == 0.0 && openOrderSize == 0.0 && remainingOrderSize == 0.0
      ensures activeRequest
      ensures BinaryPositions(old(position), old(previousPosition)) ==> BinaryPositions(position, previousPosition)
    {
      SetPosition(0);
      openOrderPrice := 0.0;
      openOrderSize := 0.0;
      remainingOrderSize := 0.0;
      BeginBalanceUpdate();
    }

    /** The synchronous start of `updateBalances`. */
    method BeginBalanceUpdate()
      modifies this`activeRequest
      ensures activeRequest
    {
      activeRequest := true;
    }

    /**
     * The continuation of `updateBalances`: on success the loaded balances replace the old ones;
     * on either outcome the request is no longer active.
     */
    method BalancesSettled(loaded: Option<Accounts>)
      modifies this`accounts, this`activeRequest
      ensures !activeRequest
      ensures loaded.Some? ==> accounts == loaded.value
      ensures loaded.None? ==> accounts == old(accounts)
    {
      if loaded.Some? {
        accounts := loaded.value;
      }
      activeRequest := false;
    }

    /** `getProfile`: the nested walk over profiles and currencies that keeps the last match. */
    method GetProfile(currency: string) returns (balance: Option<real>)
      ensures balance == Lookup(accounts, currency)
    {
      balance := None;
      for p := 0 to |accounts|
        invariant balance == Lookup(accounts[..p], currency)
      {
        var holdings := accounts[p];
        var before := balance;
        for h := 0 to |holdings|
          invariant balance == (if LastIn(holdings[..h], currency).Some? then LastIn(holdings[..h], currency) else before)
        {
          assert holdings[..h + 1][..h] == holdings[..h];
          if holdings[h].currency == currency {
            balance := Some(holdings[h].balance);
          }
        }
        assert holdings[..|holdings|] == holdings;
        assert accounts[..p + 1][..p] == accounts[..p];
      }
      assert accounts[..|accounts|] == accounts;
    }

    /** `getBalance`: the looked-up amount, or a fatal stop when no profile holds the currency. */
    method GetBalance(currency: string) returns (o: Outcome<real>)
      ensures o.Fatal? <==> forall p, h :: !Occurs(accounts, currency, p, h)
      ensures o.Ok? ==> Lookup(accounts, currency) == Some(o.value)
    {
      var balance := GetProfile(currency);
      LookupNone(accounts, currency);
      if balance.None? {
        return Fatal;
      }
      return Ok(balance.value);
    }

    /**
     * The constructor's continuation once the first load settled: a fatal stop unless both BTC
     * and USD are found; otherwise shorting is enabled when the BTC balance is at least the USD
     * balance (it is never disabled).
     */
    method CheckCanShort() returns (o: Outcome<bool>)
      modifies this`canShort
      ensures o.Fatal? <==> Lookup(accounts, "BTC").None? || Lookup(accounts, "USD").None?
      ensures o.Fatal? ==> canShort == old(canShort)
      ensures o.Ok? ==> o.value == canShort
      ensures o.Ok? ==> canShort == (old(canShort) || Lookup(accounts, "BTC").value >= Lookup(accounts, "USD").value)
    {
      var btc := GetBalance("BTC");
      if btc.Fatal? {
        LookupNone(accounts, "BTC");
        return Fatal;
      }
      var usd := GetBalance("USD");
      if usd.Fatal? {
        LookupNone(accounts, "USD");
        return Fatal;
      }
      if btc.value >= usd.value {
        canShort := true;
      }
      return Ok(canShort);
    }
  }
}
