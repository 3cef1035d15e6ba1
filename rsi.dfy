/**
 * The `RSI` of services/RSI.ts: average gain and average loss over `periods` price changes,
 * seeded from the first changes of a price series and then updated one change at a time. The
 * average loss keeps the sign of the losses (it is never positive), and the value is
 * 100 - 100 / (1 + avgGain / avgLoss) with that signed loss.
 */
module Rsi {
  import opened Common

  /** The two running averages. */
  datatype Averages = Averages(gain: real, loss: real)

  /** The sign invariant of the averages: gains are never negative, losses never positive. */
  predicate Signed(a: Averages)
  {
    a.gain >= 0.0 && a.loss <= 0.0
  }

  /**
   * The change series of pandas' `diff`: one entry per price, the first one empty (NaN), then the
   * change from the previous price.
   */
  function Diff(series: seq<real>): (d: seq<Option<real>>)
    ensures |d| == |series|
    ensures |d| > 0 ==> d[0] == None
    ensures forall i :: 0 < i < |d| ==> d[i] == Some(series[i] - series[i - 1])
  {
    if |series| == 0 then []
    else [None] + seq(|series| - 1, i requires 0 <= i < |series| - 1 => Some(series[i + 1] - series[i]))
  }

  /** The sum of the positive changes; empty entries count for nothing. */
  function GainSum(entries: seq<Option<real>>): real
  {
    if |entries| == 0 then 0.0
    else
      var e := entries[|entries| - 1];
      GainSum(entries[..|entries| - 1]) + (if e.Some? && e.value > 0.0 then e.value else 0.0)
  }

  /** The sum of the negative changes; empty entries count for nothing. */
  function LossSum(entries: seq<Option<real>>): real
  {
    if |entries| == 0 then 0.0
    else
      var e := entries[|entries| - 1];
      LossSum(entries[..|entries| - 1]) + (if e.Some? && e.value < 0.0 then e.value else 0.0)
  }

  lemma {:induction false} SumsSigned(entries: seq<Option<real>>)
    ensures GainSum(entries) >= 0.0 && LossSum(entries) <= 0.0
  {
    if |entries| > 0 {
      SumsSigned(entries[..|entries| - 1]);
    }
  }

  /** The seeded averages: the gain and loss sums over the seed entries, over `periods`. */
  function Seed(seed: seq<Option<real>>, periods: nat): (a: Averages)
    requires periods != 0
    ensures Signed(a)
  {
    SumsSigned(seed);
    Averages(GainSum(seed) / (periods as real), LossSum(seed) / (periods as real))
  }

  /**
   * One `calculate` step: both averages decay by (periods - 1) / periods, and a positive change
   * adds to the gain, a negative one to the loss, each over `periods`.
   */
  function Step(a: Averages, periods: nat, d: real): (r: Averages)
    requires periods != 0
  {
    var p := periods as real;
    var gain := a.gain * (p - 1.0);
    var loss := a.loss * (p - 1.0);
    if d > 0.0 then Averages((gain + d) / p, loss / p)
    else if d < 0.0 then Averages(gain / p, (loss + d) / p)
    else Averages(gain / p, loss / p)
  }

  /** `calculate` keeps the sign invariant. */
  lemma StepSigned(a: Averages, periods: nat, d: real)
    requires periods != 0 && Signed(a)
    ensures Signed(Step(a, periods, d))
  {
    var k := periods as real - 1.0;
    assert k >= 0.0;
    assert a.gain * k >= 0.0;
    assert (-a.loss) * k >= 0.0;
    assert a.loss * k <= 0.0;
  }

  /** A zero change only decays both averages. */
  lemma StepFlat(a: Averages, periods: nat)
    requires periods != 0
    ensures Step(a, periods, 0.0)
      == Averages(a.gain * (periods as real - 1.0) / (periods as real), a.loss * (periods as real - 1.0) / (periods as real))
  {
  }

  /**
   * The value returned after an update, under JavaScript's division: with a zero average loss
   * and a nonzero gain the ratio is infinite and the value is exactly 100; with both averages
   * zero (NaN) or with `1 + avgGain / avgLoss` zero (minus infinity) there is no finite value.
   */
  function Value(a: Averages): Option<real>
  {
    if a.loss == 0.0 then (if a.gain != 0.0 then Some(100.0) else None)
    else if 1.0 + a.gain / a.loss == 0.0 then None
    else Some(100.0 - 100.0 / (1.0 + a.gain / a.loss))
  }

  /**
   * With the signed loss the value never lies in (0, 100): it is at most 0, or at least 100, and
   * it is exactly 100 only when the average loss is 0. A textbook RSI, which divides by the
   * magnitude of the loss, lies in [0, 100].
   */
  lemma ValueOutOfRange(a: Averages)
    requires Signed(a) && Value(a).Some?
    ensures Value(a).value <= 0.0 || Value(a).value >= 100.0
    ensures Value(a).value == 100.0 <==> a.loss == 0.0
  {
    if a.loss != 0.0 {
      var ratio := a.gain / a.loss;
      assert ratio <= 0.0;
      var den := 1.0 + ratio;
      assert Value(a) == Some(100.0 - 100.0 / den);
      if den > 0.0 {
        OverAtMostOne(den);
      } else {
        assert 100.0 / den < 0.0;
      }
    }
  }

  /** A rise while the average loss is 0 (no fall since the seed) gives exactly 100. */
  lemma RiseWithoutLossGivesHundred(a: Averages, periods: nat, d: real)
    requires periods != 0 && a.gain >= 0.0 && a.loss == 0.0 && d > 0.0
    ensures Value(Step(a, periods, d)) == Some(100.0)
  {
    var p := periods as real;
    assert a.gain * (p - 1.0) >= 0.0;
    assert (a.gain * (p - 1.0) + d) / p > 0.0;
  }

  /** 100 over a number in (0, 1] is at least 100. */
  lemma OverAtMostOne(den: real)
    requires 0.0 < den <= 1.0
    ensures 100.0 / den >= 100.0
  {
    var excess := 100.0 * (1.0 - den);
    assert excess >= 0.0;
    assert 100.0 / den - 100.0 == excess / den;
  }

  /** The averages after updating with each change of `ds` in turn. */
  function Run(a: Averages, periods: nat, ds: seq<real>): Averages
    requires periods != 0
  {
    if |ds| == 0 then a else Step(Run(a, periods, ds[..|ds| - 1]), periods, ds[|ds| - 1])
  }

  /** The value each update of `Run` returns, in order. */
  function Values(a: Averages, periods: nat, ds: seq<real>): (r: seq<Option<real>>)
    requires periods != 0
    ensures |r| == |ds|
  {
    if |ds| == 0 then [] else Values(a, periods, ds[..|ds| - 1]) + [Value(Run(a, periods, ds))]
  }

  lemma {:induction false} RunSigned(a: Averages, periods: nat, ds: seq<real>)
    requires periods != 0 && Signed(a)
    ensures Signed(Run(a, periods, ds))
  {
    if |ds| > 0 {
      RunSigned(a, periods, ds[..|ds| - 1]);
      StepSigned(Run(a, periods, ds[..|ds| - 1]), periods, ds[|ds| - 1]);
    }
  }

  /** Every value of a run from signed averages is at most 0 or at least 100. */
  lemma {:induction false} ValuesOutOfRange(a: Averages, periods: nat, ds: seq<real>)
    requires periods != 0 && Signed(a)
    ensures forall i :: 0 <= i < |ds| && Values(a, periods, ds)[i].Some? ==>
      Values(a, periods, ds)[i].value <= 0.0 || Values(a, periods, ds)[i].value >= 100.0
  {
    if |ds| > 0 {
      var n := |ds| - 1;
      ValuesOutOfRange(a, periods, ds[..n]);
      RunSigned(a, periods, ds);
      if Value(Run(a, periods, ds)).Some? {
        ValueOutOfRange(Run(a, periods, ds));
      }
    }
  }

  /** The known changes of a series of non-empty entries. */
  function Known(entries: seq<Option<real>>): (r: seq<real>)
    requires forall i :: 0 <= i < |entries| ==> entries[i].Some?
    ensures |r| == |entries| && forall i :: 0 <= i < |entries| ==> Some(r[i]) == entries[i]
  {
    seq(|entries|, i requires 0 <= i < |entries| => entries[i].value)
  }

  /** Where the seed of `initSignal` ends: `periods`, clamped to the length of the changes. */
  function SeedEnd(len: nat, periods: nat): nat
  {
    if periods < len then periods else len
  }

  class RSI {
    const periods: nat
    var avgGain: real
    var avgLoss: real

    constructor (periods: nat)
      ensures this.periods == periods && avgGain == 0.0 && avgLoss == 0.0
      ensures Signed(Averages(avgGain, avgLoss))
    {
      this.periods := periods;
      avgGain := 0.0;
      avgLoss := 0.0;
    }

    /** `calculate`: one update of the averages and the value it gives. */
    method Calculate(diffPrice: real) returns (value: Option<real>)
      requires periods != 0
      modifies this`avgGain, this`avgLoss
      ensures Averages(avgGain, avgLoss) == Step(old(Averages(avgGain, avgLoss)), periods, diffPrice)
      ensures value == Value(Averages(avgGain, avgLoss))
    {
      ghost var after := Step(Averages(avgGain, avgLoss), periods, diffPrice);
      var p := periods as real;
      var gain := avgGain * (p - 1.0);
      var loss := avgLoss * (p - 1.0);
      if diffPrice > 0.0 {
        gain := gain + diffPrice;
      } else if diffPrice < 0.0 {
        loss := loss + diffPrice;
      }
      assert gain / p == after.gain;
      assert loss / p == after.loss;
      avgGain := gain / p;
      avgLoss := loss / p;
      value := Value(Averages(avgGain, avgLoss));
    }

    /** The seeding `map` of `initSignal`: the sums of the positive and of the negative changes. */
    static method SumChanges(seed: seq<Option<real>>) returns (gain: real, loss: real)
      ensures gain == GainSum(seed) && loss == LossSum(seed)
    {
      gain, loss := 0.0, 0.0;
      for i := 0 to |seed|
        invariant gain == GainSum(seed[..i]) && loss == LossSum(seed[..i])
      {
        assert seed[..i + 1][..i] == seed[..i];
        var entry := seed[i];
        if entry.Some? && entry.value > 0.0 {
          gain := gain + entry.value;
        } else if entry.Some? && entry.value < 0.0 {
          loss := loss + entry.value;
        }
      }
      assert seed[..|seed|] == seed;
    }

    /** The final `map` of `initSignal`: `calculate` on each change in order, collecting the values. */
    method CalculateEach(ds: seq<real>) returns (values: seq<Option<real>>)
      requires periods != 0
      modifies this`avgGain, this`avgLoss
      ensures Averages(avgGain, avgLoss) == Run(old(Averages(avgGain, avgLoss)), periods, ds)
      ensures values == Values(old(Averages(avgGain, avgLoss)), periods, ds)
    {
      ghost var start := Averages(avgGain, avgLoss);
      values := [];
      for k := 0 to |ds|
        invariant Averages(avgGain, avgLoss) == Run(start, periods, ds[..k])
        invariant values == Values(start, periods, ds[..k])
      {
        assert ds[..k + 1][..k] == ds[..k];
        var v := Calculate(ds[k]);
        values := values + [v];
      }
      assert ds[..|ds|] == ds;
    }

    /**
     * `initSignal`: seeds the averages from the first `periods` changes of the series (the empty
     * first one counts for nothing), then returns one value per remaining change, each from
     * `calculate` in order. Every value is at most 0 or at least 100.
     */
    method InitSignal(series: seq<real>) returns (values: seq<Option<real>>)
      requires periods != 0
      modifies this`avgGain, this`avgLoss
      ensures var diffs := Diff(series);
        var start := SeedEnd(|diffs|, periods);
        && Averages(avgGain, avgLoss) == Run(Seed(diffs[..start], periods), periods, Known(diffs[start..]))
        && values == Values(Seed(diffs[..start], periods), periods, Known(diffs[start..]))
      ensures |values| == if |series| > periods then |series| - periods else 0
      ensures Signed(Averages(avgGain, avgLoss))
      ensures forall i :: 0 <= i < |values| && values[i].Some? ==> values[i].value <= 0.0 || values[i].value >= 100.0
    {
      var diffs := Diff(series);
      var start := SeedEnd(|diffs|, periods);
      var seed := diffs[..start];
      var gain, loss := SumChanges(seed);
      var p := periods as real;
      avgGain := gain / p;
      avgLoss := loss / p;
      ghost var seeded := Seed(seed, periods);
      var rest := Known(diffs[start..]);
      values := CalculateEach(rest);
      RunSigned(seeded, periods, rest);
      ValuesOutOfRange(seeded, periods, rest);
    }
  }
}
