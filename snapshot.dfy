/**
 * The `Snapshot` record of lib/Snapshot.ts: one sample of top-of-book and trade state with
 * its derived signals. Every getter returns its private backing field and every setter
 * overwrites exactly that field; `MPB`, `OIR` and `VOI` are plain public fields. The record
 * is a value here; a setter is a field update.
 */
module Snapshots {

  datatype Snapshot = Snapshot(
    size: real, price: real,
    bid: real, ask: real, askVolume: real, bidVolume: real,
    volume: real, turnover: real, spread: real, midPrice: real,
    dBid: real, dAsk: real, bidCV: real, askCV: real,
    dVol: real, dTO: real, avgTrade: real,
    MPB: real, OIR: real, VOI: real)

  /** The name of one accessor pair (or public field), as `snapshot[param]` uses it. */
  datatype Field =
    | SizeField | PriceField | BidField | AskField | AskVolumeField | BidVolumeField
    | VolumeField | TurnoverField | SpreadField | MidPriceField
    | DBidField | DAskField | BidCVField | AskCVField
    | DVolField | DTOField | AvgTradeField
    | MPBField | OIRField | VOIField

  /** The getter of `f`: the value of its backing field. */
  function Get(s: Snapshot, f: Field): real
  {
    match f
    case SizeField => s.size
    case PriceField => s.price
    case BidField => s.bid
    case AskField => s.ask
    case AskVolumeField => s.askVolume
    case BidVolumeField => s.bidVolume
    case VolumeField => s.volume
    case TurnoverField => s.turnover
    case SpreadField => s.spread
    case MidPriceField => s.midPrice
    case DBidField => s.dBid
    case DAskField => s.dAsk
    case BidCVField => s.bidCV
    case AskCVField => s.askCV
    case DVolField => s.dVol
    case DTOField => s.dTO
    case AvgTradeField => s.avgTrade
    case MPBField => s.MPB
    case OIRField => s.OIR
    case VOIField => s.VOI
  }

  /**
   * The setter of `f`: the getter of `f` then returns `v`, and every other getter returns
   * what it returned before (each setter owns one distinct backing field).
   */
  function Set(s: Snapshot, f: Field, v: real): (r: Snapshot)
    ensures Get(r, f) == v
    ensures forall g :: g != f ==> Get(r, g) == Get(s, g)
  {
    match f
    case SizeField => s.(size := v)
    case PriceField => s.(price := v)
    case BidField => s.(bid := v)
    case AskField => s.(ask := v)
    case AskVolumeField => s.(askVolume := v)
    case BidVolumeField => s.(bidVolume := v)
    case VolumeField => s.(volume := v)
    case TurnoverField => s.(turnover := v)
    case SpreadField => s.(spread := v)
    case MidPriceField => s.(midPrice := v)
    case DBidField => s.(dBid := v)
    case DAskField => s.(dAsk := v)
    case BidCVField => s.(bidCV := v)
    case AskCVField => s.(askCV := v)
    case DVolField => s.(dVol := v)
    case DTOField => s.(dTO := v)
    case AvgTradeField => s.(avgTrade := v)
    case MPBField => s.(MPB := v)
    case OIRField => s.(OIR := v)
    case VOIField => s.(VOI := v)
  }

  /** Two snapshots that agree on every getter are the same record. */
  lemma {:induction false} GettersDetermineSnapshot(s: Snapshot, t: Snapshot)
    requires forall f :: Get(s, f) == Get(t, f)
    ensures s == t
  {
    assert Get(s, SizeField) == Get(t, SizeField) && Get(s, PriceField) == Get(t, PriceField);
    assert Get(s, BidField) == Get(t, BidField) && Get(s, AskField) == Get(t, AskField);
    assert Get(s, AskVolumeField) == Get(t, AskVolumeField);
    assert Get(s, BidVolumeField) == Get(t, BidVolumeField);
    assert Get(s, VolumeField) == Get(t, VolumeField) && Get(s, TurnoverField) == Get(t, TurnoverField);
    assert Get(s, SpreadField) == Get(t, SpreadField) && Get(s, MidPriceField) == Get(t, MidPriceField);
    assert Get(s, DBidField) == Get(t, DBidField) && Get(s, DAskField) == Get(t, DAskField);
    assert Get(s, BidCVField) == Get(t, BidCVField) && Get(s, AskCVField) == Get(t, AskCVField);
    assert Get(s, DVolField) == Get(t, DVolField) && Get(s, DTOField) == Get(t, DTOField);
    assert Get(s, AvgTradeField) == Get(t, AvgTradeField);
    assert Get(s, MPBField) == Get(t, MPBField) && Get(s, OIRField) == Get(t, OIRField);
    assert Get(s, VOIField) == Get(t, VOIField);
  }

  /** Writing a field the value it already holds changes nothing. */
  lemma {:induction false} SetOwnValue(s: Snapshot, f: Field)
    ensures Set(s, f, Get(s, f)) == s
  {
    var r := Set(s, f, Get(s, f));
    forall g ensures Get(r, g) == Get(s, g) {
      if g == f { } else { }
    }
    GettersDetermineSnapshot(r, s);
  }

  /** Of two writes to the same field the later one wins. */
  lemma {:induction false} SetTwice(s: Snapshot, f: Field, v: real, w: real)
    ensures Set(Set(s, f, v), f, w) == Set(s, f, w)
  {
    var a, b := Set(Set(s, f, v), f, w), Set(s, f, w);
    forall g ensures Get(a, g) == Get(b, g) {
      if g == f { } else { }
    }
    GettersDetermineSnapshot(a, b);
  }

  /** Writes to two different fields commute. */
  lemma {:induction false} SetsCommute(s: Snapshot, f: Field, v: real, g: Field, w: real)
    requires f != g
    ensures Set(Set(s, f, v), g, w) == Set(Set(s, g, w), f, v)
  {
    var a, b := Set(Set(s, f, v), g, w), Set(Set(s, g, w), f, v);
    forall h ensures Get(a, h) == Get(b, h) {
      if h == f { } else if h == g { } else { }
    }
    GettersDetermineSnapshot(a, b);
  }

  /** `spread` and `midPrice` are stored, not derived: writing `bid` or `ask` leaves them as they were. */
  lemma StoredNotDerived(s: Snapshot, v: real)
    ensures Set(s, BidField, v).spread == s.spread && Set(s, BidField, v).midPrice == s.midPrice
    ensures Set(s, AskField, v).spread == s.spread && Set(s, AskField, v).midPrice == s.midPrice
  {
    assert Get(Set(s, BidField, v), SpreadField) == Get(s, SpreadField);
    assert Get(Set(s, BidField, v), MidPriceField) == Get(s, MidPriceField);
    assert Get(Set(s, AskField, v), SpreadField) == Get(s, SpreadField);
    assert Get(Set(s, AskField, v), MidPriceField) == Get(s, MidPriceField);
  }
}
