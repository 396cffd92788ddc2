/** Maintenance-margin tables and the tier lookup of risk_manager.py.
    The source keeps every tier as (max_notional, rate, amount) and charges
    `notional * rate - amount`, where `amount` is a precomputed offset.  This module gives
    the table its plain meaning, a sum over marginal brackets, and shows that the two agree. */
module MarginTiers {
  import opened RealArith

  datatype Tier = Tier(upTo: real, rate: real, amount: real)
  {
    /** The straight line the tier charges along. */
    function Line(notional: real): real {
      notional * rate - amount
    }
  }

  const BTC_TIERS := [
    Tier(50_000.0, 0.004, 0.0),
    Tier(250_000.0, 0.005, 50.0),
    Tier(1_000_000.0, 0.01, 1_300.0),
    Tier(5_000_000.0, 0.025, 16_300.0),
    Tier(10_000_000.0, 0.05, 141_300.0),
    Tier(20_000_000.0, 0.10, 641_300.0),
    Tier(50_000_000.0, 0.125, 1_141_300.0),
    Tier(100_000_000.0, 0.15, 2_391_300.0),
    Tier(200_000_000.0, 0.25, 12_391_300.0),
    Tier(300_000_000.0, 0.50, 62_391_300.0)
  ]

  const ETH_TIERS := [
    Tier(10_000.0, 0.005, 0.0),
    Tier(100_000.0, 0.007, 20.0),
    Tier(500_000.0, 0.01, 320.0),
    Tier(1_000_000.0, 0.02, 5_320.0),
    Tier(2_000_000.0, 0.05, 35_320.0),
    Tier(5_000_000.0, 0.10, 135_320.0),
    Tier(10_000_000.0, 0.125, 260_320.0),
    Tier(20_000_000.0, 0.15, 510_320.0),
    Tier(50_000_000.0, 0.25, 2_510_320.0)
  ]

  /** SOLUSDT and XRPUSDT carry the same rows. */
  const ALT_TIERS := [
    Tier(5_000.0, 0.005, 0.0),
    Tier(25_000.0, 0.01, 25.0),
    Tier(100_000.0, 0.025, 400.0),
    Tier(250_000.0, 0.05, 2_900.0),
    Tier(1_000_000.0, 0.10, 15_400.0),
    Tier(2_000_000.0, 0.125, 40_400.0),
    Tier(5_000_000.0, 0.25, 290_400.0)
  ]

  const DEFAULT_TIERS := [
    Tier(5_000.0, 0.005, 0.0),
    Tier(25_000.0, 0.01, 25.0),
    Tier(100_000.0, 0.025, 400.0),
    Tier(250_000.0, 0.05, 2_900.0),
    Tier(1_000_000.0, 0.10, 15_400.0)
  ]

  function TiersOf(symbol: string): (tiers: seq<Tier>)
    ensures |tiers| > 0
  {
    if symbol == "BTCUSDT" then BTC_TIERS
    else if symbol == "ETHUSDT" then ETH_TIERS
    else if symbol == "SOLUSDT" || symbol == "XRPUSDT" then ALT_TIERS
    else DEFAULT_TIERS
  }

  /** The first tier whose bound covers the notional; past every bound, the last tier. */
  function TierIndex(tiers: seq<Tier>, notional: real): (i: nat)
    requires |tiers| > 0
    ensures i < |tiers|
  {
    if notional <= tiers[0].upTo || |tiers| == 1 then 0 else 1 + TierIndex(tiers[1..], notional)
  }

  function Lookup(tiers: seq<Tier>, notional: real): real
    requires |tiers| > 0
  {
    tiers[TierIndex(tiers, notional)].Line(notional)
  }

  function MaintenanceMargin(notional: real, symbol: string): real {
    Lookup(TiersOf(symbol), notional)
  }

  function LastRate(tiers: seq<Tier>): real
    requires |tiers| > 0
  {
    tiers[|tiers| - 1].rate
  }

  /** A table starting at `from`: bounds and rates increase, rates lie strictly between 0 and 1,
      and neighbouring lines meet at the bound they share. */
  ghost predicate WellFormed(tiers: seq<Tier>, from: real) {
    && |tiers| > 0
    && tiers[0].upTo > from
    && 0.0 < tiers[0].rate < 1.0
    && (|tiers| > 1 ==>
          && tiers[0].rate < tiers[1].rate
          && tiers[0].Line(tiers[0].upTo) == tiers[1].Line(tiers[0].upTo)
          && WellFormed(tiers[1..], tiers[0].upTo))
  }

  /** The meaning of the table: each bracket's rate times the part of the notional inside that
      bracket, the last bracket being open-ended. */
  function BracketSum(tiers: seq<Tier>, from: real, notional: real): real
    requires |tiers| > 0
  {
    if |tiers| == 1 then
      tiers[0].rate * ((if notional > from then notional else from) - from)
    else
      tiers[0].rate * (Clamp(notional, from, tiers[0].upTo) - from)
      + BracketSum(tiers[1..], tiers[0].upTo, notional)
  }

  // ---------- The five tables ----------

  lemma AltTablesWellFormed()
    ensures WellFormed(ALT_TIERS, 0.0)
    ensures WellFormed(DEFAULT_TIERS, 0.0)
  {
    var a := ALT_TIERS;
    assert WellFormed(a[6..], a[5].upTo);
    assert a[5..][1..] == a[6..] && a[4..][1..] == a[5..] && a[3..][1..] == a[4..];
    assert WellFormed(a[3..], a[2].upTo);
    assert a[2..][1..] == a[3..] && a[1..][1..] == a[2..];
    assert WellFormed(a[1..], a[0].upTo);
    var d := DEFAULT_TIERS;
    assert d[3..][1..] == d[4..] && d[2..][1..] == d[3..] && d[1..][1..] == d[2..];
    assert WellFormed(d[4..], d[3].upTo);
    assert WellFormed(d[2..], d[1].upTo);
  }

  lemma EthTableWellFormed()
    ensures WellFormed(ETH_TIERS, 0.0)
  {
    var t := ETH_TIERS;
    assert t[7..][1..] == t[8..] && t[6..][1..] == t[7..] && t[5..][1..] == t[6..];
    assert WellFormed(t[8..], t[7].upTo);
    assert WellFormed(t[6..], t[5].upTo);
    assert t[4..][1..] == t[5..] && t[3..][1..] == t[4..];
    assert WellFormed(t[4..], t[3].upTo);
    assert t[2..][1..] == t[3..] && t[1..][1..] == t[2..];
    assert WellFormed(t[2..], t[1].upTo);
  }

  lemma BtcTableWellFormed()
    ensures WellFormed(BTC_TIERS, 0.0)
  {
    var t := BTC_TIERS;
    assert t[8..][1..] == t[9..] && t[7..][1..] == t[8..];
    assert WellFormed(t[9..], t[8].upTo);
    assert WellFormed(t[7..], t[6].upTo);
    assert t[6..][1..] == t[7..] && t[5..][1..] == t[6..];
    assert WellFormed(t[5..], t[4].upTo);
    assert t[4..][1..] == t[5..] && t[3..][1..] == t[4..];
    assert WellFormed(t[3..], t[2].upTo);
    assert t[2..][1..] == t[3..] && t[1..][1..] == t[2..];
    assert WellFormed(t[1..], t[0].upTo);
  }

  /** Every table the lookup can reach is continuous at its bounds, has rates below one and
      starts without an offset. */
  lemma TablesWellFormed(symbol: string)
    ensures WellFormed(TiersOf(symbol), 0.0) && TiersOf(symbol)[0].amount == 0.0
  {
    AltTablesWellFormed();
    EthTableWellFormed();
    BtcTableWellFormed();
  }

  // ---------- The offset form refines the bracket sum ----------

  lemma {:induction false} BracketSumBelow(tiers: seq<Tier>, from: real, notional: real)
    requires WellFormed(tiers, from) && notional <= from
    ensures BracketSum(tiers, from, notional) == 0.0
  {
    if |tiers| > 1 {
      BracketSumBelow(tiers[1..], tiers[0].upTo, notional);
    }
  }

  lemma {:induction false} LookupRefinesBracketSum(tiers: seq<Tier>, from: real, notional: real)
    requires WellFormed(tiers, from) && notional >= from
    ensures Lookup(tiers, notional) == tiers[0].Line(from) + BracketSum(tiers, from, notional)
  {
    if |tiers| > 1 {
      if notional <= tiers[0].upTo {
        BracketSumBelow(tiers[1..], tiers[0].upTo, notional);
      } else {
        LookupRefinesBracketSum(tiers[1..], tiers[0].upTo, notional);
      }
    }
  }

  /** For all five tables and every non-negative notional the offset lookup charges exactly the
      marginal bracket sum. */
  lemma MaintenanceIsBracketSum(notional: real, symbol: string)
    requires notional >= 0.0
    ensures MaintenanceMargin(notional, symbol) == BracketSum(TiersOf(symbol), 0.0, notional)
  {
    TablesWellFormed(symbol);
    LookupRefinesBracketSum(TiersOf(symbol), 0.0, notional);
  }

  // ---------- The lookup is the upper envelope of the tier lines ----------

  lemma {:induction false} FirstLineHighest(tiers: seq<Tier>, from: real, notional: real, i: nat)
    requires WellFormed(tiers, from) && i < |tiers| && notional <= tiers[0].upTo
    ensures tiers[i].Line(notional) <= tiers[0].Line(notional)
    decreases i
  {
    if i > 0 {
      FirstLineHighest(tiers[1..], tiers[0].upTo, notional, i - 1);
      LinesCross(tiers[0], tiers[1], tiers[0].upTo, notional);
    }
  }

  /** Of two lines that meet, the steeper one lies below before the meeting point and above after it. */
  lemma LinesCross(flat: Tier, steep: Tier, meet: real, notional: real)
    requires flat.rate < steep.rate && flat.Line(meet) == steep.Line(meet)
    ensures notional <= meet ==> steep.Line(notional) <= flat.Line(notional)
    ensures notional >= meet ==> flat.Line(notional) <= steep.Line(notional)
  {
    LineDifference(flat, meet, notional);
    LineDifference(steep, meet, notional);
    var d := notional - meet;
    if d <= 0.0 {
      MulMono(flat.rate, steep.rate, -d);
    } else {
      MulMono(flat.rate, steep.rate, d);
    }
  }

  lemma {:induction false} LookupAboveEveryLine(tiers: seq<Tier>, from: real, notional: real, i: nat)
    requires WellFormed(tiers, from) && i < |tiers|
    ensures tiers[i].Line(notional) <= Lookup(tiers, notional)
    decreases |tiers|
  {
    if notional <= tiers[0].upTo {
      FirstLineHighest(tiers, from, notional, i);
    } else if |tiers| > 1 {
      LookupAboveEveryLine(tiers[1..], tiers[0].upTo, notional, if i == 0 then 0 else i - 1);
      LinesCross(tiers[0], tiers[1], tiers[0].upTo, notional);
    }
  }

  lemma {:induction false} RatesBelow(tiers: seq<Tier>, from: real, i: nat)
    requires WellFormed(tiers, from) && i < |tiers|
    ensures 0.0 < tiers[i].rate < 1.0
    ensures tiers[0].rate <= tiers[i].rate <= LastRate(tiers)
    decreases |tiers|
  {
    if |tiers| > 1 {
      RatesBelow(tiers[1..], tiers[0].upTo, if i == 0 then 0 else i - 1);
    }
  }

  /** Envelope form: the charge is the maximum over all tiers of rate * notional - amount. */
  lemma MaintenanceIsMaximum(notional: real, symbol: string)
    ensures exists i :: (0 <= i < |TiersOf(symbol)|
                         && TiersOf(symbol)[i].Line(notional) == MaintenanceMargin(notional, symbol))
    ensures forall i :: 0 <= i < |TiersOf(symbol)| ==>
            TiersOf(symbol)[i].Line(notional) <= MaintenanceMargin(notional, symbol)
  {
    var tiers := TiersOf(symbol);
    TablesWellFormed(symbol);
    var k := TierIndex(tiers, notional);
    assert tiers[k].Line(notional) == MaintenanceMargin(notional, symbol);
    forall i | 0 <= i < |tiers|
      ensures tiers[i].Line(notional) <= MaintenanceMargin(notional, symbol)
    {
      LookupAboveEveryLine(tiers, 0.0, notional, i);
    }
  }

  lemma LineDifference(t: Tier, a: real, b: real)
    ensures t.Line(b) - t.Line(a) == (b - a) * t.rate
  {
    Distribute(b, a, t.rate);
  }

  lemma LineIncreases(t: Tier, a: real, b: real)
    requires 0.0 < t.rate && a < b
    ensures t.Line(a) < t.Line(b)
  {
    LineDifference(t, a, b);
    MulPos(b - a, t.rate);
  }

  lemma LineGrowsSlower(t: Tier, a: real, b: real)
    requires t.rate < 1.0 && a < b
    ensures t.Line(b) - t.Line(a) < b - a
  {
    LineDifference(t, a, b);
    PartBelow(b - a, t.rate, t.Line(b) - t.Line(a));
  }

  lemma LineGrowsAtMost(t: Tier, lastRate: real, a: real, b: real)
    requires t.rate <= lastRate && a < b
    ensures t.Line(b) - t.Line(a) <= lastRate * (b - a)
  {
    LineDifference(t, a, b);
    MulMono(t.rate, lastRate, b - a);
  }

  /** Between two notionals the charge grows, by less than the notional does: at most the last
      rate times the difference. */
  lemma MaintenanceGrowth(a: real, b: real, symbol: string)
    requires a < b
    ensures MaintenanceMargin(a, symbol) < MaintenanceMargin(b, symbol)
    ensures MaintenanceMargin(b, symbol) - MaintenanceMargin(a, symbol) <= LastRate(TiersOf(symbol)) * (b - a)
    ensures MaintenanceMargin(b, symbol) - MaintenanceMargin(a, symbol) < b - a
  {
    TablesWellFormed(symbol);
    LookupGrowth(TiersOf(symbol), a, b);
  }

  lemma LookupGrowth(tiers: seq<Tier>, a: real, b: real)
    requires WellFormed(tiers, 0.0) && a < b
    ensures Lookup(tiers, a) < Lookup(tiers, b)
    ensures Lookup(tiers, b) - Lookup(tiers, a) <= LastRate(tiers) * (b - a)
    ensures Lookup(tiers, b) - Lookup(tiers, a) < b - a
  {
    var i, j := TierIndex(tiers, a), TierIndex(tiers, b);
    LookupAboveEveryLine(tiers, 0.0, b, i);
    LookupAboveEveryLine(tiers, 0.0, a, j);
    RatesBelow(tiers, 0.0, i);
    RatesBelow(tiers, 0.0, j);
    LineIncreases(tiers[i], a, b);
    LineGrowsSlower(tiers[j], a, b);
    LineGrowsAtMost(tiers[j], LastRate(tiers), a, b);
  }

  lemma MaintenanceNonNegative(notional: real, symbol: string)
    requires notional >= 0.0
    ensures 0.0 <= MaintenanceMargin(notional, symbol) <= notional
    ensures MaintenanceMargin(notional, symbol) == 0.0 <==> notional == 0.0
  {
    TablesWellFormed(symbol);
    assert MaintenanceMargin(0.0, symbol) == 0.0;
    if notional > 0.0 {
      MaintenanceGrowth(0.0, notional, symbol);
    }
  }

  /** Convexity: for weights t + u == 1, mixing two positions never needs more margin than
      mixing their charges. */
  lemma MaintenanceConvex(a: real, b: real, t: real, u: real, mix: real, symbol: string)
    requires t >= 0.0 && u >= 0.0 && t + u == 1.0 && mix == a * t + b * u
    ensures MaintenanceMargin(mix, symbol)
            <= MaintenanceMargin(a, symbol) * t + MaintenanceMargin(b, symbol) * u
  {
    TablesWellFormed(symbol);
    LookupConvex(TiersOf(symbol), a, b, t, u, mix, MaintenanceMargin(a, symbol), MaintenanceMargin(b, symbol));
  }

  lemma LookupConvex(tiers: seq<Tier>, a: real, b: real, t: real, u: real, mix: real, atA: real, atB: real)
    requires WellFormed(tiers, 0.0)
    requires t >= 0.0 && u >= 0.0 && t + u == 1.0 && mix == a * t + b * u
    requires Lookup(tiers, a) == atA && Lookup(tiers, b) == atB
    ensures Lookup(tiers, mix) <= atA * t + atB * u
  {
    var k := TierIndex(tiers, mix);
    LookupAboveEveryLine(tiers, 0.0, a, k);
    LookupAboveEveryLine(tiers, 0.0, b, k);
    LineMix(tiers[k], a, b, t, u, mix, atA, atB);
  }

  lemma LineAffine(tier: Tier, a: real, b: real, t: real, u: real, mix: real)
    requires t + u == 1.0 && mix == a * t + b * u
    ensures tier.Line(mix) == tier.Line(a) * t + tier.Line(b) * u
  {
    assert tier.amount == tier.amount * (t + u) == tier.amount * t + tier.amount * u;
    assert mix * tier.rate == (a * tier.rate) * t + (b * tier.rate) * u;
  }

  lemma LineMix(tier: Tier, a: real, b: real, t: real, u: real, mix: real, highA: real, highB: real)
    requires t >= 0.0 && u >= 0.0 && t + u == 1.0 && mix == a * t + b * u
    requires tier.Line(a) <= highA && tier.Line(b) <= highB
    ensures tier.Line(mix) <= highA * t + highB * u
  {
    LineAffine(tier, a, b, t, u, mix);
    MixMono(tier.Line(a), tier.Line(b), highA, highB, t, u);
  }
}
