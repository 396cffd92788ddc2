/** What each symbol is charged, as rates on slices of the notional. */
module BracketTables {
  import opened RealArith
  import opened MarginTiers

  /** The part of a notional between two bounds. */
  function Slice(notional: real, from: real, to: real): real {
    if notional <= from then 0.0 else if notional >= to then to - from else notional - from
  }

  /** The part of a notional above a bound. */
  function Above(notional: real, from: real): real {
    if notional <= from then 0.0 else notional - from
  }

  lemma OneBracket(tiers: seq<Tier>, from: real, notional: real)
    requires WellFormed(tiers, from)
    ensures |tiers| > 1 ==>
              && WellFormed(tiers[1..], tiers[0].upTo)
              && BracketSum(tiers, from, notional)
                 == tiers[0].rate * Slice(notional, from, tiers[0].upTo)
                    + BracketSum(tiers[1..], tiers[0].upTo, notional)
    ensures |tiers| == 1 ==> BracketSum(tiers, from, notional) == tiers[0].rate * Above(notional, from)
  {
    SliceIs(notional, from, tiers[0].upTo);
  }

  lemma SliceIs(notional: real, from: real, to: real)
    requires from < to
    ensures Clamp(notional, from, to) - from == Slice(notional, from, to)
    ensures (if notional > from then notional else from) - from == Above(notional, from)
  {}

  /** BTCUSDT. */
  lemma BtcCharges(symbol: string, notional: real)
    requires notional >= 0.0 && (symbol == "BTCUSDT")
    ensures MaintenanceMargin(notional, symbol)
            == 0.004 * Slice(notional, 0.0, 50_000.0)
               + 0.005 * Slice(notional, 50_000.0, 250_000.0)
               + 0.01 * Slice(notional, 250_000.0, 1_000_000.0)
               + 0.025 * Slice(notional, 1_000_000.0, 5_000_000.0)
               + 0.05 * Slice(notional, 5_000_000.0, 10_000_000.0)
               + 0.10 * Slice(notional, 10_000_000.0, 20_000_000.0)
               + 0.125 * Slice(notional, 20_000_000.0, 50_000_000.0)
               + 0.15 * Slice(notional, 50_000_000.0, 100_000_000.0)
               + 0.25 * Slice(notional, 100_000_000.0, 200_000_000.0)
               + 0.50 * Above(notional, 200_000_000.0)
  {
    hide BracketSum, WellFormed, MaintenanceMargin, Slice, Above;
    var t := BTC_TIERS;
    TablesWellFormed(symbol);
    MaintenanceIsBracketSum(notional, symbol);
    assert t[0..] == t;
    OneBracket(t[0..], 0.0, notional);
    assert t[0..][1..] == t[1..];
    OneBracket(t[1..], 50_000.0, notional);
    assert t[1..][1..] == t[2..];
    OneBracket(t[2..], 250_000.0, notional);
    assert t[2..][1..] == t[3..];
    OneBracket(t[3..], 1_000_000.0, notional);
    assert t[3..][1..] == t[4..];
    OneBracket(t[4..], 5_000_000.0, notional);
    assert t[4..][1..] == t[5..];
    OneBracket(t[5..], 10_000_000.0, notional);
    assert t[5..][1..] == t[6..];
    OneBracket(t[6..], 20_000_000.0, notional);
    assert t[6..][1..] == t[7..];
    OneBracket(t[7..], 50_000_000.0, notional);
    assert t[7..][1..] == t[8..];
    OneBracket(t[8..], 100_000_000.0, notional);
    assert t[8..][1..] == t[9..];
    OneBracket(t[9..], 200_000_000.0, notional);
  }

  /** ETHUSDT. */
  lemma EthCharges(symbol: string, notional: real)
    requires notional >= 0.0 && (symbol == "ETHUSDT")
    ensures MaintenanceMargin(notional, symbol)
            == 0.005 * Slice(notional, 0.0, 10_000.0)
               + 0.007 * Slice(notional, 10_000.0, 100_000.0)
               + 0.01 * Slice(notional, 100_000.0, 500_000.0)
               + 0.02 * Slice(notional, 500_000.0, 1_000_000.0)
               + 0.05 * Slice(notional, 1_000_000.0, 2_000_000.0)
               + 0.10 * Slice(notional, 2_000_000.0, 5_000_000.0)
               + 0.125 * Slice(notional, 5_000_000.0, 10_000_000.0)
               + 0.15 * Slice(notional, 10_000_000.0, 20_000_000.0)
               + 0.25 * Above(notional, 20_000_000.0)
  {
    hide BracketSum, WellFormed, MaintenanceMargin, Slice, Above;
    var t := ETH_TIERS;
    TablesWellFormed(symbol);
    MaintenanceIsBracketSum(notional, symbol);
    assert t[0..] == t;
    OneBracket(t[0..], 0.0, notional);
    assert t[0..][1..] == t[1..];
    OneBracket(t[1..], 10_000.0, notional);
    assert t[1..][1..] == t[2..];
    OneBracket(t[2..], 100_000.0, notional);
    assert t[2..][1..] == t[3..];
    OneBracket(t[3..], 500_000.0, notional);
    assert t[3..][1..] == t[4..];
    OneBracket(t[4..], 1_000_000.0, notional);
    assert t[4..][1..] == t[5..];
    OneBracket(t[5..], 2_000_000.0, notional);
    assert t[5..][1..] == t[6..];
    OneBracket(t[6..], 5_000_000.0, notional);
    assert t[6..][1..] == t[7..];
    OneBracket(t[7..], 10_000_000.0, notional);
    assert t[7..][1..] == t[8..];
    OneBracket(t[8..], 20_000_000.0, notional);
  }

  /** SOLUSDT and XRPUSDT. */
  lemma AltCharges(symbol: string, notional: real)
    requires notional >= 0.0 && (symbol == "SOLUSDT" || symbol == "XRPUSDT")
    ensures MaintenanceMargin(notional, symbol)
            == 0.005 * Slice(notional, 0.0, 5_000.0)
               + 0.01 * Slice(notional, 5_000.0, 25_000.0)
               + 0.025 * Slice(notional, 25_000.0, 100_000.0)
               + 0.05 * Slice(notional, 100_000.0, 250_000.0)
               + 0.10 * Slice(notional, 250_000.0, 1_000_000.0)
               + 0.125 * Slice(notional, 1_000_000.0, 2_000_000.0)
               + 0.25 * Above(notional, 2_000_000.0)
  {
    hide BracketSum, WellFormed, MaintenanceMargin, Slice, Above;
    var t := ALT_TIERS;
    TablesWellFormed(symbol);
    MaintenanceIsBracketSum(notional, symbol);
    assert t[0..] == t;
    OneBracket(t[0..], 0.0, notional);
    assert t[0..][1..] == t[1..];
    OneBracket(t[1..], 5_000.0, notional);
    assert t[1..][1..] == t[2..];
    OneBracket(t[2..], 25_000.0, notional);
    assert t[2..][1..] == t[3..];
    OneBracket(t[3..], 100_000.0, notional);
    assert t[3..][1..] == t[4..];
    OneBracket(t[4..], 250_000.0, notional);
    assert t[4..][1..] == t[5..];
    OneBracket(t[5..], 1_000_000.0, notional);
    assert t[5..][1..] == t[6..];
    OneBracket(t[6..], 2_000_000.0, notional);
  }

  /** every other symbol. */
  lemma DefaultCharges(symbol: string, notional: real)
    requires notional >= 0.0 && (symbol !in {"BTCUSDT", "ETHUSDT", "SOLUSDT", "XRPUSDT"})
    ensures MaintenanceMargin(notional, symbol)
            == 0.005 * Slice(notional, 0.0, 5_000.0)
               + 0.01 * Slice(notional, 5_000.0, 25_000.0)
               + 0.025 * Slice(notional, 25_000.0, 100_000.0)
               + 0.05 * Slice(notional, 100_000.0, 250_000.0)
               + 0.10 * Above(notional, 250_000.0)
  {
    hide BracketSum, WellFormed, MaintenanceMargin, Slice, Above;
    var t := DEFAULT_TIERS;
    TablesWellFormed(symbol);
    MaintenanceIsBracketSum(notional, symbol);
    assert t[0..] == t;
    OneBracket(t[0..], 0.0, notional);
    assert t[0..][1..] == t[1..];
    OneBracket(t[1..], 5_000.0, notional);
    assert t[1..][1..] == t[2..];
    OneBracket(t[2..], 25_000.0, notional);
    assert t[2..][1..] == t[3..];
    OneBracket(t[3..], 100_000.0, notional);
    assert t[3..][1..] == t[4..];
    OneBracket(t[4..], 250_000.0, notional);
  }
}
