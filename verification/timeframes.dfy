/** Timeframe tokens such as "4h": the exchange interval code and the length
    in minutes (services/trading_core_service.py, `_tf_to_binance_interval`
    and `_tf_to_minutes`). */
module Timeframes {
  import opened Wrappers
  import opened Text

  /** Both conversions first trim the token and lower-case it. */
  function Normalize(tf: string): string {
    Lower(Strip(tf))
  }

  /** The fourteen interval codes the exchange accepts, each mapped to itself. */
  const IntervalCodes: seq<string> :=
    ["1m", "3m", "5m", "15m", "30m", "1h", "2h", "4h", "6h", "8h", "12h", "1d", "3d", "1w"]

  function IntervalCode(tf: string): (r: Option<string>)
    ensures r.Some? <==> Normalize(tf) in IntervalCodes
    ensures r.Some? ==> r.value == Normalize(tf)
  {
    var t := Normalize(tf);
    if t in IntervalCodes then Some(t) else None
  }

  /** Minutes per unit for the suffixes `m`, `h`, `d` and `w`. */
  function UnitMinutes(u: char): Option<int> {
    if u == 'm' then Some(1)
    else if u == 'h' then Some(60)
    else if u == 'd' then Some(60 * 24)
    else if u == 'w' then Some(60 * 24 * 7)
    else None
  }

  /** `_tf_to_minutes`: the count before the unit suffix times the unit's
      minutes; `None` for another suffix or a count `int()` rejects. */
  function ToMinutes(tf: string): (r: Option<int>)
    ensures var t := Normalize(tf);
      |t| == 0 || UnitMinutes(t[|t| - 1]).None? ==> r.None?
    ensures var t := Normalize(tf);
      r.Some? ==> (|t| > 0 && UnitMinutes(t[|t| - 1]).Some?
        && ParseInt(t[..|t| - 1]).Some?
        && r.value == ParseInt(t[..|t| - 1]).value * UnitMinutes(t[|t| - 1]).value)
    ensures var t := Normalize(tf);
      |t| > 0 && UnitMinutes(t[|t| - 1]).Some? && ParseInt(t[..|t| - 1]).Some? ==> r.Some?
  {
    var t := Normalize(tf);
    if |t| == 0 then None
    else
      match UnitMinutes(t[|t| - 1])
      case None => None
      case Some(mult) =>
        match ParseInt(t[..|t| - 1])
        case None => None
        case Some(n) => Some(n * mult)
  }

  /** Tokens written as a decimal count and a unit letter normalise to
      themselves. */
  lemma NormalizeToken(n: nat, u: char)
    requires UnitMinutes(u).Some?
    ensures Normalize(ShowNat(n) + [u]) == ShowNat(n) + [u]
  {
    var s := ShowNat(n) + [u];
    StripKeeps(s);
    LowerKeeps(s);
  }

  /** A token that normalises to a decimal count and a unit letter has the
      count times the unit's minutes. */
  lemma {:induction false} MinutesOfNormalized(tf: string, n: nat, u: char)
    requires UnitMinutes(u).Some? && Normalize(tf) == ShowNat(n) + [u]
    ensures ToMinutes(tf) == Some(n * UnitMinutes(u).value)
  {
    var t := Normalize(tf);
    assert t[..|t| - 1] == ShowNat(n);
    ParseShowNat(n);
  }

  /** `_tf_to_minutes(f"{n}{u}")` is n, 60n, 1440n or 10080n. */
  lemma MinutesOfToken(n: nat, u: char)
    requires UnitMinutes(u).Some?
    ensures ToMinutes(ShowNat(n) + [u]) == Some(n * UnitMinutes(u).value)
  {
    NormalizeToken(n, u);
    MinutesOfNormalized(ShowNat(n) + [u], n, u);
  }

  /** A count that is not a number gives `None` even with a unit suffix. */
  lemma NonNumericCount(tf: string)
    requires var t := Normalize(tf); |t| > 0 && ParseInt(t[..|t| - 1]).None?
    ensures ToMinutes(tf).None?
  {
  }

  /** The count and the unit letter of each interval code, position by position. */
  const IntervalCounts: seq<nat> := [1, 3, 5, 15, 30, 1, 2, 4, 6, 8, 12, 1, 3, 1]
  const IntervalUnits: string := "mmmmmhhhhhhddw"

  lemma CodesAreTokens(i: nat)
    requires i < |IntervalCodes|
    ensures i < |IntervalCounts| && i < |IntervalUnits|
    ensures IntervalCodes[i] == ShowNat(IntervalCounts[i]) + [IntervalUnits[i]]
    ensures IntervalCounts[i] > 0 && UnitMinutes(IntervalUnits[i]).Some?
  {
  }

  lemma CodeIndex(t: string)
    requires t in IntervalCodes
    ensures exists i :: 0 <= i < |IntervalCodes| && IntervalCodes[i] == t
  {
  }

  /** Every exchange interval code also has a positive length in minutes. */
  lemma {:induction false} IntervalCodeMinutes(tf: string)
    requires IntervalCode(tf).Some?
    ensures ToMinutes(tf).Some? && ToMinutes(tf).value > 0
  {
    var t := Normalize(tf);
    CodeIndex(t);
    var i :| 0 <= i < |IntervalCodes| && IntervalCodes[i] == t;
    CodesAreTokens(i);
    MinutesPositive(tf, IntervalCounts[i], IntervalUnits[i]);
  }

  /** A token with a positive count and a unit letter has a positive length. */
  lemma MinutesPositive(tf: string, n: nat, u: char)
    requires n > 0 && UnitMinutes(u).Some? && Normalize(tf) == ShowNat(n) + [u]
    ensures ToMinutes(tf).Some? && ToMinutes(tf).value > 0
  {
    var m := UnitMinutes(u).value;
    var p := n * m;
    PositiveProduct(n, m);
    MinutesOfNormalized(tf, n, u);
    assert ToMinutes(tf) == Some(p);
  }

  lemma PositiveProduct(a: int, b: int)
    requires a > 0 && b > 0
    ensures a * b > 0
  {
  }
}
