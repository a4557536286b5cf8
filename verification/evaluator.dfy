/** The decision procedure of the trading core: one strategy, one asset, one
    series of closing prices (services/trading_core_service.py,
    `IndicatorCheck`, `CoreDecision` and `evaluate_strategy_for_asset`).
    Each enabled indicator is judged, one check is recorded per indicator, and
    the strict confirmation rule turns the tally into LONG, SHORT or HOLD.
    A conversion the source performs with `int()` or `float()` that raises
    makes the whole evaluation an `Err`. */
module Evaluator {
  import opened Wrappers
  import opened Text
  import opened Values
  import opened Indicators
  import opened Normalizer

  datatype Bias = LongBias | ShortBias | Neutral
  datatype Signal = Long | Short | Hold

  /** A value the source passes through `str()`: text stays itself; the
      rendering of any other value is kept as the value. */
  datatype Label = Named(s: string) | Rendered(v: Value)

  function LabelOf(v: Value): Label {
    if v.VStr? then Named(v.s) else Rendered(v)
  }

  /** The `current_value` of a check (rounding for display is not modelled). */
  datatype Reading =
    | NoReading
    | RsiValue(rsi: real)
    | EmaValues(emaFast: real, emaSlow: real)
    | MacdValues(point: MacdPoint)
    | BandValues(close: real, bands: Bands)

  /** The `condition` of a check: which rule was tested, with its settings. */
  datatype Condition =
    | RsiAvailable(period: int)
    | RsiOversold(oversold: real)
    | RsiOverbought(overbought: real)
    | RsiBetween(oversold: real, overbought: real)
    | EmaAvailable(fast: int, slow: int)
    | EmaAbove(fast: int, slow: int)
    | EmaBelow(fast: int, slow: int)
    | EmaEqual(fast: int, slow: int)
    | MacdAvailable(fast: int, slow: int, signalPeriod: int)
    | MacdAbove
    | MacdBelow
    | MacdEqual
    | BandsAvailable(period: int)
    | BelowLower
    | AboveUpper
    | InsideBands
    | Unsupported

  datatype IndicatorCheck = IndicatorCheck(
    indicator: Label, value: Reading, condition: Condition, result: bool, bias: Bias)

  /** One indicator's verdict: its check and which sides it confirms. */
  datatype Verdict = Verdict(check: IndicatorCheck, isLong: bool, isShort: bool)

  /** The check agrees with the sides: it is true iff a side is confirmed,
      and its bias names the long side first. */
  predicate Agrees(v: Verdict) {
    && v.check.result == (v.isLong || v.isShort)
    && (v.check.bias == LongBias <==> v.isLong)
    && (v.check.bias == ShortBias <==> v.isShort && !v.isLong)
    && (v.check.value.NoReading? ==> !v.isLong && !v.isShort)
  }

  /** The verdict of an indicator that could not be computed or is unknown. */
  function Unavailable(indicator: Label, condition: Condition): (v: Verdict)
    ensures Agrees(v) && !v.isLong && !v.isShort && v.check.bias == Neutral
  {
    Verdict(IndicatorCheck(indicator, NoReading, condition, false, Neutral), false, false)
  }

  /** Two-sided verdict of a strict comparison. */
  function Compare(indicator: Label, value: Reading, isLong: bool, isShort: bool,
                   above: Condition, below: Condition, equal: Condition): (v: Verdict)
    requires !(isLong && isShort) && !value.NoReading?
    ensures Agrees(v) && v.isLong == isLong && v.isShort == isShort
  {
    var cond := if isLong then above else if isShort then below else equal;
    var bias := if isLong then LongBias else if isShort then ShortBias else Neutral;
    Verdict(IndicatorCheck(indicator, value, cond, isLong || isShort, bias), isLong, isShort)
  }

  // -------------------------------------------------------------- settings

  /** `int(params.get(key, d) or d)`. */
  function IntSetting(params: Dict, key: string, d: int): Result<int> {
    IntOf(Or(GetOr(params, key, VNum(d as real)), VNum(d as real)))
  }

  /** `int(params.get(key, params.get(alt, d)) or d)`. */
  function IntSetting2(params: Dict, key: string, alt: string, d: int): Result<int> {
    IntOf(Or(GetOr(params, key, GetOr(params, alt, VNum(d as real))), VNum(d as real)))
  }

  /** `float(params.get(key, d) or d)`. */
  function FloatSetting(params: Dict, key: string, d: real): Result<real> {
    FloatOf(Or(GetOr(params, key, VNum(d)), VNum(d)))
  }

  /** A setting given as zero falls back to the default, as with `or`. */
  lemma ZeroSettingIsDefault(params: Dict, key: string, d: int)
    requires Get(params, key) == Some(VNum(0.0))
    ensures IntSetting(params, key, d) == Ok(d)
  {
    assert GetOr(params, key, VNum(d as real)) == VNum(0.0);
    assert Or(VNum(0.0), VNum(d as real)) == VNum(d as real);
    assert Trunc(d as real) == d;
  }

  // ------------------------------------------------------------ indicators

  /** RSI sides: oversold confirms LONG, overbought confirms SHORT; with
      `oversold >= overbought` one reading can confirm both. */
  function RsiJudge(x: real, oversold: real, overbought: real): (v: Verdict)
    ensures Agrees(v)
    ensures v.isLong <==> x <= oversold
    ensures v.isShort <==> x >= overbought
  {
    var isLong := x <= oversold;
    var isShort := x >= overbought;
    var cond :=
      if isLong then RsiOversold(oversold)
      else if isShort then RsiOverbought(overbought)
      else RsiBetween(oversold, overbought);
    var bias := if isLong then LongBias else if isShort then ShortBias else Neutral;
    Verdict(IndicatorCheck(Named("RSI"), RsiValue(x), cond, isLong || isShort, bias), isLong, isShort)
  }

  /** With the thresholds crossed, a reading between them hits both sides
      and the check reports the long side. */
  lemma RsiBothSides(x: real, oversold: real, overbought: real)
    requires overbought <= x <= oversold
    ensures RsiJudge(x, oversold, overbought).isLong && RsiJudge(x, oversold, overbought).isShort
    ensures RsiJudge(x, oversold, overbought).check.bias == LongBias
  {
  }

  /** The RSI rule: no reading when the RSI cannot be computed, otherwise
      LONG at or below `oversold` and SHORT at or above `overbought`. */
  function RsiVerdict(params: Dict, closes: seq<real>): (r: Result<Verdict>)
    ensures r.Ok? ==> Agrees(r.value)
    ensures r.Ok? <==> (IntSetting(params, "period", 14).Ok?
      && FloatSetting(params, "oversold", 30.0).Ok? && FloatSetting(params, "overbought", 70.0).Ok?)
    ensures r.Ok? ==> r.value.check.indicator == Named("RSI")
    ensures r.Ok? ==>
      var x := Rsi(closes, IntSetting(params, "period", 14).value);
      && (x.None? ==> r.value.check.value.NoReading? && !r.value.isLong && !r.value.isShort)
      && (x.Some? ==>
            && r.value.check.value == RsiValue(x.value)
            && (r.value.isLong <==> x.value <= FloatSetting(params, "oversold", 30.0).value)
            && (r.value.isShort <==> x.value >= FloatSetting(params, "overbought", 70.0).value))
  {
    var period :- IntSetting(params, "period", 14);
    var oversold :- FloatSetting(params, "oversold", 30.0);
    var overbought :- FloatSetting(params, "overbought", 70.0);
    match Rsi(closes, period)
    case None => Ok(Unavailable(Named("RSI"), RsiAvailable(period)))
    case Some(x) => Ok(RsiJudge(x, oversold, overbought))
  }

  /** The EMA crossover rule: LONG when the fast EMA is strictly above the
      slow one, SHORT when strictly below. */
  function EmaVerdict(params: Dict, closes: seq<real>): (r: Result<Verdict>)
    ensures r.Ok? ==> Agrees(r.value)
    ensures r.Ok? <==> (IntSetting2(params, "fast_period", "fast", 12).Ok?
      && IntSetting2(params, "slow_period", "slow", 26).Ok?)
    ensures r.Ok? ==> r.value.check.indicator == Named("EMA")
    ensures r.Ok? ==>
      var f := EmaLast(closes, IntSetting2(params, "fast_period", "fast", 12).value);
      var s := EmaLast(closes, IntSetting2(params, "slow_period", "slow", 26).value);
      && (f.None? || s.None? ==> r.value.check.value.NoReading? && !r.value.isLong && !r.value.isShort)
      && (f.Some? && s.Some? ==>
            && r.value.check.value == EmaValues(f.value, s.value)
            && (r.value.isLong <==> f.value > s.value)
            && (r.value.isShort <==> f.value < s.value))
  {
    var fast :- IntSetting2(params, "fast_period", "fast", 12);
    var slow :- IntSetting2(params, "slow_period", "slow", 26);
    match (EmaLast(closes, fast), EmaLast(closes, slow))
    case (Some(f), Some(s)) =>
      Ok(Compare(Named("EMA"), EmaValues(f, s), f > s, f < s,
                 EmaAbove(fast, slow), EmaBelow(fast, slow), EmaEqual(fast, slow)))
    case _ => Ok(Unavailable(Named("EMA"), EmaAvailable(fast, slow)))
  }

  /** The MACD rule: LONG when the MACD line is strictly above its signal
      line, SHORT when strictly below. */
  function MacdVerdict(params: Dict, closes: seq<real>): (r: Result<Verdict>)
    ensures r.Ok? ==> Agrees(r.value)
    ensures r.Ok? <==> (IntSetting(params, "fast", 12).Ok? && IntSetting(params, "slow", 26).Ok?
      && IntSetting(params, "signal", 9).Ok?)
    ensures r.Ok? ==> r.value.check.indicator == Named("MACD")
    ensures r.Ok? ==>
      var m := Macd(closes, IntSetting(params, "fast", 12).value, IntSetting(params, "slow", 26).value,
                    IntSetting(params, "signal", 9).value);
      && (m.None? ==> r.value.check.value.NoReading? && !r.value.isLong && !r.value.isShort)
      && (m.Some? ==>
            && r.value.check.value == MacdValues(m.value)
            && (r.value.isLong <==> m.value.macd > m.value.signal)
            && (r.value.isShort <==> m.value.macd < m.value.signal))
  {
    var fast :- IntSetting(params, "fast", 12);
    var slow :- IntSetting(params, "slow", 26);
    var signal :- IntSetting(params, "signal", 9);
    match Macd(closes, fast, slow, signal)
    case None => Ok(Unavailable(Named("MACD"), MacdAvailable(fast, slow, signal)))
    case Some(m) =>
      Ok(Compare(Named("MACD"), MacdValues(m), m.macd > m.signal, m.macd < m.signal,
                 MacdAbove, MacdBelow, MacdEqual))
  }

  /** The Bollinger Bands rule: LONG when the last close is at or below
      the lower band, SHORT when at or above the upper band. */
  function BandsVerdict(params: Dict, closes: seq<real>, root: real -> real): (r: Result<Verdict>)
    ensures r.Ok? ==> Agrees(r.value)
    ensures r.Ok? <==> IntSetting(params, "period", 20).Ok? && BandsMultiplier(params).Ok?
    ensures r.Ok? ==> r.value.check.indicator == Named("Bollinger Bands")
    ensures r.Ok? ==>
      var b := Bollinger(closes, IntSetting(params, "period", 20).value, BandsMultiplier(params).value, root);
      && (|closes| == 0 || b.None? ==> r.value.check.value.NoReading? && !r.value.isLong && !r.value.isShort)
      && (|closes| > 0 && b.Some? ==>
            && r.value.check.value == BandValues(closes[|closes| - 1], b.value)
            && (r.value.isLong <==> closes[|closes| - 1] <= b.value.lower)
            && (r.value.isShort <==> closes[|closes| - 1] >= b.value.upper))
  {
    var period :- IntSetting(params, "period", 20);
    var mult :- BandsMultiplier(params);
    var bb := Named("Bollinger Bands");
    if |closes| == 0 then Ok(Unavailable(bb, BandsAvailable(period)))
    else
      match Bollinger(closes, period, mult, root)
      case None => Ok(Unavailable(bb, BandsAvailable(period)))
      case Some(b) =>
        var close := closes[|closes| - 1];
        var isLong := close <= b.lower;
        var isShort := close >= b.upper;
        var cond := if isLong then BelowLower else if isShort then AboveUpper else InsideBands;
        var bias := if isLong then LongBias else if isShort then ShortBias else Neutral;
        Ok(Verdict(IndicatorCheck(bb, BandValues(close, b), cond, isLong || isShort, bias), isLong, isShort))
  }

  /** `float(params.get("std_dev", params.get("std", 2)) or 2)`. */
  function BandsMultiplier(params: Dict): Result<real> {
    FloatOf(Or(GetOr(params, "std_dev", GetOr(params, "std", VNum(2.0))), VNum(2.0)))
  }

  datatype Kind = RsiKind | EmaKind | MacdKind | BandsKind | UnknownKind

  /** Dispatch on the upper-cased indicator name. */
  function KindOf(key: string): Kind {
    if key in {"RSI", "R_S_I", "Rsi"} then RsiKind
    else if key in {"EMA", "E_M_A"} then EmaKind
    else if key in {"MACD"} then MacdKind
    else if key in {"BOLLINGER BANDS", "BOLLINGER", "BB"} then BandsKind
    else UnknownKind
  }

  /** The name of an indicator entry: `str(ind.get("name") or "").strip()`. */
  function IndicatorName(ind: Dict): Label {
    var v := Or(GetOr(ind, "name", VNone), VStr(""));
    if v.VStr? then Named(Strip(v.s)) else Rendered(v)
  }

  /** Entries without a name, or switched off, are passed over. */
  predicate Skipped(ind: Dict) {
    var n := IndicatorName(ind);
    (n.Named? && |n.s| == 0) || !Truthy(GetOr(ind, "enabled", VBool(true)))
  }

  /** `ind.get("parameters")` when it is a dictionary, else `{}`. */
  function Params(ind: Dict): Dict {
    var p := GetOr(ind, "parameters", VNone);
    if p.VDict? then p.fields else []
  }

  /** `float(ind.get("weight", 1.0) or 1.0)`. */
  function Weight(ind: Dict): Result<real> {
    FloatOf(Or(GetOr(ind, "weight", VNum(1.0)), VNum(1.0)))
  }

  /** A weight written as zero counts as 1.0. */
  lemma ZeroWeight(ind: Dict)
    requires Get(ind, "weight") == Some(VNum(0.0))
    ensures Weight(ind) == Ok(1.0)
  {
  }

  /** One indicator entry: the rule its upper-cased name selects, applied
      to its parameters; any other name gives an unsupported check. */
  function Judge(ind: Dict, closes: seq<real>, root: real -> real): (r: Result<Verdict>)
    ensures r.Ok? ==> Agrees(r.value)
    ensures IndicatorName(ind).Rendered? ==> r == Ok(Unavailable(IndicatorName(ind), Unsupported))
    ensures IndicatorName(ind).Named? ==>
      match KindOf(Upper(IndicatorName(ind).s))
      case RsiKind => r == RsiVerdict(Params(ind), closes)
      case EmaKind => r == EmaVerdict(Params(ind), closes)
      case MacdKind => r == MacdVerdict(Params(ind), closes)
      case BandsKind => r == BandsVerdict(Params(ind), closes, root)
      case UnknownKind => r == Ok(Unavailable(IndicatorName(ind), Unsupported))
  {
    var name := IndicatorName(ind);
    if name.Rendered? then Ok(Unavailable(name, Unsupported))
    else
      match KindOf(Upper(name.s))
      case RsiKind => RsiVerdict(Params(ind), closes)
      case EmaKind => EmaVerdict(Params(ind), closes)
      case MacdKind => MacdVerdict(Params(ind), closes)
      case BandsKind => BandsVerdict(Params(ind), closes, root)
      case UnknownKind => Ok(Unavailable(name, Unsupported))
  }

  // ----------------------------------------------------------------- tally

  datatype Tally = Tally(
    checks: seq<IndicatorCheck>,
    longHits: nat, shortHits: nat,
    longWeight: real, shortWeight: real, totalWeight: real)

  const Start: Tally := Tally([], 0, 0, 0.0, 0.0, 0.0)

  function Max0(w: real): (r: real)
    ensures r >= 0.0 && r >= w
    ensures w >= 0.0 ==> r == w
  {
    if w >= 0.0 then w else 0.0
  }

  /** Number of checks that favour the given side. */
  function CountBias(checks: seq<IndicatorCheck>, b: Bias): (n: nat)
    ensures n <= |checks|
  {
    if |checks| == 0 then 0
    else CountBias(checks[..|checks| - 1], b) + (if checks[|checks| - 1].bias == b then 1 else 0)
  }

  /** What the loop keeps true: the total weight covers each side's weight,
      every long hit is a check with long bias, and every check with short
      bias is a short hit. */
  predicate Consistent(t: Tally) {
    && 0.0 <= t.totalWeight
    && t.longWeight <= t.totalWeight
    && t.shortWeight <= t.totalWeight
    && t.longHits == CountBias(t.checks, LongBias)
    && t.shortHits >= CountBias(t.checks, ShortBias)
    && t.shortHits <= |t.checks|
  }

  /** Record one verdict with its weight: one more check, the weight's
      non-negative part added to the total, and the weight added to each
      side the verdict confirms. */
  function Record(t: Tally, w: real, v: Verdict): (r: Tally)
    requires Agrees(v)
    ensures r.checks == t.checks + [v.check]
    ensures r.totalWeight == t.totalWeight + Max0(w)
    ensures v.check.result <==> r.longHits + r.shortHits > t.longHits + t.shortHits
    ensures v.check.bias == LongBias <==> r.longHits == t.longHits + 1
    ensures r.longHits <= t.longHits + 1 && r.shortHits <= t.shortHits + 1
    ensures r.longWeight == t.longWeight + (r.longHits - t.longHits) as real * w
    ensures r.shortWeight == t.shortWeight + (r.shortHits - t.shortHits) as real * w
    ensures v.check.value.NoReading? ==>
      r.longHits == t.longHits && r.shortHits == t.shortHits
      && r.longWeight == t.longWeight && r.shortWeight == t.shortWeight
      && v.check.bias == Neutral
    ensures Consistent(t) ==> Consistent(r)
  {
    var r := Tally(
      t.checks + [v.check],
      t.longHits + (if v.isLong then 1 else 0),
      t.shortHits + (if v.isShort then 1 else 0),
      t.longWeight + (if v.isLong then w else 0.0),
      t.shortWeight + (if v.isShort then w else 0.0),
      t.totalWeight + Max0(w));
    assert r.checks[..|r.checks| - 1] == t.checks;
    r
  }

  /** One iteration of the indicator loop: an entry passed over changes
      nothing; any other is judged and recorded with its weight. */
  function Step(t: Tally, ind: Dict, closes: seq<real>, root: real -> real): (r: Result<Tally>)
    ensures Skipped(ind) ==> r == Ok(t)
    ensures !Skipped(ind) ==> (r.Ok? <==> Weight(ind).Ok? && Judge(ind, closes, root).Ok?)
    ensures r.Ok? && !Skipped(ind) ==>
      r.value == Record(t, Weight(ind).value, Judge(ind, closes, root).value)
    ensures r.Ok? ==> |r.value.checks| == |t.checks| + (if Skipped(ind) then 0 else 1)
    ensures r.Ok? ==> r.value.checks[..|t.checks|] == t.checks
    ensures r.Ok? && Consistent(t) ==> Consistent(r.value)
  {
    if Skipped(ind) then Ok(t)
    else
      var w :- Weight(ind);
      var v :- Judge(ind, closes, root);
      Ok(Record(t, w, v))
  }

  /** Number of entries the loop does not pass over. */
  function CountActive(inds: seq<Dict>): (n: nat)
    ensures n <= |inds|
  {
    if |inds| == 0 then 0 else (if Skipped(inds[0]) then 0 else 1) + CountActive(inds[1..])
  }

  /** The whole indicator loop. */
  function Fold(t: Tally, inds: seq<Dict>, closes: seq<real>, root: real -> real): (r: Result<Tally>)
    ensures r.Ok? ==> |r.value.checks| == |t.checks| + CountActive(inds)
    ensures r.Ok? ==> r.value.checks[..|t.checks|] == t.checks
    ensures r.Ok? && Consistent(t) ==> Consistent(r.value)
    decreases |inds|
  {
    if |inds| == 0 then Ok(t)
    else
      match Step(t, inds[0], closes, root)
      case Err(e) => Err(e)
      case Ok(t') =>
        var r := Fold(t', inds[1..], closes, root);
        assert r.Ok? ==> r.value.checks[..|t.checks|] == r.value.checks[..|t'.checks|][..|t.checks|];
        r
  }

  // -------------------------------------------------------------- decision

  /** `total_weight or max(long_weight + short_weight, 1.0)`. */
  function EffectiveTotal(t: Tally): (w: real)
    ensures w != 0.0
    ensures t.totalWeight != 0.0 ==> w == t.totalWeight
  {
    if t.totalWeight != 0.0 then t.totalWeight
    else if 1.0 > t.longWeight + t.shortWeight then 1.0
    else t.longWeight + t.shortWeight
  }

  function LongStrength(t: Tally): real {
    t.longWeight / EffectiveTotal(t)
  }

  function ShortStrength(t: Tally): real {
    t.shortWeight / EffectiveTotal(t)
  }

  predicate LongWins(t: Tally, c: Constraints) {
    t.longHits >= c.requiredConfirmations && t.shortHits == 0 && LongStrength(t) >= c.minStrength
  }

  predicate ShortWins(t: Tally, c: Constraints) {
    t.shortHits >= c.requiredConfirmations && t.longHits == 0 && ShortStrength(t) >= c.minStrength
  }

  datatype Outcome = Outcome(signal: Signal, confidence: real)

  /** The strict rule: enough confirmations on one side, none on the other,
      and enough of the weight behind it. */
  function Decide(t: Tally, c: Constraints): (o: Outcome)
    ensures o.signal == Long <==> LongWins(t, c)
    ensures o.signal == Short <==> ShortWins(t, c) && !LongWins(t, c)
    ensures o.signal == Hold ==> o.confidence == 0.0
    ensures o.signal == Long ==> o.confidence == LongStrength(t) * 100.0
    ensures o.signal == Short ==> o.confidence == ShortStrength(t) * 100.0
  {
    if LongWins(t, c) then Outcome(Long, LongStrength(t) * 100.0)
    else if ShortWins(t, c) then Outcome(Short, ShortStrength(t) * 100.0)
    else Outcome(Hold, 0.0)
  }

  /** With at least one required confirmation both sides cannot win. */
  lemma NeverBoth(t: Tally, c: Constraints)
    requires c.requiredConfirmations >= 1
    ensures !(LongWins(t, c) && ShortWins(t, c))
  {
  }

  /** A single opposing hit forces HOLD. */
  lemma OpposingHitHolds(t: Tally, c: Constraints)
    requires t.longHits >= 1 && t.shortHits >= 1
    ensures Decide(t, c).signal == Hold
  {
  }

  /** A strength never exceeds one for a consistent tally. */
  lemma StrengthAtMostOne(t: Tally)
    requires Consistent(t)
    ensures LongStrength(t) <= 1.0 && ShortStrength(t) <= 1.0
  {
    var w := EffectiveTotal(t);
    if t.totalWeight != 0.0 {
      assert w > 0.0;
      DivAtMostOne(t.longWeight, w);
      DivAtMostOne(t.shortWeight, w);
    } else {
      assert t.longWeight <= 0.0 && t.shortWeight <= 0.0 && w >= 1.0;
      DivNonPositive(t.longWeight, w);
      DivNonPositive(t.shortWeight, w);
    }
  }

  lemma DivAtMostOne(a: real, w: real)
    requires w > 0.0 && a <= w
    ensures a / w <= 1.0
  {
  }

  lemma DivNonPositive(a: real, w: real)
    requires w > 0.0 && a <= 0.0
    ensures a / w <= 0.0
  {
  }

  /** Confidence is a percentage. */
  lemma ConfidenceRange(t: Tally, c: Constraints)
    requires Consistent(t) && 0.0 <= c.minStrength
    ensures 0.0 <= Decide(t, c).confidence <= 100.0
  {
    StrengthAtMostOne(t);
  }

  /** What the decision of a consistent tally says about its checks. */
  lemma DecideFacts(t: Tally, c: Constraints)
    requires Consistent(t) && 0.0 <= c.minStrength
    ensures 0.0 <= Decide(t, c).confidence <= 100.0
    ensures Decide(t, c).signal == Long ==>
      CountBias(t.checks, LongBias) >= c.requiredConfirmations && CountBias(t.checks, ShortBias) == 0
    ensures Decide(t, c).signal == Short ==> CountBias(t.checks, LongBias) == 0
  {
    ConfidenceRange(t, c);
  }

  // -------------------------------------------------------------- decision

  datatype CoreDecision = CoreDecision(
    asset: string,
    strategyId: int,
    strategyName: Label,
    timeframe: Label,
    exchange: string,
    signal: Signal,
    confidence: real,
    checks: seq<IndicatorCheck>,
    price: Option<real>)

  function StrategyId(strategy: Dict): Result<int> {
    IntOf(Or(GetOr(strategy, "id", VNone), VNum(0.0)))
  }

  function StrategyName(strategy: Dict): Label {
    LabelOf(Or(GetOr(strategy, "name", VNone), VStr("Unnamed")))
  }

  function StrategyTimeframe(strategy: Dict): Label {
    LabelOf(Or(GetOr(strategy, "timeframe", VNone), VStr("1h")))
  }

  /** `evaluate_strategy_for_asset` once the close series is known. */
  function Evaluate(strategy: Dict, asset: string, closes: seq<real>, root: real -> real): (r: Result<CoreDecision>)
    ensures r.Ok? <==> (StrategyId(strategy).Ok?
      && (|closes| == 0 || Fold(Start, NormalizeIndicators(strategy), closes, root).Ok?))
    ensures r.Ok? ==> r.value.asset == asset && r.value.exchange == "binance"
    ensures r.Ok? ==> 0.0 <= r.value.confidence <= 100.0
    ensures r.Ok? && r.value.signal == Hold ==> r.value.confidence == 0.0
    ensures r.Ok? && |closes| == 0 ==>
      r.value.signal == Hold && r.value.checks == [] && r.value.price == None
    ensures r.Ok? && |closes| > 0 ==>
      r.value.price == Some(closes[|closes| - 1])
      && |r.value.checks| == CountActive(NormalizeIndicators(strategy))
    ensures r.Ok? && r.value.signal == Long ==>
      CountBias(r.value.checks, LongBias) >= EntryConstraints(strategy).requiredConfirmations
      && CountBias(r.value.checks, ShortBias) == 0
    ensures r.Ok? && r.value.signal == Short ==>
      CountBias(r.value.checks, LongBias) == 0
    ensures r.Ok? ==>
      && r.value.strategyId == StrategyId(strategy).value
      && r.value.strategyName == StrategyName(strategy) && r.value.timeframe == StrategyTimeframe(strategy)
    ensures r.Ok? && |closes| > 0 ==>
      var t := Fold(Start, NormalizeIndicators(strategy), closes, root).value;
      var c := EntryConstraints(strategy);
      && r.value.checks == t.checks
      && (r.value.signal == Long <==> LongWins(t, c))
      && (r.value.signal == Short <==> ShortWins(t, c) && !LongWins(t, c))
      && r.value.signal == Decide(t, c).signal
      && r.value.confidence == Decide(t, c).confidence
  {
    var id :- StrategyId(strategy);
    var name := StrategyName(strategy);
    var tf := StrategyTimeframe(strategy);
    var c := EntryConstraints(strategy);
    if |closes| == 0 then Ok(CoreDecision(asset, id, name, tf, "binance", Hold, 0.0, [], None))
    else
      StartConsistent();
      var t :- Fold(Start, NormalizeIndicators(strategy), closes, root);
      Ok(Decided(asset, id, name, tf, c, t, closes[|closes| - 1]))
  }

  lemma StartConsistent()
    ensures Consistent(Start)
  {
    assert CountBias([], LongBias) == 0 && CountBias([], ShortBias) == 0;
  }

  /** The decision for a consistent tally of the checks on `asset`. */
  function Decided(asset: string, id: int, name: Label, tf: Label, c: Constraints, t: Tally, last: real): (d: CoreDecision)
    requires Consistent(t) && 0.0 <= c.minStrength
    ensures d.asset == asset && d.exchange == "binance" && d.checks == t.checks && d.price == Some(last)
    ensures 0.0 <= d.confidence <= 100.0
    ensures d.signal == Hold ==> d.confidence == 0.0
    ensures d.signal == Long ==>
      CountBias(d.checks, LongBias) >= c.requiredConfirmations && CountBias(d.checks, ShortBias) == 0
    ensures d.signal == Short ==> CountBias(d.checks, LongBias) == 0
    ensures d.strategyId == id && d.strategyName == name && d.timeframe == tf
    ensures d.signal == Decide(t, c).signal && d.confidence == Decide(t, c).confidence
  {
    var o := Decide(t, c);
    DecideFacts(t, c);
    CoreDecision(asset, id, name, tf, "binance", o.signal, o.confidence, t.checks, Some(last))
  }

  /** With every indicator passed over there is nothing to confirm: HOLD
      with no checks. */
  lemma {:induction false} NothingActive(strategy: Dict, asset: string, closes: seq<real>, root: real -> real)
    requires StrategyId(strategy).Ok? && |closes| > 0
    requires forall i :: 0 <= i < |NormalizeIndicators(strategy)| ==> Skipped(NormalizeIndicators(strategy)[i])
    ensures Evaluate(strategy, asset, closes, root).Ok?
    ensures Evaluate(strategy, asset, closes, root).value.signal == Hold
    ensures Evaluate(strategy, asset, closes, root).value.checks == []
  {
    AllSkippedFold(Start, NormalizeIndicators(strategy), closes, root);
  }

  lemma {:induction false} AllSkippedFold(t: Tally, inds: seq<Dict>, closes: seq<real>, root: real -> real)
    requires forall i :: 0 <= i < |inds| ==> Skipped(inds[i])
    ensures Fold(t, inds, closes, root) == Ok(t)
    decreases |inds|
  {
    if |inds| > 0 {
      AllSkippedFold(t, inds[1..], closes, root);
    }
  }

  // ----------------------------------------------------- decision log record

  /** One entry of the `checks` list of the log record. */
  datatype CheckRecord = CheckRecord(indicator: Label, currentValue: Reading, condition: Condition, result: bool, decisionBias: Bias)

  /** The structured part of `to_decision_log_record` (the reasoning text
      is not modelled). */
  datatype DecisionLogRecord = DecisionLogRecord(
    asset: string, signalType: Signal, confidence: real,
    strategyId: int, strategyName: Label, timeframe: Label, exchange: string,
    price: Option<real>, checks: seq<CheckRecord>, finalDecision: Signal)

  function ToRecord(c: IndicatorCheck): CheckRecord {
    CheckRecord(c.indicator, c.value, c.condition, c.result, c.bias)
  }

  function ToDecisionLogRecord(d: CoreDecision): (r: DecisionLogRecord)
    ensures r.signalType == d.signal && r.finalDecision == d.signal
    ensures |r.checks| == |d.checks|
    ensures forall i :: 0 <= i < |d.checks| ==>
      r.checks[i].indicator == d.checks[i].indicator && r.checks[i].result == d.checks[i].result
      && r.checks[i].decisionBias == d.checks[i].bias && r.checks[i].condition == d.checks[i].condition
      && r.checks[i].currentValue == d.checks[i].value
  {
    DecisionLogRecord(
      d.asset, d.signal, d.confidence,
      d.strategyId, d.strategyName, d.timeframe, d.exchange,
      d.price, seq(|d.checks|, i requires 0 <= i < |d.checks| => ToRecord(d.checks[i])), d.signal)
  }
}
