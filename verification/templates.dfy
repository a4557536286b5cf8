/** The built-in strategy templates and the rules that pick, rate and tune
    them (services/strategy_templates_service.py).  A template's risk
    management, entry rules and exit rules are kept as dictionaries from
    attribute name to value: `hasattr`/`setattr` and `+=` act on those
    entries only, and a custom parameter may store a value of any type.
    Python's dunder attributes, which `hasattr` also sees, are not entries. */
module Templates {
  import opened Wrappers
  import opened Text
  import opened Values

  datatype StrategyType = Scalping | Momentum | Swing | Contrarian | Breakout | MeanReversion

  /** The enum's `.value`. */
  function TypeName(t: StrategyType): string {
    match t
    case Scalping => "scalping"
    case Momentum => "momentum"
    case Swing => "swing"
    case Contrarian => "contrarian"
    case Breakout => "breakout"
    case MeanReversion => "mean_reversion"
  }

  datatype TimeFrame = M1 | M5 | M15 | M30 | H1 | H4 | D1

  function Code(tf: TimeFrame): string {
    match tf
    case M1 => "1m"
    case M5 => "5m"
    case M15 => "15m"
    case M30 => "30m"
    case H1 => "1h"
    case H4 => "4h"
    case D1 => "1d"
  }

  /** `TimeFrame(v)`: the member whose value equals `v`, `None` where Python
      raises `ValueError`. */
  function ParseTimeFrame(v: Value): (r: Option<TimeFrame>)
    ensures r.Some? <==> v.VStr? && v.s in ["1m", "5m", "15m", "30m", "1h", "4h", "1d"]
    ensures r.Some? ==> v == VStr(Code(r.value))
  {
    if v == VStr("1m") then Some(M1)
    else if v == VStr("5m") then Some(M5)
    else if v == VStr("15m") then Some(M15)
    else if v == VStr("30m") then Some(M30)
    else if v == VStr("1h") then Some(H1)
    else if v == VStr("4h") then Some(H4)
    else if v == VStr("1d") then Some(D1)
    else None
  }

  /** Every time frame is read back from its own code. */
  lemma ParseCode(tf: TimeFrame)
    ensures ParseTimeFrame(VStr(Code(tf))) == Some(tf)
  {
  }

  datatype IndicatorConfig = IndicatorConfig(name: string, enabled: bool, parameters: Dict, weight: real)

  /** A `StrategyTemplate` without its id, description, timestamps, activity
      flag and performance score. */
  datatype Template = Template(
    name: string, strategyType: StrategyType, assets: Value, timeframe: TimeFrame,
    indicators: seq<IndicatorConfig>, entryRules: Dict, exitRules: Dict, risk: Dict,
    createdByTemplate: string)

  // ------------------------------------------------------------- built-ins

  function Num(x: real): Value { VNum(x) }

  function Strings(xs: seq<string>): Value {
    VList(seq(|xs|, i requires 0 <= i < |xs| => VStr(xs[i])))
  }

  /** A `RiskManagement`; the daily-loss and drawdown limits keep their
      defaults (5 and 15) in every built-in. */
  function RiskFields(size: real, positions: real, stopLoss: real, takeProfit: real,
                      trailing: bool, trailingPercent: real): Dict {
    [Field("max_position_size_percent", Num(size)), Field("max_positions", Num(positions)),
     Field("stop_loss_percent", Num(stopLoss)), Field("take_profit_percent", Num(takeProfit)),
     Field("trailing_stop_enabled", VBool(trailing)), Field("trailing_stop_percent", Num(trailingPercent)),
     Field("max_daily_loss_percent", Num(5.0)), Field("max_drawdown_percent", Num(15.0))]
  }

  /** An `EntryRules`; news are avoided in every built-in. */
  function EntryFields(confirmations: real, strength: real, sessions: seq<string>,
                       minVolatility: real, maxVolatility: real): Dict {
    [Field("required_confirmations", Num(confirmations)), Field("min_signal_strength", Num(strength)),
     Field("allowed_time_sessions", Strings(sessions)), Field("avoid_high_impact_news", VBool(true)),
     Field("min_volatility", Num(minVolatility)), Field("max_volatility", Num(maxVolatility))]
  }

  /** An `ExitRules`. */
  function ExitFields(trailing: bool, opposite: bool, hours: real, partial: bool, levels: seq<real>): Dict {
    [Field("use_trailing_stop", VBool(trailing)), Field("exit_on_opposite_signal", VBool(opposite)),
     Field("max_trade_duration_hours", Num(hours)), Field("partial_exit_enabled", VBool(partial)),
     Field("partial_exit_levels", VList(seq(|levels|, i requires 0 <= i < |levels| => Num(levels[i]))))]
  }

  function Params2(k1: string, v1: real, k2: string, v2: real): Dict {
    [Field(k1, Num(v1)), Field(k2, Num(v2))]
  }

  function Params3(k1: string, v1: real, k2: string, v2: real, k3: string, v3: real): Dict {
    [Field(k1, Num(v1)), Field(k2, Num(v2)), Field(k3, Num(v3))]
  }

  function Indicator(name: string, parameters: Dict, weight: real): IndicatorConfig {
    IndicatorConfig(name, true, parameters, weight)
  }

  function ScalpingTemplate(): Template {
    Template("High Frequency Scalping", Scalping, Strings(["BTCUSDT", "ETHUSDT", "EURUSD"]), M5,
      [Indicator("EMA", Params2("fast_period", 5.0, "slow_period", 20.0), 1.2),
       Indicator("RSI", Params3("period", 7.0, "oversold", 30.0, "overbought", 70.0), 1.0),
       Indicator("MACD", Params3("fast", 12.0, "slow", 26.0, "signal", 9.0), 0.8)],
      EntryFields(2.0, 0.7, ["overlap_european_american", "overlap_asian_european"], 1.0, 5.0),
      ExitFields(true, true, 2.0, false, [50.0, 75.0]),
      RiskFields(5.0, 5.0, 1.0, 2.0, true, 0.5),
      "built-in")
  }

  function MomentumTemplate(): Template {
    Template("Trend Momentum Following", Momentum, Strings(["BTCUSDT", "EURUSD", "GBPUSD"]), H1,
      [Indicator("EMA", Params3("fast_period", 20.0, "slow_period", 50.0, "long_period", 200.0), 1.5),
       Indicator("ADX", Params2("period", 14.0, "trend_threshold", 25.0), 1.3),
       Indicator("MACD", Params3("fast", 12.0, "slow", 26.0, "signal", 9.0), 1.0)],
      EntryFields(2.0, 0.65, ["all"], 2.0, 15.0),
      ExitFields(true, false, 48.0, false, [50.0, 75.0]),
      RiskFields(15.0, 3.0, 3.0, 6.0, true, 2.0),
      "built-in")
  }

  function MeanReversionTemplate(): Template {
    Template("Mean Reversion Range Trading", MeanReversion, Strings(["EURUSD", "USDJPY", "GBPUSD"]), H4,
      [Indicator("Bollinger Bands", Params2("period", 20.0, "std_dev", 2.0), 1.5),
       Indicator("RSI", Params3("period", 14.0, "oversold", 30.0, "overbought", 70.0), 1.2),
       Indicator("Stochastic", Params2("k_period", 14.0, "d_period", 3.0), 1.0)],
      EntryFields(2.0, 0.6, ["all"], 0.5, 3.0),
      ExitFields(false, true, 72.0, true, [50.0]),
      RiskFields(12.0, 2.0, 2.5, 5.0, false, 1.5),
      "built-in")
  }

  function BreakoutTemplate(): Template {
    Template("Volatility Breakout", Breakout, Strings(["BTCUSDT", "ETHUSDT"]), H1,
      [Indicator("ATR", [Field("period", Num(14.0))], 1.5),
       Indicator("Volume", [Field("ma_period", Num(20.0))], 1.3),
       Indicator("Support/Resistance", [Field("lookback", Num(50.0))], 1.2)],
      EntryFields(2.0, 0.75, ["overlap_european_american"], 3.0, 20.0),
      ExitFields(true, true, 24.0, false, [50.0, 75.0]),
      RiskFields(10.0, 2.0, 2.0, 5.0, true, 1.5),
      "built-in")
  }

  /** The names `_initialize_default_templates` files the built-ins under;
      nothing in the service adds to or changes `templates_cache`
      afterwards. */
  predicate Known(name: string) {
    name == "scalping" || name == "momentum" || name == "mean_reversion" || name == "breakout"
  }

  /** The cached template of a known name, filed under its own type's name. */
  function Builtin(name: string): (t: Template)
    requires Known(name)
    ensures TypeName(t.strategyType) == name
    ensures t.createdByTemplate == "built-in"
  {
    if name == "scalping" then ScalpingTemplate()
    else if name == "momentum" then MomentumTemplate()
    else if name == "mean_reversion" then MeanReversionTemplate()
    else BreakoutTemplate()
  }

  /** `get_template`: the cached template, `None` for any other name. */
  function GetTemplate(name: string): (r: Option<Template>)
    ensures r.Some? <==> Known(name)
    ensures r.Some? ==> TypeName(r.value.strategyType) == name
  {
    if Known(name) then Some(Builtin(name)) else None
  }

  /** The keyword groups of strategy names, tested in this order. */
  predicate ScalpName(n: string) { Contains(n, "scalp") }
  predicate MomentumName(n: string) { Contains(n, "momentum") || Contains(n, "trend") }
  predicate ReversionName(n: string) { Contains(n, "reversion") || Contains(n, "range") }
  predicate BreakoutName(n: string) { Contains(n, "breakout") }

  // ------------------------------------------------------- recommendation

  /** Python's `needle in v`: a substring of text, an element of a list, a key
      of a dictionary; any other value raises `TypeError`. */
  function Mentions(v: Value, needle: string): (r: Result<bool>)
    ensures r.Err? <==> !(v.VStr? || v.VList? || v.VDict?)
    ensures v.VStr? ==> r == Ok(Contains(v.s, needle))
    ensures v.VList? ==> r == Ok(VStr(needle) in v.items)
    ensures v.VDict? ==> r == Ok(needle in Keys(v.fields))
  {
    match v
    case VStr(s) => Ok(Contains(s, needle))
    case VList(items) => Ok(VStr(needle) in items)
    case VDict(fields) => Ok(needle in Keys(fields))
    case _ => Err("TypeError")
  }

  /** The market conditions `recommend_template` reads, with its defaults. */
  function Volatility(m: Dict): Value { GetOr(m, "overall_volatility", VStr("medium")) }
  function MarketTrend(m: Dict): Value { GetOr(m, "market_trend", VStr("sideways")) }
  function TimeOfDay(m: Dict): Value { GetOr(m, "time_of_day", VStr("all")) }

  /** In an overlap session: only asked when the volatility is high. */
  predicate Overlapping(m: Dict) {
    Mentions(TimeOfDay(m), "overlap") == Ok(true)
  }

  /** `recommend_template`: a built-in template name, by the first rule that
      applies; the membership test raises when it meets a value that is no
      container. */
  function RecommendTemplate(m: Dict): (r: Result<string>)
    ensures r.Err? <==> Volatility(m) == VStr("high") && Mentions(TimeOfDay(m), "overlap").Err?
    ensures r.Ok? ==> Known(r.value)
    ensures r == Ok("scalping") <==> Volatility(m) == VStr("high") && Overlapping(m)
    ensures r == Ok("mean_reversion") <==> Volatility(m) == VStr("low") && MarketTrend(m) == VStr("sideways")
    ensures r == Ok("breakout") <==>
      Volatility(m) == VStr("high") && Mentions(TimeOfDay(m), "overlap") == Ok(false)
      && MarketTrend(m) != VStr("sideways")
    ensures r.Ok? && Volatility(m) == VStr("medium") ==> r.value == "momentum"
  {
    var volatility := Volatility(m);
    var trend := MarketTrend(m);
    var overlap := if volatility == VStr("high") then Mentions(TimeOfDay(m), "overlap") else Ok(false);
    if overlap.Err? then Err("TypeError")
    else if overlap.value then Ok("scalping")
    else if (trend == VStr("bullish") || trend == VStr("bearish")) && volatility == VStr("medium") then Ok("momentum")
    else if volatility == VStr("low") && trend == VStr("sideways") then Ok("mean_reversion")
    else if volatility == VStr("high") && trend != VStr("sideways") then Ok("breakout")
    else Ok("momentum")
  }

  // ------------------------------------------------------------ risk score

  /** An attribute read as a number: a missing attribute raises
      `AttributeError`, arithmetic on a value that is no number `TypeError`. */
  function Attr(d: Dict, key: string): (r: Result<real>)
    ensures r.Ok? <==> key in Keys(d) && Numeric(Get(d, key).value).Some?
    ensures r.Ok? ==> r.value == Numeric(Get(d, key).value).value
  {
    match Get(d, key)
    case None => Err("AttributeError")
    case Some(v) => if Numeric(v).None? then Err("TypeError") else Ok(Numeric(v).value)
  }

  datatype Risk = LowRisk | MediumRisk | HighRisk

  function Rank(r: Risk): nat {
    match r
    case LowRisk => 0
    case MediumRisk => 1
    case HighRisk => 2
  }

  /** Below 20 low, below 40 medium, otherwise high. */
  function Classify(score: real): (r: Risk)
    ensures r.LowRisk? <==> score < 20.0
    ensures r.MediumRisk? <==> 20.0 <= score < 40.0
    ensures r.HighRisk? <==> score >= 40.0
  {
    if score < 20.0 then LowRisk else if score < 40.0 then MediumRisk else HighRisk
  }

  /** A higher score never gets a lower rating. */
  lemma ClassifyMonotone(a: real, b: real)
    requires a <= b
    ensures Rank(Classify(a)) <= Rank(Classify(b))
  {
  }

  /** `0.3 * size + 2 * positions + 5 * stop_loss`. */
  function RiskScore(size: real, positions: real, stopLoss: real): real {
    size * 0.3 + positions * 2.0 + stopLoss * 5.0
  }

  /** `_calculate_risk_score`. */
  function CalculateRiskScore(t: Template): (r: Result<Risk>)
    ensures r.Ok? <==> Attr(t.risk, "max_position_size_percent").Ok? && Attr(t.risk, "max_positions").Ok?
                       && Attr(t.risk, "stop_loss_percent").Ok?
    ensures r.Ok? ==> r.value == Classify(RiskScore(Attr(t.risk, "max_position_size_percent").value,
                                                    Attr(t.risk, "max_positions").value,
                                                    Attr(t.risk, "stop_loss_percent").value))
  {
    var size :- Attr(t.risk, "max_position_size_percent");
    var positions :- Attr(t.risk, "max_positions");
    var stopLoss :- Attr(t.risk, "stop_loss_percent");
    Ok(Classify(RiskScore(size, positions, stopLoss)))
  }

  /** Raising any of the three inputs never lowers the rating. */
  lemma RiskScoreMonotone(size: real, positions: real, stopLoss: real, size': real, positions': real, stopLoss': real)
    requires size <= size' && positions <= positions' && stopLoss <= stopLoss'
    ensures Rank(Classify(RiskScore(size, positions, stopLoss))) <= Rank(Classify(RiskScore(size', positions', stopLoss')))
  {
    ClassifyMonotone(RiskScore(size, positions, stopLoss), RiskScore(size', positions', stopLoss'));
  }

  /** The numeric attributes of a built-in risk management. */
  lemma RiskAttrs(size: real, positions: real, stopLoss: real, takeProfit: real, trailing: bool, trailingPercent: real)
    ensures var d := RiskFields(size, positions, stopLoss, takeProfit, trailing, trailingPercent);
      && Attr(d, "max_position_size_percent") == Ok(size)
      && Attr(d, "max_positions") == Ok(positions)
      && Attr(d, "stop_loss_percent") == Ok(stopLoss)
      && Attr(d, "take_profit_percent") == Ok(takeProfit)
      && Attr(d, "max_drawdown_percent") == Ok(15.0)
  {
    var d := RiskFields(size, positions, stopLoss, takeProfit, trailing, trailingPercent);
    IndexOfFirst(d, "max_position_size_percent", 0);
    IndexOfFirst(d, "max_positions", 1);
    IndexOfFirst(d, "stop_loss_percent", 2);
    IndexOfFirst(d, "take_profit_percent", 3);
    IndexOfFirst(d, "max_drawdown_percent", 7);
  }

  /** The ratings of the built-ins: scalping 16.5 and breakout 17 are low,
      momentum 25.5 and mean reversion 20.1 medium. */
  lemma BuiltinRisks()
    ensures CalculateRiskScore(ScalpingTemplate()) == Ok(LowRisk)
    ensures CalculateRiskScore(MomentumTemplate()) == Ok(MediumRisk)
    ensures CalculateRiskScore(MeanReversionTemplate()) == Ok(MediumRisk)
    ensures CalculateRiskScore(BreakoutTemplate()) == Ok(LowRisk)
  {
    RiskAttrs(5.0, 5.0, 1.0, 2.0, true, 0.5);
    RiskAttrs(15.0, 3.0, 3.0, 6.0, true, 2.0);
    RiskAttrs(12.0, 2.0, 2.5, 5.0, false, 1.5);
    RiskAttrs(10.0, 2.0, 2.0, 5.0, true, 1.5);
    assert RiskScore(5.0, 5.0, 1.0) == 16.5;
    assert RiskScore(15.0, 3.0, 3.0) == 25.5;
    assert RiskScore(12.0, 2.0, 2.5) == 20.1;
    assert RiskScore(10.0, 2.0, 2.0) == 17.0;
  }

  // ------------------------------------------------------------ auto-adjust

  /** The numeric attributes of a built-in entry rule set. */
  lemma EntryAttrs(confirmations: real, strength: real, sessions: seq<string>, minVolatility: real, maxVolatility: real)
    ensures var d := EntryFields(confirmations, strength, sessions, minVolatility, maxVolatility);
      && Attr(d, "required_confirmations") == Ok(confirmations)
      && Attr(d, "min_signal_strength") == Ok(strength)
  {
    var d := EntryFields(confirmations, strength, sessions, minVolatility, maxVolatility);
    IndexOfFirst(d, "required_confirmations", 0);
    IndexOfFirst(d, "min_signal_strength", 1);
  }

  /** Writing a number and reading it back as one. */
  lemma AttrPut(d: Dict, key: string, x: real)
    ensures Attr(Put(d, key, VNum(x)), key) == Ok(x)
    ensures forall k :: k != key ==> Attr(Put(d, key, VNum(x)), k) == Attr(d, k)
  {
  }

  /** `max(1, positions - 1)`. */
  function OneFewer(positions: real): (r: real)
    ensures r >= 1.0 && r >= positions - 1.0 && (r == 1.0 || r == positions - 1.0)
  {
    if positions - 1.0 > 1.0 then positions - 1.0 else 1.0
  }

  /** The entry-rule part of `auto_adjust_template_parameters`: a win rate
      below 0.4 asks for one more confirmation and 0.1 more strength; above
      0.7 the strength drops by 0.05 when it is above 0.5. */
  function AdjustEntry(e: Dict, winRate: real): (r: Result<Dict>)
    ensures r.Ok? ==> Keys(r.value) == Keys(e)
    ensures r.Ok? ==> forall k :: k != "required_confirmations" && k != "min_signal_strength" ==> Get(r.value, k) == Get(e, k)
    ensures winRate < 0.4 ==>
      (r.Ok? <==> Attr(e, "required_confirmations").Ok? && Attr(e, "min_signal_strength").Ok?)
    ensures winRate < 0.4 && r.Ok? ==> (
      && Attr(r.value, "required_confirmations") == Ok(Shift(Attr(e, "required_confirmations").value, 1.0))
      && Attr(r.value, "min_signal_strength") == Ok(Shift(Attr(e, "min_signal_strength").value, 0.1)))
    ensures winRate > 0.7 ==> (r.Ok? <==> Attr(e, "min_signal_strength").Ok?)
    ensures winRate > 0.7 && r.Ok? ==> (
      && Get(r.value, "required_confirmations") == Get(e, "required_confirmations")
      && var s := Attr(e, "min_signal_strength").value;
         Attr(r.value, "min_signal_strength") == Ok(if s > 0.5 then Shift(s, -0.05) else s))
    ensures 0.4 <= winRate <= 0.7 ==> r == Ok(e)
  {
    if winRate < 0.4 then
      var c :- Attr(e, "required_confirmations");
      var e1 := Put(e, "required_confirmations", VNum(Shift(c, 1.0)));
      AttrPut(e, "required_confirmations", Shift(c, 1.0));
      var s :- Attr(e1, "min_signal_strength");
      AttrPut(e1, "min_signal_strength", Shift(s, 0.1));
      Ok(Put(e1, "min_signal_strength", VNum(Shift(s, 0.1))))
    else if winRate > 0.7 then
      var s :- Attr(e, "min_signal_strength");
      AttrPut(e, "min_signal_strength", Shift(s, -0.05));
      if s > 0.5 then Ok(Put(e, "min_signal_strength", VNum(Shift(s, -0.05)))) else Ok(e)
    else Ok(e)
  }

  /** The drawdown part: beyond 70% of the template's drawdown limit the
      position size shrinks to 80% and one position fewer is allowed, never
      fewer than one. */
  function AdjustRisk(risk: Dict, drawdown: real): (r: Result<Dict>)
    ensures r.Ok? ==> Keys(r.value) == Keys(risk)
    ensures r.Ok? ==> forall k :: k != "max_position_size_percent" && k != "max_positions" ==> Get(r.value, k) == Get(risk, k)
    ensures r.Ok? <==> (
      && Attr(risk, "max_drawdown_percent").Ok?
      && (drawdown > Scale(Attr(risk, "max_drawdown_percent").value, 0.7) ==>
            Attr(risk, "max_position_size_percent").Ok? && Attr(risk, "max_positions").Ok?))
    ensures r.Ok? ==> Attr(risk, "max_drawdown_percent").Ok?
    ensures r.Ok? && drawdown > Scale(Attr(risk, "max_drawdown_percent").value, 0.7) ==>
      && Attr(risk, "max_position_size_percent").Ok? && Attr(risk, "max_positions").Ok?
      && Attr(r.value, "max_position_size_percent") == Ok(Scale(Attr(risk, "max_position_size_percent").value, 0.8))
      && Attr(r.value, "max_positions") == Ok(OneFewer(Attr(risk, "max_positions").value))
    ensures r.Ok? && drawdown <= Scale(Attr(risk, "max_drawdown_percent").value, 0.7) ==> r.value == risk
  {
    var limit := Attr(risk, "max_drawdown_percent");
    var size := Attr(risk, "max_position_size_percent");
    var positions := Attr(risk, "max_positions");
    if limit.Err? then Err(limit.error)
    else if drawdown <= Scale(limit.value, 0.7) then Ok(risk)
    else if size.Err? then Err(size.error)
    else if positions.Err? then Err(positions.error)
    else
      var r1 := Put(risk, "max_position_size_percent", VNum(Scale(size.value, 0.8)));
      AttrPut(risk, "max_position_size_percent", Scale(size.value, 0.8));
      AttrPut(r1, "max_positions", OneFewer(positions.value));
      var r2 := Put(r1, "max_positions", VNum(OneFewer(positions.value)));
      assert |"max_position_size_percent"| != |"max_positions"|;
      assert Attr(r2, "max_position_size_percent") == Attr(r1, "max_position_size_percent");
      Ok(r2)
  }

  /** The profit part: an average profit strictly between 0 and the stop
      loss raises the take profit by 20%.  The chained comparison reads the
      stop loss only for a positive profit. */
  function AdjustProfit(risk: Dict, profit: real): (r: Result<Dict>)
    ensures r.Ok? ==> Keys(r.value) == Keys(risk)
    ensures r.Ok? ==> forall k :: k != "take_profit_percent" ==> Get(r.value, k) == Get(risk, k)
    ensures profit <= 0.0 ==> r == Ok(risk)
    ensures profit > 0.0 ==> (r.Ok? <==> (
      && Attr(risk, "stop_loss_percent").Ok?
      && (profit < Attr(risk, "stop_loss_percent").value ==> Attr(risk, "take_profit_percent").Ok?)))
    ensures r.Ok? && profit > 0.0 && Attr(risk, "stop_loss_percent").Ok? && profit < Attr(risk, "stop_loss_percent").value ==>
      Attr(risk, "take_profit_percent").Ok? &&
      Attr(r.value, "take_profit_percent") == Ok(Scale(Attr(risk, "take_profit_percent").value, 1.2))
  {
    var stopLoss := Attr(risk, "stop_loss_percent");
    var takeProfit := Attr(risk, "take_profit_percent");
    if profit <= 0.0 then Ok(risk)
    else if stopLoss.Err? then Err(stopLoss.error)
    else if profit >= stopLoss.value then Ok(risk)
    else if takeProfit.Err? then Err(takeProfit.error)
    else
      AttrPut(risk, "take_profit_percent", Scale(takeProfit.value, 1.2));
      Ok(Put(risk, "take_profit_percent", VNum(Scale(takeProfit.value, 1.2))))
  }

  /** Every attribute the adjustment reads is a number. */
  predicate Tunable(t: Template) {
    EntryTunable(t.entryRules) && RiskTunable(t.risk)
  }

  predicate EntryTunable(e: Dict) {
    Attr(e, "required_confirmations").Ok? && Attr(e, "min_signal_strength").Ok?
  }

  predicate RiskTunable(risk: Dict) {
    && Attr(risk, "max_drawdown_percent").Ok? && Attr(risk, "max_position_size_percent").Ok?
    && Attr(risk, "max_positions").Ok? && Attr(risk, "stop_loss_percent").Ok?
    && Attr(risk, "take_profit_percent").Ok?
  }

  /** The entry step succeeds on numeric settings and keeps them numeric. */
  lemma EntryStep(e: Dict, winRate: real)
    requires EntryTunable(e)
    ensures AdjustEntry(e, winRate).Ok? && EntryTunable(AdjustEntry(e, winRate).value)
  {
  }

  /** The drawdown step succeeds on numeric settings, keeps them numeric
      and leaves the drawdown limit and the stop loss alone. */
  lemma RiskStep(risk: Dict, drawdown: real)
    requires RiskTunable(risk)
    ensures AdjustRisk(risk, drawdown).Ok? && RiskTunable(AdjustRisk(risk, drawdown).value)
  {
    var r := AdjustRisk(risk, drawdown).value;
    assert Get(r, "stop_loss_percent") == Get(risk, "stop_loss_percent");
    assert Get(r, "take_profit_percent") == Get(risk, "take_profit_percent");
  }

  lemma ProfitStep(risk: Dict, profit: real)
    requires RiskTunable(risk)
    ensures AdjustProfit(risk, profit).Ok? && RiskTunable(AdjustProfit(risk, profit).value)
  {
    var r := AdjustProfit(risk, profit).value;
    assert Get(r, "max_drawdown_percent") == Get(risk, "max_drawdown_percent");
    assert Get(r, "max_position_size_percent") == Get(risk, "max_position_size_percent");
    assert Get(r, "max_positions") == Get(risk, "max_positions");
    assert Get(r, "stop_loss_percent") == Get(risk, "stop_loss_percent");
  }

  /** Neither the drawdown step nor the profit step touches the drawdown
      limit or the stop loss. */
  lemma LimitsKept(risk: Dict, drawdown: real, profit: real)
    ensures AdjustRisk(risk, drawdown).Ok? && AdjustProfit(AdjustRisk(risk, drawdown).value, profit).Ok? ==>
      var r := AdjustProfit(AdjustRisk(risk, drawdown).value, profit).value;
      && Attr(r, "max_drawdown_percent") == Attr(risk, "max_drawdown_percent")
      && Attr(r, "stop_loss_percent") == Attr(risk, "stop_loss_percent")
  {
    if AdjustRisk(risk, drawdown).Ok? {
      RiskKeepsLimits(risk, drawdown);
      ProfitKeepsLimits(AdjustRisk(risk, drawdown).value, profit);
    }
  }

  lemma RiskKeepsLimits(risk: Dict, drawdown: real)
    ensures AdjustRisk(risk, drawdown).Ok? ==>
      && Get(AdjustRisk(risk, drawdown).value, "max_drawdown_percent") == Get(risk, "max_drawdown_percent")
      && Get(AdjustRisk(risk, drawdown).value, "stop_loss_percent") == Get(risk, "stop_loss_percent")
  {
  }

  lemma ProfitKeepsLimits(risk: Dict, profit: real)
    ensures AdjustProfit(risk, profit).Ok? ==>
      && Get(AdjustProfit(risk, profit).value, "max_drawdown_percent") == Get(risk, "max_drawdown_percent")
      && Get(AdjustProfit(risk, profit).value, "stop_loss_percent") == Get(risk, "stop_loss_percent")
  {
  }

  /** Each step of the adjustment succeeds and keeps the settings numeric. */
  predicate TunableSteps(t: Template, winRate: real, profit: real, drawdown: real) {
    && AdjustEntry(t.entryRules, winRate).Ok? && EntryTunable(AdjustEntry(t.entryRules, winRate).value)
    && AdjustRisk(t.risk, drawdown).Ok?
    && AdjustProfit(AdjustRisk(t.risk, drawdown).value, profit).Ok?
    && RiskTunable(AdjustProfit(AdjustRisk(t.risk, drawdown).value, profit).value)
  }

  /** The adjustments of `auto_adjust_template_parameters` applied to a copy
      of the template, for given win rate, average profit and drawdown. */
  function AdjustTemplate(t: Template, winRate: real, profit: real, drawdown: real): (r: Result<Template>)
    ensures Tunable(t) ==> r.Ok? && Tunable(r.value)
    ensures r.Ok? ==> r.value == t.(entryRules := r.value.entryRules, risk := r.value.risk)
    ensures r.Ok? ==> Attr(r.value.risk, "max_drawdown_percent") == Attr(t.risk, "max_drawdown_percent")
    ensures r.Ok? ==> Attr(r.value.risk, "stop_loss_percent") == Attr(t.risk, "stop_loss_percent")
  {
    assert Tunable(t) ==> TunableSteps(t, winRate, profit, drawdown) by {
      if Tunable(t) {
        EntryStep(t.entryRules, winRate);
        RiskStep(t.risk, drawdown);
        ProfitStep(AdjustRisk(t.risk, drawdown).value, profit);
      }
    }
    var entry :- AdjustEntry(t.entryRules, winRate);
    var risk1 :- AdjustRisk(t.risk, drawdown);
    var risk2 :- AdjustProfit(risk1, profit);
    LimitsKept(t.risk, drawdown, profit);
    Ok(t.(entryRules := entry, risk := risk2))
  }

  /** On numeric settings the adjustment is the three steps in turn. */
  lemma AdjustTemplateOf(t: Template, winRate: real, profit: real, drawdown: real)
    requires Tunable(t)
    ensures AdjustEntry(t.entryRules, winRate).Ok? && AdjustRisk(t.risk, drawdown).Ok?
    ensures AdjustProfit(AdjustRisk(t.risk, drawdown).value, profit).Ok?
    ensures AdjustTemplate(t, winRate, profit, drawdown) ==
      Ok(t.(entryRules := AdjustEntry(t.entryRules, winRate).value,
            risk := AdjustProfit(AdjustRisk(t.risk, drawdown).value, profit).value))
  {
    EntryStep(t.entryRules, winRate);
    RiskStep(t.risk, drawdown);
    ProfitStep(AdjustRisk(t.risk, drawdown).value, profit);
  }

  /** A middling win rate, no profit and no drawdown change nothing, as long
      as the drawdown limit is not negative. */
  lemma AdjustNeutral(t: Template)
    requires Tunable(t) && Scale(Attr(t.risk, "max_drawdown_percent").value, 0.7) >= 0.0
    ensures AdjustTemplate(t, 0.5, 0.0, 0.0) == Ok(t)
  {
    AdjustTemplateOf(t, 0.5, 0.0, 0.0);
    assert AdjustEntry(t.entryRules, 0.5) == Ok(t.entryRules);
    assert AdjustRisk(t.risk, 0.0) == Ok(t.risk);
    assert AdjustProfit(t.risk, 0.0) == Ok(t.risk);
  }

  /** What the adjustment does to the entry rules: one more confirmation
      below a 0.4 win rate, the same number otherwise. */
  lemma AdjustTemplateEntry(t: Template, winRate: real, profit: real, drawdown: real)
    requires Tunable(t)
    ensures var r := AdjustTemplate(t, winRate, profit, drawdown);
      && r.Ok?
      && Attr(r.value.entryRules, "required_confirmations") ==
           (if winRate < 0.4 then Ok(Shift(Attr(t.entryRules, "required_confirmations").value, 1.0))
            else Attr(t.entryRules, "required_confirmations"))
  {
    AdjustTemplateOf(t, winRate, profit, drawdown);
  }

  /** What the adjustment does to the position limits: beyond 70% of the
      drawdown limit, 80% of the size and one position fewer; otherwise
      both unchanged. */
  lemma AdjustTemplateRisk(t: Template, winRate: real, profit: real, drawdown: real)
    requires Tunable(t)
    ensures var r := AdjustTemplate(t, winRate, profit, drawdown);
      var over := drawdown > Scale(Attr(t.risk, "max_drawdown_percent").value, 0.7);
      && r.Ok?
      && Attr(r.value.risk, "max_positions") ==
           (if over then Ok(OneFewer(Attr(t.risk, "max_positions").value)) else Attr(t.risk, "max_positions"))
      && Attr(r.value.risk, "max_position_size_percent") ==
           (if over then Ok(Scale(Attr(t.risk, "max_position_size_percent").value, 0.8))
            else Attr(t.risk, "max_position_size_percent"))
  {
    AdjustTemplateOf(t, winRate, profit, drawdown);
    RiskStep(t.risk, drawdown);
    PositionsKept(AdjustRisk(t.risk, drawdown).value, profit);
  }

  /** The profit step leaves the position limits alone. */
  lemma PositionsKept(risk: Dict, profit: real)
    requires AdjustProfit(risk, profit).Ok?
    ensures Attr(AdjustProfit(risk, profit).value, "max_positions") == Attr(risk, "max_positions")
    ensures Attr(AdjustProfit(risk, profit).value, "max_position_size_percent") == Attr(risk, "max_position_size_percent")
  {
    var r := AdjustProfit(risk, profit).value;
    assert Get(r, "max_positions") == Get(risk, "max_positions");
    assert Get(r, "max_position_size_percent") == Get(risk, "max_position_size_percent");
  }
  /** Every built-in can be adjusted: all the attributes the adjustment
      reads are numbers. */
  lemma BuiltinTunable(name: string)
    requires Known(name)
    ensures Tunable(Builtin(name))
  {
    if name == "scalping" {
      EntryAttrs(2.0, 0.7, ["overlap_european_american", "overlap_asian_european"], 1.0, 5.0);
      RiskAttrs(5.0, 5.0, 1.0, 2.0, true, 0.5);
    } else if name == "momentum" {
      EntryAttrs(2.0, 0.65, ["all"], 2.0, 15.0);
      RiskAttrs(15.0, 3.0, 3.0, 6.0, true, 2.0);
    } else if name == "mean_reversion" {
      EntryAttrs(2.0, 0.6, ["all"], 0.5, 3.0);
      RiskAttrs(12.0, 2.0, 2.5, 5.0, false, 1.5);
    } else {
      EntryAttrs(2.0, 0.75, ["overlap_european_american"], 3.0, 20.0);
      RiskAttrs(10.0, 2.0, 2.0, 5.0, true, 1.5);
    }
  }

  /** A performance figure with its default; comparing anything but a
      number with a number raises `TypeError`. */
  function Figure(perf: Dict, key: string, default: real): (r: Result<real>)
    ensures r.Ok? <==> Numeric(GetOr(perf, key, VNum(default))).Some?
    ensures key !in Keys(perf) ==> r == Ok(default)
    ensures r.Ok? ==> r.value == Numeric(GetOr(perf, key, VNum(default))).value
  {
    Need(Numeric(GetOr(perf, key, VNum(default))), "TypeError")
  }

  /** The performance figures are usable: each is missing or a number. */
  predicate Readable(perf: Dict) {
    Figure(perf, "win_rate", 0.5).Ok? && Figure(perf, "average_profit", 0.0).Ok?
    && Figure(perf, "max_drawdown", 0.0).Ok?
  }

  /** `auto_adjust_template_parameters`: an unknown name raises
      `ValueError`; otherwise a copy of the cached template adjusted to the
      win rate (default 0.5), the average profit (default 0) and the maximum
      drawdown (default 0).  The cache itself is a constant and never
      changes. */
  function AutoAdjust(name: string, perf: Dict): (r: Result<Template>)
    ensures r.Err? <==> !Known(name) || !Readable(perf)
    ensures !Known(name) ==> r == Err("ValueError")
    ensures r.Ok? ==> Tunable(r.value)
    ensures r.Ok? ==> r.value == Builtin(name).(entryRules := r.value.entryRules, risk := r.value.risk)
  {
    var t := GetTemplate(name);
    if t.None? then Err("ValueError")
    else
      var winRate :- Figure(perf, "win_rate", 0.5);
      var profit :- Figure(perf, "average_profit", 0.0);
      var drawdown :- Figure(perf, "max_drawdown", 0.0);
      BuiltinTunable(name);
      AdjustTemplate(t.value, winRate, profit, drawdown)
  }

  /** The attributes of the built-ins that the adjustment lemmas rely on:
      two confirmations, a 15% drawdown limit, a positive size and at least
      two positions. */
  lemma BuiltinAttrs(name: string)
    requires Known(name)
    ensures var t := Builtin(name);
      && Attr(t.entryRules, "required_confirmations") == Ok(2.0)
      && Attr(t.risk, "max_drawdown_percent") == Ok(15.0)
      && Attr(t.risk, "max_position_size_percent").Ok? && Attr(t.risk, "max_position_size_percent").value > 0.0
      && Attr(t.risk, "max_positions").Ok? && Attr(t.risk, "max_positions").value >= 2.0
  {
    if name == "scalping" {
      EntryAttrs(2.0, 0.7, ["overlap_european_american", "overlap_asian_european"], 1.0, 5.0);
      RiskAttrs(5.0, 5.0, 1.0, 2.0, true, 0.5);
    } else if name == "momentum" {
      EntryAttrs(2.0, 0.65, ["all"], 2.0, 15.0);
      RiskAttrs(15.0, 3.0, 3.0, 6.0, true, 2.0);
    } else if name == "mean_reversion" {
      EntryAttrs(2.0, 0.6, ["all"], 0.5, 3.0);
      RiskAttrs(12.0, 2.0, 2.5, 5.0, false, 1.5);
    } else {
      EntryAttrs(2.0, 0.75, ["overlap_european_american"], 3.0, 20.0);
      RiskAttrs(10.0, 2.0, 2.0, 5.0, true, 1.5);
    }
  }

  /** For a known name and usable figures, `AutoAdjust` is the adjustment
      of the built-in to those figures. */
  lemma AutoAdjustOf(name: string, perf: Dict)
    requires Known(name) && Readable(perf)
    ensures AutoAdjust(name, perf) == AdjustTemplate(Builtin(name), Figure(perf, "win_rate", 0.5).value,
      Figure(perf, "average_profit", 0.0).value, Figure(perf, "max_drawdown", 0.0).value)
  {
  }

  /** With no performance figures at all (win rate 0.5, no profit, no
      drawdown) a built-in comes back unchanged. */
  lemma AutoAdjustNeutral(name: string)
    requires Known(name)
    ensures AutoAdjust(name, []) == Ok(Builtin(name))
  {
    BuiltinTunable(name);
    BuiltinAttrs(name);
    AutoAdjustOf(name, []);
    assert Scale(15.0, 0.7) == 10.5;
    AdjustNeutral(Builtin(name));
  }

  /** A low win rate on a built-in asks for exactly one more confirmation:
      every built-in requires two, so the result requires three. */
  lemma AutoAdjustLowWinRate(name: string, perf: Dict)
    requires Known(name) && Readable(perf)
    requires Figure(perf, "win_rate", 0.5).value < 0.4
    ensures AutoAdjust(name, perf).Ok?
    ensures Attr(AutoAdjust(name, perf).value.entryRules, "required_confirmations") == Ok(3.0)
  {
    var t := Builtin(name);
    BuiltinTunable(name);
    BuiltinAttrs(name);
    AutoAdjustOf(name, perf);
    var w, p, d := Figure(perf, "win_rate", 0.5).value, Figure(perf, "average_profit", 0.0).value,
                   Figure(perf, "max_drawdown", 0.0).value;
    AdjustTemplateEntry(t, w, p, d);
    assert Shift(2.0, 1.0) == 3.0;
  }

  /** The adjustment never makes a template riskier: the position size only
      shrinks and the number of positions only drops, as long as the size is
      not negative and at least one position is allowed. */
  lemma AdjustNoRiskier(t: Template, winRate: real, profit: real, drawdown: real)
    ensures (Tunable(t) && Attr(t.risk, "max_position_size_percent").value >= 0.0
             && Attr(t.risk, "max_positions").value >= 1.0) ==>
      && CalculateRiskScore(t).Ok? && CalculateRiskScore(AdjustTemplate(t, winRate, profit, drawdown).value).Ok?
      && Rank(CalculateRiskScore(AdjustTemplate(t, winRate, profit, drawdown).value).value)
         <= Rank(CalculateRiskScore(t).value)
  {
    if !Tunable(t) || Attr(t.risk, "max_position_size_percent").value < 0.0
      || Attr(t.risk, "max_positions").value < 1.0 {
      return;
    }
    var a := AdjustTemplate(t, winRate, profit, drawdown).value;
    AdjustTemplateRisk(t, winRate, profit, drawdown);
    var size, positions, stopLoss := Attr(t.risk, "max_position_size_percent").value,
      Attr(t.risk, "max_positions").value, Attr(t.risk, "stop_loss_percent").value;
    var size', positions' := Attr(a.risk, "max_position_size_percent").value, Attr(a.risk, "max_positions").value;
    assert size' <= size && positions' <= positions;
    RiskScoreMonotone(size', positions', stopLoss, size, positions, stopLoss);
  }

  /** The built-ins qualify: no adjustment makes one of them riskier. */
  lemma AutoAdjustNoRiskier(name: string, perf: Dict)
    requires Known(name) && Readable(perf)
    ensures CalculateRiskScore(Builtin(name)).Ok?
    ensures AutoAdjust(name, perf).Ok? && CalculateRiskScore(AutoAdjust(name, perf).value).Ok?
    ensures Rank(CalculateRiskScore(AutoAdjust(name, perf).value).value) <= Rank(CalculateRiskScore(Builtin(name)).value)
  {
    var t := Builtin(name);
    BuiltinTunable(name);
    BuiltinAttrs(name);
    AutoAdjustOf(name, perf);
    var w, p, d := Figure(perf, "win_rate", 0.5).value, Figure(perf, "average_profit", 0.0).value,
                   Figure(perf, "max_drawdown", 0.0).value;
    AdjustNoRiskier(t, w, p, d);
    var a := AdjustTemplate(t, w, p, d);
    assert AutoAdjust(name, perf) == a;
    assert Rank(CalculateRiskScore(a.value).value) <= Rank(CalculateRiskScore(t).value);
  }
  // ------------------------------------------------------ custom parameters

  /** The loop of `_apply_custom_params` over one dataclass: each update
      whose key is already an attribute is set, any other is ignored. */
  function SetExisting(d: Dict, updates: Dict): (r: Dict)
    ensures Keys(r) == Keys(d)
    ensures forall k :: k !in Keys(updates) ==> Get(r, k) == Get(d, k)
    decreases |updates|
  {
    if |updates| == 0 then d
    else
      var f := updates[0];
      var next := if f.key in Keys(d) then Put(d, f.key, f.val) else d;
      KeysCons(updates);
      SetExisting(next, updates[1..])
  }

  /** An attribute that the updates name takes the update's value; every
      other attribute keeps its own. */
  lemma {:induction false} SetExistingGet(d: Dict, updates: Dict, k: string)
    requires UniqueKeys(updates)
    ensures Get(SetExisting(d, updates), k) ==
      (if k in Keys(d) && k in Keys(updates) then Get(updates, k) else Get(d, k))
    decreases |updates|
  {
    if |updates| > 0 {
      var f := updates[0];
      var next := if f.key in Keys(d) then Put(d, f.key, f.val) else d;
      assert SetExisting(d, updates) == SetExisting(next, updates[1..]);
      KeysCons(updates);
      UniqueTail(updates);
      if f.key == k {
        IndexOfFirst(updates, k, 0);
        assert k !in Keys(updates[1..]);
      } else {
        GetTail(updates, k);
        SetExistingGet(next, updates[1..], k);
      }
    }
  }

  /** One of the dataclass updates: no entry leaves the fields alone;
      anything but a dictionary has no `.items()` and raises
      `AttributeError`. */
  function Overlay(fields: Dict, custom: Dict, key: string): (r: Result<Dict>)
    ensures r.Err? <==> key in Keys(custom) && !Get(custom, key).value.VDict?
    ensures key !in Keys(custom) ==> r == Ok(fields)
    ensures r.Ok? ==> Keys(r.value) == Keys(fields)
  {
    match Get(custom, key)
    case None => Ok(fields)
    case Some(VDict(updates)) => Ok(SetExisting(fields, updates))
    case Some(_) => Err("AttributeError")
  }

  /** `_apply_custom_params`: a copy of the template with the given assets,
      timeframe, and existing risk and entry attributes replaced.  A
      timeframe that is not one of the codes raises `ValueError`. */
  function ApplyCustomParams(t: Template, custom: Dict): (r: Result<Template>)
    ensures r.Err? <==> (
      || ("timeframe" in Keys(custom) && ParseTimeFrame(Get(custom, "timeframe").value).None?)
      || Overlay(t.risk, custom, "risk_management").Err?
      || Overlay(t.entryRules, custom, "entry_rules").Err?)
    ensures r.Ok? ==> r.value == t.(assets := r.value.assets, timeframe := r.value.timeframe,
                                     risk := r.value.risk, entryRules := r.value.entryRules)
    ensures r.Ok? ==> r.value.assets == GetOr(custom, "assets", t.assets)
    ensures r.Ok? && "timeframe" !in Keys(custom) ==> r.value.timeframe == t.timeframe
    ensures r.Ok? && "timeframe" in Keys(custom) ==> Get(custom, "timeframe") == Some(VStr(Code(r.value.timeframe)))
    ensures r.Ok? ==> Keys(r.value.risk) == Keys(t.risk) && Keys(r.value.entryRules) == Keys(t.entryRules)
  {
    var tf :- if "timeframe" in Keys(custom) then Need(ParseTimeFrame(Get(custom, "timeframe").value), "ValueError")
              else Ok(t.timeframe);
    var risk :- Overlay(t.risk, custom, "risk_management");
    var entry :- Overlay(t.entryRules, custom, "entry_rules");
    Ok(t.(assets := GetOr(custom, "assets", t.assets), timeframe := tf, risk := risk, entryRules := entry))
  }

  /** After `_apply_custom_params` a risk attribute holds the custom value
      when the template has it and the custom risk block names it, and its
      old value otherwise; keys the template lacks stay absent. */
  lemma ApplyCustomRisk(t: Template, custom: Dict, updates: Dict, k: string)
    requires Get(custom, "risk_management") == Some(VDict(updates)) && UniqueKeys(updates)
    requires ApplyCustomParams(t, custom).Ok?
    ensures Get(ApplyCustomParams(t, custom).value.risk, k) ==
      (if k in Keys(t.risk) && k in Keys(updates) then Get(updates, k) else Get(t.risk, k))
  {
    assert ApplyCustomParams(t, custom).value.risk == SetExisting(t.risk, updates);
    SetExistingGet(t.risk, updates, k);
  }

  /** The same for the entry rules. */
  lemma ApplyCustomEntry(t: Template, custom: Dict, updates: Dict, k: string)
    requires Get(custom, "entry_rules") == Some(VDict(updates)) && UniqueKeys(updates)
    requires ApplyCustomParams(t, custom).Ok?
    ensures Get(ApplyCustomParams(t, custom).value.entryRules, k) ==
      (if k in Keys(t.entryRules) && k in Keys(updates) then Get(updates, k) else Get(t.entryRules, k))
  {
    assert ApplyCustomParams(t, custom).value.entryRules == SetExisting(t.entryRules, updates);
    SetExistingGet(t.entryRules, updates, k);
  }

  // ------------------------------------------------------------ comparison

  /** One entry of `compare_templates`. */
  datatype Comparison = Comparison(
    name: string, strategyType: string, timeframe: string, riskLevel: Risk,
    complexity: nat, recommendedFor: seq<string>)

  /** `_get_recommended_conditions`: three conditions for each type with a
      built-in, none for the others. */
  function RecommendedConditions(ty: StrategyType): (r: seq<string>)
    ensures |r| == 0 <==> ty.Swing? || ty.Contrarian?
  {
    match ty
    case Scalping => ["high_volatility", "peak_hours", "tight_spreads"]
    case Momentum => ["trending_market", "medium_volatility", "clear_direction"]
    case MeanReversion => ["low_volatility", "ranging_market", "established_levels"]
    case Breakout => ["high_volume", "approaching_key_levels", "increasing_volatility"]
    case _ => []
  }

  /** The built-in ratings, by name. */
  lemma BuiltinRisk(name: string)
    requires Known(name)
    ensures CalculateRiskScore(Builtin(name)).Ok?
  {
    BuiltinRisks();
  }

  /** The comparison entry of a known template. */
  function Summary(name: string): (c: Comparison)
    requires Known(name)
    ensures c.name == name && c.strategyType == name
    ensures c.complexity == |Builtin(name).indicators|
    ensures c.timeframe == Code(Builtin(name).timeframe)
  {
    var t := Builtin(name);
    BuiltinRisk(name);
    Comparison(name, TypeName(t.strategyType), Code(t.timeframe), CalculateRiskScore(t).value,
               |t.indicators|, RecommendedConditions(t.strategyType))
  }

  /** The reported risk level is `_calculate_risk_score` of the built-in. */
  lemma SummaryRisk(name: string)
    requires Known(name)
    ensures CalculateRiskScore(Builtin(name)) == Ok(Summary(name).riskLevel)
  {
    BuiltinRisk(name);
  }

  function Names(cs: seq<Comparison>): (r: seq<string>)
    ensures |r| == |cs| && forall i :: 0 <= i < |cs| ==> r[i] == cs[i].name
  {
    seq(|cs|, i requires 0 <= i < |cs| => cs[i].name)
  }

  lemma NamesSnoc(cs: seq<Comparison>, c: Comparison)
    ensures Names(cs + [c]) == Names(cs) + [c.name]
  {
  }

  /** A prefix of a prefix. */
  lemma PrefixPrefix(r: seq<Comparison>, next: seq<Comparison>, acc: seq<Comparison>)
    requires |next| <= |r| && r[..|next|] == next && |acc| <= |next| && next[..|acc|] == acc
    ensures r[..|acc|] == acc
  {
    assert r[..|acc|] == r[..|next|][..|acc|];
  }

  /** An entry of the comparison: the summary of a known template. */
  predicate IsSummary(c: Comparison) {
    Known(c.name) && c == Summary(c.name)
  }

  /** The comparison so far: summaries of known templates, each name once. */
  ghost predicate Sound(cs: seq<Comparison>) {
    && (forall i :: 0 <= i < |cs| ==> IsSummary(cs[i]))
    && Distinct(cs)
  }

  ghost predicate Distinct(cs: seq<Comparison>) {
    forall i, j :: 0 <= i < j < |cs| ==> cs[i].name != cs[j].name
  }

  lemma SoundSnoc(acc: seq<Comparison>, n: string)
    requires Sound(acc) && Known(n) && n !in Names(acc)
    ensures Sound(acc + [Summary(n)])
  {
    var c := Summary(n);
    assert IsSummary(c);
    AllSnoc(acc, c, IsSummary);
    DistinctSnoc(acc, c);
  }

  /** A property of every element survives appending one more that has it. */
  lemma AllSnoc<T>(s: seq<T>, x: T, ok: T -> bool)
    requires forall i :: 0 <= i < |s| ==> ok(s[i])
    requires ok(x)
    ensures forall i :: 0 <= i < |s + [x]| ==> ok((s + [x])[i])
  {
    forall i | 0 <= i < |s + [x]|
      ensures ok((s + [x])[i])
    {
      if i < |s| { assert (s + [x])[i] == s[i]; }
    }
  }

  lemma DistinctSnoc(acc: seq<Comparison>, c: Comparison)
    requires Distinct(acc) && c.name !in Names(acc)
    ensures Distinct(acc + [c])
  {
    var next := acc + [c];
    forall i, j | 0 <= i < j < |next|
      ensures next[i].name != next[j].name
    {
      if j == |acc| { assert next[i].name == Names(acc)[i]; }
      else { assert next[i] == acc[i] && next[j] == acc[j]; }
    }
  }

  /** The walk of `compare_templates` after the names already seen gave
      `acc`. */
  function CompareFrom(names: seq<string>, acc: seq<Comparison>): (r: seq<Comparison>)
    ensures |acc| <= |r| <= |acc| + |names|
    decreases |names|
  {
    if |names| == 0 then acc
    else if !Known(names[0]) || names[0] in Names(acc) then CompareFrom(names[1..], acc)
    else CompareFrom(names[1..], acc + [Summary(names[0])])
  }

  /** The walk keeps what it has, adds only sound entries, and ends with
      exactly the known names seen so far. */
  lemma {:induction false} CompareFromSound(names: seq<string>, acc: seq<Comparison>)
    requires Sound(acc)
    ensures var r := CompareFrom(names, acc);
      && Sound(r) && r[..|acc|] == acc
      && forall n :: n in Names(r) <==> n in Names(acc) || (n in names && Known(n))
    decreases |names|
  {
    if |names| > 0 {
      var n := names[0];
      assert forall m :: m in names <==> m == n || m in names[1..];
      if !Known(n) || n in Names(acc) {
        CompareFromSound(names[1..], acc);
      } else {
        var c := Summary(n);
        var next := acc + [c];
        SoundSnoc(acc, n);
        NamesSnoc(acc, c);
        CompareFromSound(names[1..], next);
        PrefixPrefix(CompareFrom(names[1..], next), next, acc);
      }
    }
  }

  /** `compare_templates`: one entry per known name in the order the names
      first occur, unknown names skipped; the name list is walked once and a
      repeated name only rewrites its own entry with the same value. */
  function CompareTemplates(names: seq<string>): (r: seq<Comparison>)
    ensures Sound(r)
    ensures forall n :: n in Names(r) <==> n in names && Known(n)
    ensures |r| <= |names|
  {
    CompareFromSound(names, []);
    CompareFrom(names, [])
  }
}
