/** The rules by which the dynamic strategy switcher decides to replace the
    active strategy (services/dynamic_strategy_switcher.py).  The clock is a
    parameter: `now` is a time in seconds and `hour` the UTC hour of day; the
    active strategy, its performance figures and the market conditions are
    parameters as well. */
module Switcher {
  import opened Wrappers
  import opened Text
  import opened Values
  import Templates
  import Aggregation

  datatype Reason =
    | TimeSessionChange
    | VolatilityChange
    | PoorPerformance
    | MarketConditionChange
    | ManualOverride
    | ScheduledSwitch

  /** The `value` of each `SwitchReason`. */
  function ReasonValue(r: Reason): string {
    match r
    case TimeSessionChange => "time_session_change"
    case VolatilityChange => "volatility_change"
    case PoorPerformance => "poor_performance"
    case MarketConditionChange => "market_condition_change"
    case ManualOverride => "manual_override"
    case ScheduledSwitch => "scheduled_switch"
  }

  /** `SwitchReason(value)`: the reason with that value, if any. */
  function ParseReason(s: string): (r: Option<Reason>)
    ensures r.Some? ==> ReasonValue(r.value) == s
  {
    if s == "time_session_change" then Some(TimeSessionChange)
    else if s == "volatility_change" then Some(VolatilityChange)
    else if s == "poor_performance" then Some(PoorPerformance)
    else if s == "market_condition_change" then Some(MarketConditionChange)
    else if s == "manual_override" then Some(ManualOverride)
    else if s == "scheduled_switch" then Some(ScheduledSwitch)
    else None
  }

  /** Every reason is recovered from its value, so the values are distinct. */
  lemma ReasonRoundTrip(r: Reason)
    ensures ParseReason(ReasonValue(r)) == Some(r)
  {
    match r
    case TimeSessionChange =>
    case VolatilityChange =>
      assert "volatility_change"[0] != "time_session_change"[0];
    case PoorPerformance =>
      assert "poor_performance"[0] != "time_session_change"[0];
      assert "poor_performance"[0] != "volatility_change"[0];
    case MarketConditionChange =>
      assert "market_condition_change"[0] != "time_session_change"[0];
      assert "market_condition_change"[0] != "volatility_change"[0];
      assert "market_condition_change"[0] != "poor_performance"[0];
    case ManualOverride =>
      assert "manual_override"[0] != "time_session_change"[0];
      assert "manual_override"[0] != "volatility_change"[0];
      assert "manual_override"[0] != "poor_performance"[0];
      assert "manual_override"[2] != "market_condition_change"[2];
    case ScheduledSwitch =>
      assert "scheduled_switch"[0] != "time_session_change"[0];
      assert "scheduled_switch"[0] != "volatility_change"[0];
      assert "scheduled_switch"[0] != "poor_performance"[0];
      assert "scheduled_switch"[0] != "market_condition_change"[0];
      assert "scheduled_switch"[0] != "manual_override"[0];
  }

  /** A `StrategySwitch` without the market and performance snapshots it
      carries. */
  datatype Switch = Switch(timestamp: real, fromStrategy: Value, toStrategy: string, reason: Reason, confidence: real)

  /** The switcher's memory: the switches so far and when the current
      strategy started (`None` before the first switch). */
  datatype State = State(history: seq<Switch>, startTime: Option<real>)

  const Initial: State := State([], None)

  /** `min_strategy_duration`: one hour. */
  const MinStrategyDuration: real := 3600.0

  /** `scheduled_check_hours`. */
  const ScheduledCheckHours: seq<int> := [0, 8, 16]

  /** The market conditions the switcher reads, as the aggregation service
      reports them. */
  datatype Conditions = Conditions(volatility: string, trend: string, timeOfDay: string, isPeakHours: bool, volume: string)

  /** The dictionary handed to `recommend_template`. */
  function ConditionsDict(c: Conditions): Dict {
    [Field("overall_volatility", VStr(c.volatility)), Field("market_trend", VStr(c.trend)),
     Field("time_of_day", VStr(c.timeOfDay)), Field("is_peak_hours", VBool(c.isPeakHours)),
     Field("trading_volume", VStr(c.volume))]
  }

  /** With text-valued conditions the recommendation never raises. */
  lemma RecommendOk(c: Conditions)
    ensures Templates.RecommendTemplate(ConditionsDict(c)).Ok?
  {
    var m := ConditionsDict(c);
    IndexOfFirst(m, "overall_volatility", 0);
    IndexOfFirst(m, "time_of_day", 2);
    assert Templates.TimeOfDay(m) == VStr(c.timeOfDay);
  }

  // ------------------------------------------------------ template type

  /** The template type a lower-cased strategy name points to: the first
      keyword group that matches. */
  function TemplateType(name: string): (r: Option<string>)
    ensures r.Some? ==> Templates.Known(r.value)
    ensures r == Some("scalping") <==> Templates.ScalpName(name)
    ensures r == Some("momentum") <==> !Templates.ScalpName(name) && Templates.MomentumName(name)
    ensures r == Some("mean_reversion") <==>
      !Templates.ScalpName(name) && !Templates.MomentumName(name) && Templates.ReversionName(name)
    ensures r == Some("breakout") <==>
      !Templates.ScalpName(name) && !Templates.MomentumName(name) && !Templates.ReversionName(name)
      && Templates.BreakoutName(name)
    ensures r.None? <==>
      !Templates.ScalpName(name) && !Templates.MomentumName(name) && !Templates.ReversionName(name)
      && !Templates.BreakoutName(name)
  {
    if Templates.ScalpName(name) then Some("scalping")
    else if Templates.MomentumName(name) then Some("momentum")
    else if Templates.ReversionName(name) then Some("mean_reversion")
    else if Templates.BreakoutName(name) then Some("breakout")
    else None
  }

  /** `_extract_template_type`: nothing for a missing or empty strategy;
      `.lower()` on a name that is not text raises `AttributeError`. */
  function ExtractTemplateType(strategy: Option<Dict>): (r: Result<Option<string>>)
    ensures strategy.None? || |strategy.value| == 0 ==> r == Ok(None)
    ensures r.Err? <==> strategy.Some? && |strategy.value| > 0 && !GetOr(strategy.value, "name", VStr("")).VStr?
    ensures r.Ok? && r.value.Some? ==>
      Templates.Known(r.value.value) && strategy.Some? && "name" in Keys(strategy.value)
    ensures strategy.Some? && |strategy.value| > 0 && "name" !in Keys(strategy.value) ==> r == Ok(None)
    ensures strategy.Some? && |strategy.value| > 0 && GetOr(strategy.value, "name", VStr("")).VStr? ==>
      r == Ok(TemplateType(Lower(GetOr(strategy.value, "name", VStr("")).s)))
  {
    if strategy.None? || |strategy.value| == 0 then Ok(None)
    else
      match GetOr(strategy.value, "name", VStr(""))
      case VStr(s) =>
        assert "name" !in Keys(strategy.value) ==> s == "";
        Ok(TemplateType(Lower(s)))
      case _ => Err("AttributeError")
  }

  /** A strategy saved from a built-in template, which carries the template's
      display name, is recognised as that template. */
  lemma ExtractBuiltinName(name: string)
    requires Templates.Known(name)
    ensures ExtractTemplateType(Some([Field("name", VStr(Templates.Builtin(name).name))])) == Ok(Some(name))
  {
    var d := Templates.Builtin(name).name;
    if name == "scalping" {
      assert d == "High Frequency Scalping";
      ScalpingType();
    } else if name == "momentum" {
      assert d == "Trend Momentum Following";
      MomentumType();
    } else if name == "mean_reversion" {
      assert d == "Mean Reversion Range Trading";
      ReversionType();
    } else {
      assert d == "Volatility Breakout";
      BreakoutType();
    }
    ExtractNamed(d, name);
  }

  /** A strategy whose only field is its name. */
  lemma ExtractNamed(d: string, name: string)
    requires TemplateType(Lower(d)) == Some(name)
    ensures ExtractTemplateType(Some([Field("name", VStr(d))])) == Ok(Some(name))
  {
    IndexOfFirst([Field("name", VStr(d))], "name", 0);
  }

  /** `sub` is absent when one of its characters is. */
  lemma Lacks(s: string, sub: string, k: nat)
    requires k < |sub| && sub[k] !in s
    ensures !Contains(s, sub)
  {
    if Contains(s, sub) {
      ContainsChar(s, sub, sub[k]);
    }
  }

  /** A word between two texts is contained in their concatenation. */
  lemma Infix(a: string, word: string, b: string)
    ensures Contains(a + word + b, word)
  {
    assert (a + word + b)[|a|..|a| + |word|] == word;
    ContainsAt(a + word + b, word, |a|);
  }

  // The lower-cased display names of the four templates, one keyword fact
  // per lemma.

  lemma ScalpingType()
    ensures TemplateType(Lower("High Frequency Scalping")) == Some("scalping")
  {
    ScalpingLower();
    ScalpingNamed();
  }

  lemma ScalpingLower()
    ensures Lower("High Frequency Scalping") == "high frequency scalping"
  {
  }

  lemma ScalpingNamed()
    ensures TemplateType("high frequency scalping") == Some("scalping")
  {
    ScalpingKeyword();
  }

  lemma ScalpingKeyword()
    ensures Templates.ScalpName("high frequency scalping")
  {
    assert "high frequency scalping" == "high frequency " + "scalp" + "ing";
    Infix("high frequency ", "scalp", "ing");
  }

  lemma MomentumType()
    ensures TemplateType(Lower("Trend Momentum Following")) == Some("momentum")
  {
    MomentumLower();
    MomentumNamed();
  }

  lemma MomentumLower()
    ensures Lower("Trend Momentum Following") == "trend momentum following"
  {
  }

  lemma MomentumNamed()
    ensures TemplateType("trend momentum following") == Some("momentum")
  {
    MomentumNoScalp();
    MomentumKeyword();
  }

  /** Each absence below is its own lemma: `Contains` unrolls over a
      literal text, and two such unrollings in one proof exhaust the
      solver. */
  lemma MomentumNoScalp() ensures !Contains("trend momentum following", "scalp") { Lacks("trend momentum following", "scalp", 0); }

  lemma MomentumKeyword()
    ensures Templates.MomentumName("trend momentum following")
  {
    assert "trend momentum following" == "trend " + "momentum" + " following";
    Infix("trend ", "momentum", " following");
  }

  lemma ReversionType()
    ensures TemplateType(Lower("Mean Reversion Range Trading")) == Some("mean_reversion")
  {
    ReversionLower();
    ReversionNamed();
  }

  lemma ReversionLower()
    ensures Lower("Mean Reversion Range Trading") == "mean reversion range trading"
  {
  }

  lemma ReversionNamed()
    ensures TemplateType("mean reversion range trading") == Some("mean_reversion")
  {
    ReversionNoScalp();
    ReversionNoMomentum();
    ReversionNoTrend();
    ReversionKeyword();
  }

  lemma ReversionNoScalp() ensures !Contains("mean reversion range trading", "scalp") { Lacks("mean reversion range trading", "scalp", 1); }
  lemma ReversionNoMomentum() ensures !Contains("mean reversion range trading", "momentum") { Lacks("mean reversion range trading", "momentum", 6); }

  /** No 't' comes before the last word, and "trading" differs from "trend"
      at the third letter. */
  lemma ReversionNoTrend()
    ensures !Contains("mean reversion range trading", "trend")
  {
    var a, b := "mean reversion range ", "trading";
    assert "mean reversion range trading" == a + b;
    assert 't' !in a;
    ContainsSkip(a, b, "trend");
    NoTrendInTrading();
  }

  lemma NoTrendInTrading()
    ensures !Contains("trading", "trend")
  {
    assert !("trend" <= "trading") by { assert "trend"[2] != "trading"[2]; }
    Lacks("rading", "trend", 0);
    assert "trading"[1..] == "rading";
  }

  lemma ReversionKeyword()
    ensures Templates.ReversionName("mean reversion range trading")
  {
    assert "mean reversion range trading" == "mean " + "reversion" + " range trading";
    Infix("mean ", "reversion", " range trading");
  }

  lemma BreakoutType()
    ensures TemplateType(Lower("Volatility Breakout")) == Some("breakout")
  {
    BreakoutLower();
    BreakoutNamed();
  }

  lemma BreakoutLower()
    ensures Lower("Volatility Breakout") == "volatility breakout"
  {
  }

  lemma BreakoutNamed()
    ensures TemplateType("volatility breakout") == Some("breakout")
  {
    BreakoutNoScalp();
    BreakoutNoMomentum();
    BreakoutNoTrend();
    BreakoutNoReversion();
    BreakoutNoRange();
    BreakoutKeyword();
  }

  lemma BreakoutNoScalp() ensures !Contains("volatility breakout", "scalp") { Lacks("volatility breakout", "scalp", 0); }
  lemma BreakoutNoMomentum() ensures !Contains("volatility breakout", "momentum") { Lacks("volatility breakout", "momentum", 0); }
  lemma BreakoutNoTrend() ensures !Contains("volatility breakout", "trend") { Lacks("volatility breakout", "trend", 3); }
  lemma BreakoutNoReversion() ensures !Contains("volatility breakout", "reversion") { Lacks("volatility breakout", "reversion", 8); }
  lemma BreakoutNoRange() ensures !Contains("volatility breakout", "range") { Lacks("volatility breakout", "range", 2); }

  lemma BreakoutKeyword()
    ensures Templates.BreakoutName("volatility breakout")
  {
    assert "volatility breakout" == "volatility " + "breakout" + "";
    Infix("volatility ", "breakout", "");
  }

  // ------------------------------------------------------------ checks

  /** `_can_switch_now`: before any switch, or once the current strategy has
      run for the minimum duration. */
  function CanSwitchNow(startTime: Option<real>, now: real): (r: bool)
    ensures startTime.None? ==> r
    ensures startTime.Some? ==> (r <==> now >= startTime.value + 3600.0)
    ensures startTime.Some? && now < startTime.value ==> !r
  {
    startTime.None? || now - startTime.value >= MinStrategyDuration
  }

  /** Once switching is allowed it stays allowed as time goes on. */
  lemma CanSwitchLater(startTime: Option<real>, now: real, later: real)
    requires CanSwitchNow(startTime, now) && now <= later
    ensures CanSwitchNow(startTime, later)
  {
  }

  /** Python's `<` or `>` between a metric and a number: numbers and
      booleans compare, anything else raises `TypeError`. */
  function Compared(v: Value): (r: Result<real>)
    ensures r.Ok? <==> Numeric(v).Some?
    ensures r.Ok? ==> r.value == Numeric(v).value
  {
    Need(Numeric(v), "TypeError")
  }

  /** The `:.2f` and `:.2%` formats of the warning: numbers format, text
      raises `ValueError`, anything else `TypeError`. */
  function Formatted(v: Value): (r: Result<real>)
    ensures r.Ok? <==> Numeric(v).Some?
  {
    Need(Numeric(v), if v.VStr? then "ValueError" else "TypeError")
  }

  function TotalTrades(perf: Dict): Value { GetOr(perf, "total_trades", VNum(0.0)) }
  function WinRate(perf: Dict): Value { GetOr(perf, "win_rate", VNum(1.0)) }
  function Drawdown(perf: Dict): Value { GetOr(perf, "max_drawdown", VNum(0.0)) }
  function NetProfit(perf: Dict): Value { GetOr(perf, "net_profit", VNum(0.0)) }

  /** Every figure the test reads, or its default, is a number. */
  predicate Figures(perf: Dict) {
    && Numeric(TotalTrades(perf)).Some? && Numeric(WinRate(perf)).Some?
    && Numeric(Drawdown(perf)).Some? && Numeric(NetProfit(perf)).Some?
  }

  /** The thresholds: win rate below 0.35, drawdown above 20, or a loss of
      more than 100. */
  predicate Poor(perf: Dict)
    requires Figures(perf)
  {
    Numeric(WinRate(perf)).value < 0.35 || Numeric(Drawdown(perf)).value > 20.0
    || Numeric(NetProfit(perf)).value < -100.0
  }

  /** `_is_performance_poor`: no verdict on empty figures or fewer than five
      trades; otherwise poor when any threshold is crossed.  The comparisons
      stop at the first that holds, and the warning then formats the
      drawdown and the net profit, so a figure that is no number raises only
      when it is reached. */
  function IsPerformancePoor(perf: Dict): (r: Result<bool>)
    ensures |perf| == 0 ==> r == Ok(false)
    ensures Figures(perf) ==>
      r == Ok(|perf| > 0 && Numeric(TotalTrades(perf)).value >= 5.0 && Poor(perf))
    ensures r == Ok(true) ==> Figures(perf) && Numeric(TotalTrades(perf)).value >= 5.0 && Poor(perf)
    ensures r.Err? ==> |perf| > 0 && !Figures(perf)
    ensures Numeric(TotalTrades(perf)).Some? && Numeric(TotalTrades(perf)).value < 5.0 ==> r == Ok(false)
    ensures |perf| > 0 && Numeric(TotalTrades(perf)).None? ==> r == Err("TypeError")
  {
    if |perf| == 0 then Ok(false)
    else
      var trades :- Compared(TotalTrades(perf));
      if trades < 5.0 then Ok(false)
      else
        var winRate :- Compared(WinRate(perf));
        var poor :- Exceeds(winRate, Drawdown(perf), NetProfit(perf));
        if poor then
          var _ :- Formatted(Drawdown(perf));
          var _ :- Formatted(NetProfit(perf));
          Ok(true)
        else Ok(false)
  }

  /** The chained `or` of the three thresholds once the win rate is known. */
  function Exceeds(winRate: real, drawdown: Value, net: Value): (r: Result<bool>)
    ensures winRate < 0.35 ==> r == Ok(true)
    ensures winRate >= 0.35 && r.Ok? ==> Numeric(drawdown).Some?
    ensures r.Ok? && r.value && winRate >= 0.35 && Numeric(drawdown).value <= 20.0 ==>
      Numeric(net).Some? && Numeric(net).value < -100.0
    ensures Numeric(drawdown).Some? && Numeric(net).Some? ==>
      r == Ok(winRate < 0.35 || Numeric(drawdown).value > 20.0 || Numeric(net).value < -100.0)
    ensures r.Ok? && !r.value ==> Numeric(drawdown).Some? && Numeric(net).Some?
  {
    if winRate < 0.35 then Ok(true)
    else
      var d :- Compared(drawdown);
      if d > 20.0 then Ok(true)
      else
        var n :- Compared(net);
        Ok(n < -100.0)
  }

  /** `_analyze_current_performance`: the trade count from the statistics
      and fixed placeholders for the rest; nothing for a missing strategy or
      when reading the statistics fails. */
  function AnalyzeCurrentPerformance(strategy: Option<Dict>, stats: Option<Dict>): (perf: Dict)
    ensures strategy.None? || |strategy.value| == 0 || stats.None? ==> perf == []
    ensures |perf| > 0 ==> Placeholders(perf)
  {
    if strategy.None? || |strategy.value| == 0 || stats.None? then []
    else
      var trades := GetOr(stats.value, "total_trades", VNum(0.0));
      var signals := GetOr(stats.value, "total_signals", VNum(0.0));
      var users := GetOr(stats.value, "active_users", VNum(0.0));
      PerformanceFields(trades, signals, users);
      PerformanceDict(trades, signals, users)
  }

  /** The dictionary of computed figures, keys in the source's order. */
  function PerformanceDict(trades: Value, signals: Value, users: Value): Dict {
    [Field("total_trades", trades), Field("total_signals", signals),
     Field("win_rate", VNum(0.5)), Field("net_profit", VNum(0.0)),
     Field("max_drawdown", VNum(0.0)), Field("active_users", users)]
  }

  lemma PerformanceFields(trades: Value, signals: Value, users: Value)
    ensures Placeholders(PerformanceDict(trades, signals, users))
  {
    var p := PerformanceDict(trades, signals, users);
    IndexOfFirst(p, "win_rate", 2);
    IndexOfFirst(p, "net_profit", 3);
    IndexOfFirst(p, "max_drawdown", 4);
  }

  /** The fixed win rate, profit and drawdown of the computed figures. */
  predicate Placeholders(perf: Dict) {
    Get(perf, "win_rate") == Some(VNum(0.5)) && Get(perf, "net_profit") == Some(VNum(0.0))
    && Get(perf, "max_drawdown") == Some(VNum(0.0))
  }

  /** The placeholders are never poor: a switch for poor performance cannot
      come from the figures the switcher computes itself. */
  lemma PlaceholdersNeverPoor(strategy: Option<Dict>, stats: Option<Dict>)
    ensures IsPerformancePoor(AnalyzeCurrentPerformance(strategy, stats)) != Ok(true)
  {
    var perf := AnalyzeCurrentPerformance(strategy, stats);
    if |perf| > 0 {
      PlaceholdersNotPoor(perf);
    }
  }

  lemma PlaceholdersNotPoor(perf: Dict)
    requires Placeholders(perf)
    ensures IsPerformancePoor(perf) != Ok(true)
  {
    assert WinRate(perf) == VNum(0.5) && NetProfit(perf) == VNum(0.0) && Drawdown(perf) == VNum(0.0);
  }

  /** The last switch was for a session change less than four hours ago. */
  predicate RecentSessionSwitch(history: seq<Switch>, now: real) {
    |history| > 0
    && (now - history[|history| - 1].timestamp) / 3600.0 < 4.0
    && history[|history| - 1].reason.TimeSessionChange?
  }

  /** `_is_session_change_significant`: not again within four hours of a
      session switch; otherwise in peak hours or an overlap session. */
  function IsSessionChangeSignificant(history: seq<Switch>, now: real, c: Conditions): (r: bool)
    ensures |history| == 0 ==> (r <==> c.isPeakHours || Contains(c.timeOfDay, "overlap"))
    ensures (&& |history| > 0 && history[|history| - 1].reason.TimeSessionChange?
             && now < history[|history| - 1].timestamp + 4.0 * 3600.0) ==> !r
    ensures !c.isPeakHours && !Contains(c.timeOfDay, "overlap") ==> !r
    ensures (|| |history| == 0 || !history[|history| - 1].reason.TimeSessionChange?
             || now >= history[|history| - 1].timestamp + 4.0 * 3600.0) ==>
      (r <==> c.isPeakHours || Contains(c.timeOfDay, "overlap"))
  {
    if RecentSessionSwitch(history, now) then false
    else c.isPeakHours || Contains(c.timeOfDay, "overlap")
  }

  /** With the conditions the aggregation service derives from the clock,
      a session change is significant exactly in the two overlap windows,
      whatever the day of the week. */
  lemma SessionChangeInOverlap(history: seq<Switch>, now: real, hour: int, weekday: int, volatility: string, trend: string)
    ensures var c := Conditions(volatility, trend, Aggregation.SessionName(Aggregation.TradingSession(hour)),
                                Aggregation.IsPeakHours(hour, weekday), "medium");
      IsSessionChangeSignificant(history, now, c) <==>
        !RecentSessionSwitch(history, now) && (8 <= hour < 12 || 16 <= hour < 20)
  {
    Aggregation.OverlapNames(Aggregation.TradingSession(hour));
  }

  /** `_is_scheduled_check_time`. */
  function IsScheduledCheckTime(hour: int): (r: bool)
    ensures r <==> hour == 0 || hour == 8 || hour == 16
  {
    hour in ScheduledCheckHours
  }

  // ------------------------------------------------------------ decision

  datatype Decision = Decision(newStrategy: string, reason: Reason, confidence: real)

  /** `optimal and optimal != _extract_template_type(current)`. */
  function Differs(optimal: string, current: Option<Dict>): (r: Result<bool>)
    ensures |optimal| == 0 ==> r == Ok(false)
    ensures |optimal| > 0 ==> (r.Ok? <==> ExtractTemplateType(current).Ok?)
    ensures |optimal| > 0 && r.Ok? ==> (r.value <==> ExtractTemplateType(current).value != Some(optimal))
  {
    if |optimal| == 0 then Ok(false)
    else
      var running :- ExtractTemplateType(current);
      Ok(running != Some(optimal))
  }

  /** `_evaluate_switch_decision`: nothing until the current strategy has
      run long enough; then, in order, poor performance, a different
      recommended template, a significant session change and the scheduled
      check.  Every recommendation is `recommend_template` of the same
      conditions. */
  function EvaluateSwitchDecision(s: State, now: real, hour: int, current: Option<Dict>, c: Conditions, perf: Dict): (r: Result<Option<Decision>>)
    ensures !CanSwitchNow(s.startTime, now) ==> r == Ok(None)
    ensures r.Ok? && r.value.Some? ==> CanSwitchNow(s.startTime, now) && Templates.Known(r.value.value.newStrategy)
    ensures r.Err? ==> IsPerformancePoor(perf).Err? || ExtractTemplateType(current).Err?
  {
    if !CanSwitchNow(s.startTime, now) then Ok(None)
    else
      var m := ConditionsDict(c);
      RecommendOk(c);
      var poor :- IsPerformancePoor(perf);
      if poor then
        var recommended := Templates.RecommendTemplate(m).value;
        Ok(Some(Decision(recommended, PoorPerformance, 0.8)))
      else
        var optimal := Templates.RecommendTemplate(m).value;
        var changed :- Differs(optimal, current);
        if changed then Ok(Some(Decision(optimal, MarketConditionChange, 0.7)))
        else if IsSessionChangeSignificant(s.history, now, c) then
          var recommended := Templates.RecommendTemplate(m).value;
          Ok(Some(Decision(recommended, TimeSessionChange, 0.65)))
        else if IsScheduledCheckTime(hour) then
          var optimal2 := Templates.RecommendTemplate(m).value;
          var changed2 := Differs(optimal2, current).value;
          if changed2 then Ok(Some(Decision(optimal2, ScheduledSwitch, 0.6))) else Ok(None)
        else Ok(None)
  }

  /** Which reason a decision gives, and with what confidence.  The
      scheduled check repeats the comparison that has just failed, so it
      never yields a switch; a session change recommends the template the
      current strategy already follows. */
  lemma DecisionReasons(s: State, now: real, hour: int, current: Option<Dict>, c: Conditions, perf: Dict)
    ensures var r := EvaluateSwitchDecision(s, now, hour, current, c, perf);
      r.Ok? && r.value.Some? ==>
        var d := r.value.value;
        var rec := Templates.RecommendTemplate(ConditionsDict(c)).value;
        && d.newStrategy == rec
        && !d.reason.ScheduledSwitch?
        && (d.reason.PoorPerformance? <==> IsPerformancePoor(perf) == Ok(true))
        && (d.reason.PoorPerformance? ==> d.confidence == 0.8)
        && (d.reason.MarketConditionChange? ==>
              d.confidence == 0.7 && ExtractTemplateType(current).Ok?
              && ExtractTemplateType(current).value != Some(rec))
        && (d.reason.TimeSessionChange? ==>
              d.confidence == 0.65 && ExtractTemplateType(current) == Ok(Some(rec))
              && IsSessionChangeSignificant(s.history, now, c))
        && (d.reason.PoorPerformance? || d.reason.MarketConditionChange? || d.reason.TimeSessionChange?)
    ensures var r := EvaluateSwitchDecision(s, now, hour, current, c, perf);
      var rec := Templates.RecommendTemplate(ConditionsDict(c)).value;
      var poor := IsPerformancePoor(perf);
      var running := ExtractTemplateType(current);
      CanSwitchNow(s.startTime, now) ==>
        && (poor.Err? ==> r == Err(poor.error))
        && (poor == Ok(true) ==> r == Ok(Some(Decision(rec, PoorPerformance, 0.8))))
        && (poor == Ok(false) && running.Err? ==> r == Err(running.error))
        && (poor == Ok(false) && running.Ok? && running.value != Some(rec) ==>
              r == Ok(Some(Decision(rec, MarketConditionChange, 0.7))))
        && (poor == Ok(false) && running == Ok(Some(rec)) && IsSessionChangeSignificant(s.history, now, c) ==>
              r == Ok(Some(Decision(rec, TimeSessionChange, 0.65))))
        && (poor == Ok(false) && running == Ok(Some(rec)) && !IsSessionChangeSignificant(s.history, now, c) ==>
              r == Ok(None))
  {
    RecommendOk(c);
    var rec := Templates.RecommendTemplate(ConditionsDict(c)).value;
    assert |rec| > 0;
  }

  // ------------------------------------------------------------ history

  /** Where `current_name` comes from: the strategy's name, or 'None'. */
  function FromName(current: Option<Dict>): Value {
    if current.None? || |current.value| == 0 then VStr("None")
    else GetOr(current.value, "name", VStr("None"))
  }

  /** The state part of `_execute_strategy_switch`: once the template is
      saved, the switch is appended with confidence 0.75 (whatever the
      decision's confidence) and the clock of the new strategy starts.
      Reading `current_strategy['id']` raises `KeyError` before anything is
      recorded, as does a template that could not be saved. */
  function RecordSwitch(s: State, now: real, current: Option<Dict>, template: string, reason: Reason, saved: bool): (r: State)
    ensures r == s || (|r.history| == |s.history| + 1 && r.history[..|s.history|] == s.history)
    ensures r != s ==>
      r.startTime == Some(now) && r.history[|s.history|] == Switch(now, FromName(current), template, reason, 0.75)
    ensures r == s <==> !saved || (current.Some? && |current.value| > 0 && "id" !in Keys(current.value))
  {
    var missingId := current.Some? && |current.value| > 0 && "id" !in Keys(current.value);
    if missingId || !saved then s
    else
      var r := State(s.history + [Switch(now, FromName(current), template, reason, 0.75)], Some(now));
      assert |r.history| != |s.history|;
      r
  }

  /** After a switch, no other switch is allowed for an hour, and one is
      allowed from then on. */
  lemma SwitchCooldown(s: State, now: real, current: Option<Dict>, template: string, reason: Reason, later: real)
    requires RecordSwitch(s, now, current, template, reason, true) != s
    ensures var r := RecordSwitch(s, now, current, template, reason, true);
      CanSwitchNow(r.startTime, later) <==> later >= now + 3600.0
  {
  }

  /** After a session switch, no session change counts as significant for
      four hours. */
  lemma SessionCooldown(s: State, now: real, current: Option<Dict>, template: string, later: real, c: Conditions)
    requires RecordSwitch(s, now, current, template, TimeSessionChange, true) != s
    requires now <= later < now + 14400.0
    ensures !IsSessionChangeSignificant(RecordSwitch(s, now, current, template, TimeSessionChange, true).history, later, c)
  {
    var r := RecordSwitch(s, now, current, template, TimeSessionChange, true);
    assert r.history[|r.history| - 1].timestamp == now;
    assert (later - now) / 3600.0 < 4.0;
  }

  /** One entry of `get_switch_history` (the timestamp as a number, not in
      ISO format). */
  datatype Report = Report(timestamp: real, fromStrategy: Value, toStrategy: string, reason: string, confidence: real)

  function ReportOf(sw: Switch): Report {
    Report(sw.timestamp, sw.fromStrategy, sw.toStrategy, ReasonValue(sw.reason), sw.confidence)
  }

  /** Where Python's `history[-limit:]` starts. */
  function SliceStart(n: nat, limit: int): (k: nat)
    ensures k <= n
  {
    if limit > 0 then (if limit >= n then 0 else n - limit)
    else if -limit >= n then n
    else -limit
  }

  /** `get_switch_history`: the last `limit` switches in the order they
      happened; `limit` 0 gives all of them (`[-0:]` is the whole list) and
      a negative limit drops that many from the front. */
  function GetSwitchHistory(history: seq<Switch>, limit: int): (r: seq<Report>)
    ensures limit >= 1 ==> |r| == if limit < |history| then limit else |history|
    ensures limit == 0 ==> |r| == |history|
    ensures limit < 0 ==> |r| == if |history| + limit > 0 then |history| + limit else 0
    ensures forall i :: 0 <= i < |r| ==> r[i] == ReportOf(history[|history| - |r| + i])
  {
    var k := SliceStart(|history|, limit);
    seq(|history| - k, i requires 0 <= i < |history| - k => ReportOf(history[k + i]))
  }

  /** The newest entry of the history is the switch just recorded. */
  lemma LatestReported(s: State, now: real, current: Option<Dict>, template: string, reason: Reason)
    requires RecordSwitch(s, now, current, template, reason, true) != s
    ensures GetSwitchHistory(RecordSwitch(s, now, current, template, reason, true).history, 1)
      == [Report(now, FromName(current), template, ReasonValue(reason), 0.75)]
  {
  }
}
