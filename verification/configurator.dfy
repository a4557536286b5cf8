/** The data-driven strategy configurator (services/ai_strategy_configurator.py):
    the performance score, the market-fit table, the recommendation rules
    and their compilation into one nested adjustment dictionary.  Statistics
    are the per-asset records of the aggregation service, in the order of
    the dictionary that holds them. */
module Configurator {
  import opened Wrappers
  import opened Text
  import opened Values
  import opened Adjustments
  import Indicators
  import opened Aggregation
  import Templates

  // ------------------------------------------------------------ aggregates

  /** One numeric column of the statistics. */
  function Column(stats: seq<AssetStatistics>, field: AssetStatistics -> real): (c: seq<real>)
    ensures |c| == |stats|
    ensures forall i :: 0 <= i < |stats| ==> c[i] == field(stats[i])
  {
    seq(|stats|, i requires 0 <= i < |stats| => field(stats[i]))
  }

  function TotalTrades(stats: seq<AssetStatistics>): int {
    if |stats| == 0 then 0 else stats[0].totalTrades + TotalTrades(stats[1..])
  }

  function AvgWinRate(stats: seq<AssetStatistics>): real
    requires |stats| > 0
  {
    Indicators.Mean(Column(stats, (s: AssetStatistics) => s.winRate))
  }

  function NetProfit(stats: seq<AssetStatistics>): real {
    Indicators.Sum(Column(stats, (s: AssetStatistics) => s.netProfit))
  }

  function AvgSharpe(stats: seq<AssetStatistics>): real
    requires |stats| > 0
  {
    Indicators.Mean(Column(stats, (s: AssetStatistics) => s.sharpeRatio))
  }

  function WorstDrawdown(stats: seq<AssetStatistics>): real
    requires |stats| > 0
  {
    MaxOf(Column(stats, (s: AssetStatistics) => s.maxDrawdown))
  }

  function AvgVolatility(stats: seq<AssetStatistics>): real
    requires |stats| > 0
  {
    Indicators.Mean(Column(stats, (s: AssetStatistics) => s.priceVolatility))
  }

  // ----------------------------------------------------------- performance

  /** The strengths and weaknesses `_evaluate_performance` reports (their
      wording is not modelled). */
  datatype Finding =
    | NoData
    | FewTrades(count: int)
    | ExcellentWinRate
    | GoodWinRate
    | LowWinRate
    | PositiveProfit
    | NegativeProfit
    | GoodRiskProfile
    | PoorRiskProfile
    | HighDrawdown
    | ControlledDrawdown
    | OptimalVolatility
    | ExtremeVolatility

  /** The score change that goes with each finding. */
  function Impact(f: Finding): int {
    match f
    case NoData => 0
    case FewTrades(_) => 0
    case ExcellentWinRate => 20
    case GoodWinRate => 10
    case LowWinRate => -15
    case PositiveProfit => 15
    case NegativeProfit => -20
    case GoodRiskProfile => 10
    case PoorRiskProfile => -10
    case HighDrawdown => -15
    case ControlledDrawdown => 10
    case OptimalVolatility => 5
    case ExtremeVolatility => -10
  }

  function Impacts(fs: seq<Finding>): int {
    if |fs| == 0 then 0 else Impacts(fs[..|fs| - 1]) + Impact(fs[|fs| - 1])
  }

  datatype Performance = Performance(score: real, strengths: seq<Finding>, weaknesses: seq<Finding>)

  const BaseScore: real := 50.0
  const MinTradesForAnalysis: int := 10

  /** The running score matches the findings so far; strengths raise the
      score and weaknesses do not. */
  ghost predicate Balanced(p: Performance) {
    && p.score == BaseScore + (Impacts(p.strengths) + Impacts(p.weaknesses)) as real
    && (forall i :: 0 <= i < |p.strengths| ==> Impact(p.strengths[i]) > 0)
    && (forall i :: 0 <= i < |p.weaknesses| ==> Impact(p.weaknesses[i]) <= 0)
  }

  /** One graded finding: `strengths.append(...); score += k` for a finding
      that raises the score, `weaknesses.append(...); score -= k` otherwise. */
  function Record(p: Performance, f: Finding): (r: Performance)
    ensures Impact(f) > 0 ==> r.strengths == p.strengths + [f] && r.weaknesses == p.weaknesses
    ensures Impact(f) <= 0 ==> r.strengths == p.strengths && r.weaknesses == p.weaknesses + [f]
  {
    if Impact(f) > 0 then Performance(p.score + Impact(f) as real, p.strengths + [f], p.weaknesses)
    else Performance(p.score + Impact(f) as real, p.strengths, p.weaknesses + [f])
  }

  /** The findings graded in order. */
  function RecordAll(p: Performance, fs: seq<Finding>): Performance {
    if |fs| == 0 then p else Record(RecordAll(p, fs[..|fs| - 1]), fs[|fs| - 1])
  }

  lemma ImpactsSnoc(fs: seq<Finding>, f: Finding)
    ensures Impacts(fs + [f]) == Impacts(fs) + Impact(f)
  {
    assert (fs + [f])[..|fs|] == fs;
  }

  /** One graded finding keeps the score in step with the findings. */
  lemma RecordBalanced(p: Performance, f: Finding)
    requires Balanced(p)
    ensures Balanced(Record(p, f))
  {
    var r := Record(p, f);
    if Impact(f) > 0 {
      ImpactsSnoc(p.strengths, f);
      assert r.score == p.score + Impact(f) as real;
    } else {
      ImpactsSnoc(p.weaknesses, f);
      assert r.score == p.score + Impact(f) as real;
    }
  }

  /** Grading keeps the score in step with the findings reported. */
  lemma {:induction false} RecordAllBalanced(p: Performance, fs: seq<Finding>)
    requires Balanced(p)
    ensures Balanced(RecordAll(p, fs))
  {
    if |fs| > 0 {
      var q := RecordAll(p, fs[..|fs| - 1]);
      RecordAllBalanced(p, fs[..|fs| - 1]);
      RecordBalanced(q, fs[|fs| - 1]);
    }
  }

  /** A finding ends among the strengths exactly when it was graded and
      raises the score, among the weaknesses exactly when it was graded and
      does not. */
  lemma {:induction false} RecordAllMembers(p: Performance, fs: seq<Finding>, f: Finding)
    ensures f in RecordAll(p, fs).strengths <==> f in p.strengths || (f in fs && Impact(f) > 0)
    ensures f in RecordAll(p, fs).weaknesses <==> f in p.weaknesses || (f in fs && Impact(f) <= 0)
  {
    if |fs| > 0 {
      RecordAllMembers(p, fs[..|fs| - 1], f);
      assert fs == fs[..|fs| - 1] + [fs[|fs| - 1]];
    }
  }

  /** `max(0, min(100, score))`. */
  function Clamp(x: real): (r: real)
    ensures 0.0 <= r <= 100.0
    ensures 0.0 <= x <= 100.0 ==> r == x
    ensures x < 0.0 ==> r == 0.0
    ensures x > 100.0 ==> r == 100.0
  {
    if x > 100.0 then 100.0 else if x < 0.0 then 0.0 else x
  }

  /** The win-rate aspect: 0.65 excellent, 0.50 good, below 0.35 low. */
  function WinRateFinding(winRate: real): (r: seq<Finding>)
    ensures |r| <= 1
    ensures forall f :: f in r <==>
      (f.ExcellentWinRate? && winRate >= 0.65) || (f.GoodWinRate? && 0.50 <= winRate < 0.65)
      || (f.LowWinRate? && winRate < 0.35)
    ensures ExcellentWinRate in r <==> winRate >= 0.65
    ensures GoodWinRate in r <==> 0.50 <= winRate < 0.65
    ensures LowWinRate in r <==> winRate < 0.35
  {
    if winRate >= 0.65 then [ExcellentWinRate]
    else if winRate >= 0.50 then [GoodWinRate]
    else if winRate < 0.35 then [LowWinRate]
    else []
  }

  /** The profit aspect: a positive net profit is a strength, anything else
      a weakness. */
  function ProfitFinding(net: real): (r: seq<Finding>)
    ensures |r| == 1
    ensures forall f :: f in r <==> (f.PositiveProfit? && net > 0.0) || (f.NegativeProfit? && net <= 0.0)
    ensures PositiveProfit in r <==> net > 0.0
    ensures NegativeProfit in r <==> net <= 0.0
  {
    if net > 0.0 then [PositiveProfit] else [NegativeProfit]
  }

  /** The risk aspect: Sharpe ratio at least 0.5 good, negative poor. */
  function SharpeFinding(sharpe: real): (r: seq<Finding>)
    ensures |r| <= 1
    ensures forall f :: f in r <==> (f.GoodRiskProfile? && sharpe >= 0.5) || (f.PoorRiskProfile? && sharpe < 0.0)
    ensures GoodRiskProfile in r <==> sharpe >= 0.5
    ensures PoorRiskProfile in r <==> sharpe < 0.0
  {
    if sharpe >= 0.5 then [GoodRiskProfile] else if sharpe < 0.0 then [PoorRiskProfile] else []
  }

  /** The drawdown aspect: above 20 a weakness, otherwise a strength. */
  function DrawdownFinding(drawdown: real): (r: seq<Finding>)
    ensures |r| == 1
    ensures forall f :: f in r <==> (f.HighDrawdown? && drawdown > 20.0) || (f.ControlledDrawdown? && drawdown <= 20.0)
    ensures HighDrawdown in r <==> drawdown > 20.0
    ensures ControlledDrawdown in r <==> drawdown <= 20.0
  {
    if drawdown > 20.0 then [HighDrawdown] else [ControlledDrawdown]
  }

  /** The volatility aspect: strictly between 1 and 5 optimal, above 10
      extreme. */
  function VolatilityFinding(volatility: real): (r: seq<Finding>)
    ensures |r| <= 1
    ensures forall f :: f in r <==>
      (f.OptimalVolatility? && 1.0 < volatility < 5.0) || (f.ExtremeVolatility? && volatility > 10.0)
    ensures OptimalVolatility in r <==> 1.0 < volatility < 5.0
    ensures ExtremeVolatility in r <==> volatility > 10.0
  {
    if 1.0 < volatility < 5.0 then [OptimalVolatility]
    else if volatility > 10.0 then [ExtremeVolatility]
    else []
  }

  /** The findings of the five graded aspects, in the order they are tested:
      one per aspect at most, and the profit and drawdown aspects always
      report. */
  function Aspects(winRate: real, net: real, sharpe: real, drawdown: real, volatility: real): (fs: seq<Finding>)
    ensures 2 <= |fs| <= 5
    ensures PositiveProfit in fs <==> net > 0.0
    ensures NegativeProfit in fs <==> net <= 0.0
    ensures HighDrawdown in fs <==> drawdown > 20.0
    ensures ControlledDrawdown in fs <==> drawdown <= 20.0
    ensures ExcellentWinRate in fs <==> winRate >= 0.65
    ensures GoodWinRate in fs <==> 0.50 <= winRate < 0.65
    ensures LowWinRate in fs <==> winRate < 0.35
    ensures GoodRiskProfile in fs <==> sharpe >= 0.5
    ensures PoorRiskProfile in fs <==> sharpe < 0.0
    ensures OptimalVolatility in fs <==> 1.0 < volatility < 5.0
    ensures ExtremeVolatility in fs <==> volatility > 10.0
  {
    AspectsWinRate(winRate, net, sharpe, drawdown, volatility);
    AspectsProfit(winRate, net, sharpe, drawdown, volatility);
    AspectsRisk(winRate, net, sharpe, drawdown, volatility);
    Reported(winRate, net, sharpe, drawdown, volatility)
  }

  /** The findings of the five aspects, one after the other. */
  function Reported(winRate: real, net: real, sharpe: real, drawdown: real, volatility: real): seq<Finding> {
    WinRateFinding(winRate) + ProfitFinding(net) + SharpeFinding(sharpe) + DrawdownFinding(drawdown)
      + VolatilityFinding(volatility)
  }

  lemma AspectsWinRate(winRate: real, net: real, sharpe: real, drawdown: real, volatility: real)
    ensures var fs := Reported(winRate, net, sharpe, drawdown, volatility);
      && (ExcellentWinRate in fs <==> winRate >= 0.65)
      && (GoodWinRate in fs <==> 0.50 <= winRate < 0.65)
      && (LowWinRate in fs <==> winRate < 0.35)
  {
    InFive(WinRateFinding(winRate), ProfitFinding(net), SharpeFinding(sharpe), DrawdownFinding(drawdown),
           VolatilityFinding(volatility));
  }

  lemma AspectsProfit(winRate: real, net: real, sharpe: real, drawdown: real, volatility: real)
    ensures var fs := Reported(winRate, net, sharpe, drawdown, volatility);
      && (PositiveProfit in fs <==> net > 0.0)
      && (NegativeProfit in fs <==> net <= 0.0)
      && (HighDrawdown in fs <==> drawdown > 20.0)
      && (ControlledDrawdown in fs <==> drawdown <= 20.0)
  {
    InFive(WinRateFinding(winRate), ProfitFinding(net), SharpeFinding(sharpe), DrawdownFinding(drawdown),
           VolatilityFinding(volatility));
  }

  lemma AspectsRisk(winRate: real, net: real, sharpe: real, drawdown: real, volatility: real)
    ensures var fs := Reported(winRate, net, sharpe, drawdown, volatility);
      && (GoodRiskProfile in fs <==> sharpe >= 0.5)
      && (PoorRiskProfile in fs <==> sharpe < 0.0)
      && (OptimalVolatility in fs <==> 1.0 < volatility < 5.0)
      && (ExtremeVolatility in fs <==> volatility > 10.0)
  {
    InFive(WinRateFinding(winRate), ProfitFinding(net), SharpeFinding(sharpe), DrawdownFinding(drawdown),
           VolatilityFinding(volatility));
  }

  lemma InFive(a: seq<Finding>, b: seq<Finding>, c: seq<Finding>, d: seq<Finding>, e: seq<Finding>)
    ensures forall f :: f in a + b + c + d + e <==> f in a || f in b || f in c || f in d || f in e
  {
  }

  /** Every finding of the five aspects sits on the side its impact says,
      exactly under its threshold. */
  predicate GradedBy(p: Performance, winRate: real, net: real, sharpe: real, drawdown: real, volatility: real) {
    && (ExcellentWinRate in p.strengths <==> winRate >= 0.65)
    && (GoodWinRate in p.strengths <==> 0.50 <= winRate < 0.65)
    && (LowWinRate in p.weaknesses <==> winRate < 0.35)
    && (PositiveProfit in p.strengths <==> net > 0.0)
    && (NegativeProfit in p.weaknesses <==> net <= 0.0)
    && (GoodRiskProfile in p.strengths <==> sharpe >= 0.5)
    && (PoorRiskProfile in p.weaknesses <==> sharpe < 0.0)
    && (HighDrawdown in p.weaknesses <==> drawdown > 20.0)
    && (ControlledDrawdown in p.strengths <==> drawdown <= 20.0)
    && (OptimalVolatility in p.strengths <==> 1.0 < volatility < 5.0)
    && (ExtremeVolatility in p.weaknesses <==> volatility > 10.0)
  }

  /** The five aspects graded from the base score, before clamping. */
  function Grade(winRate: real, net: real, sharpe: real, drawdown: real, volatility: real): (p: Performance)
    ensures Balanced(p)
    ensures GradedBy(p, winRate, net, sharpe, drawdown, volatility)
  {
    var fs := Aspects(winRate, net, sharpe, drawdown, volatility);
    var p0 := Performance(BaseScore, [], []);
    RecordAllBalanced(p0, fs);
    GradeMembers(p0, fs);
    RecordAll(p0, fs)
  }

  /** Grading from nothing puts each finding of the five aspects on its
      side exactly when the aspects reported it. */
  lemma GradeMembers(p0: Performance, fs: seq<Finding>)
    requires p0.strengths == [] && p0.weaknesses == []
    ensures var p := RecordAll(p0, fs);
      && (ExcellentWinRate in p.strengths <==> ExcellentWinRate in fs)
      && (GoodWinRate in p.strengths <==> GoodWinRate in fs)
      && (LowWinRate in p.weaknesses <==> LowWinRate in fs)
      && (PositiveProfit in p.strengths <==> PositiveProfit in fs)
      && (NegativeProfit in p.weaknesses <==> NegativeProfit in fs)
      && (GoodRiskProfile in p.strengths <==> GoodRiskProfile in fs)
      && (PoorRiskProfile in p.weaknesses <==> PoorRiskProfile in fs)
      && (HighDrawdown in p.weaknesses <==> HighDrawdown in fs)
      && (ControlledDrawdown in p.strengths <==> ControlledDrawdown in fs)
      && (OptimalVolatility in p.strengths <==> OptimalVolatility in fs)
      && (ExtremeVolatility in p.weaknesses <==> ExtremeVolatility in fs)
  {
    RecordAllMembers(p0, fs, ExcellentWinRate);
    RecordAllMembers(p0, fs, GoodWinRate);
    RecordAllMembers(p0, fs, LowWinRate);
    RecordAllMembers(p0, fs, PositiveProfit);
    RecordAllMembers(p0, fs, NegativeProfit);
    RecordAllMembers(p0, fs, GoodRiskProfile);
    RecordAllMembers(p0, fs, PoorRiskProfile);
    RecordAllMembers(p0, fs, HighDrawdown);
    RecordAllMembers(p0, fs, ControlledDrawdown);
    RecordAllMembers(p0, fs, OptimalVolatility);
    RecordAllMembers(p0, fs, ExtremeVolatility);
  }

  /** `_evaluate_performance`: the score, the strengths and the weaknesses. */
  function EvaluatePerformance(stats: seq<AssetStatistics>): (p: Performance)
    ensures 0.0 <= p.score <= 100.0
    ensures p.score == Clamp(BaseScore + (Impacts(p.strengths) + Impacts(p.weaknesses)) as real)
    ensures forall i :: 0 <= i < |p.strengths| ==> Impact(p.strengths[i]) > 0
    ensures forall i :: 0 <= i < |p.weaknesses| ==> Impact(p.weaknesses[i]) <= 0
    ensures |stats| == 0 ==> p == Performance(50.0, [], [NoData])
    ensures |stats| > 0 && TotalTrades(stats) < MinTradesForAnalysis ==>
      p == Performance(50.0, [], [FewTrades(TotalTrades(stats))])
    ensures |stats| > 0 && TotalTrades(stats) >= MinTradesForAnalysis ==>
      GradedBy(p, AvgWinRate(stats), NetProfit(stats), AvgSharpe(stats), WorstDrawdown(stats), AvgVolatility(stats))
  {
    if |stats| == 0 then
      assert Impacts([NoData]) == 0;
      Performance(BaseScore, [], [NoData])
    else if TotalTrades(stats) < MinTradesForAnalysis then
      assert Impacts([FewTrades(TotalTrades(stats))]) == 0;
      Performance(BaseScore, [], [FewTrades(TotalTrades(stats))])
    else
      var p := Grade(AvgWinRate(stats), NetProfit(stats), AvgSharpe(stats), WorstDrawdown(stats), AvgVolatility(stats));
      p.(score := Clamp(p.score))
  }

  // ------------------------------------------------------------ market fit

  /** The market conditions the configurator reads. */
  datatype MarketView = MarketView(volatility: Level, trend: Trend, isPeakHours: bool)

  datatype Fit = Excellent | Good | Poor

  /** `fit_score` for a lower-cased name: 3 excellent, 2 good, 1 poor. */
  function FitScore(n: string, m: MarketView): (s: int)
    ensures 1 <= s <= 3
  {
    if Templates.ScalpName(n) then
      (if m.volatility.High? && m.isPeakHours then 3 else if m.volatility.Medium? then 2 else 1)
    else if Templates.MomentumName(n) then
      (if !m.trend.Sideways? && !m.volatility.Low? then 3 else if !m.trend.Sideways? then 2 else 1)
    else if Templates.ReversionName(n) then
      (if m.volatility.Low? && m.trend.Sideways? then 3 else if m.volatility.Low? then 2 else 1)
    else if Templates.BreakoutName(n) then
      (if m.volatility.High? && !m.trend.Sideways? then 3 else if m.volatility.High? then 2 else 1)
    else 2
  }

  /** `_assess_market_fit`.  `strategy.get('name', '').lower()` raises
      `AttributeError` when the name is not text. */
  function AssessMarketFit(strategy: Dict, m: MarketView): (r: Result<Fit>)
    ensures r.Ok? <==> GetOr(strategy, "name", VStr("")).VStr?
    ensures r.Ok? ==> var n := Lower(GetOr(strategy, "name", VStr("")).s);
      && (Templates.ScalpName(n) ==>
            (r.value.Excellent? <==> m.volatility.High? && m.isPeakHours)
            && (r.value.Good? <==> m.volatility.Medium?))
      && (!Templates.ScalpName(n) && Templates.MomentumName(n) ==>
            (r.value.Excellent? <==> !m.trend.Sideways? && !m.volatility.Low?)
            && (r.value.Poor? <==> m.trend.Sideways?))
      && (!Templates.ScalpName(n) && !Templates.MomentumName(n) && Templates.ReversionName(n) ==>
            (r.value.Excellent? <==> m.volatility.Low? && m.trend.Sideways?)
            && (r.value.Poor? <==> !m.volatility.Low?))
      && (!Templates.ScalpName(n) && !Templates.MomentumName(n) && !Templates.ReversionName(n) && Templates.BreakoutName(n) ==>
            (r.value.Excellent? <==> m.volatility.High? && !m.trend.Sideways?)
            && (r.value.Poor? <==> !m.volatility.High?))
      && (!Templates.ScalpName(n) && !Templates.MomentumName(n) && !Templates.ReversionName(n) && !Templates.BreakoutName(n) ==>
            r.value.Good?)
  {
    var name := GetOr(strategy, "name", VStr(""));
    if !name.VStr? then Err("AttributeError")
    else
      var s := FitScore(Lower(name.s), m);
      Ok(if s >= 3 then Excellent else if s >= 2 then Good else Poor)
  }

  // ------------------------------------------------------- recommendations

  /** The settings the six rules adjust, in rule order. */
  datatype Setting = StopLoss | TakeProfit | PositionSize | SignalStrength | Timeframe | TrailingStop

  function Order(s: Setting): nat {
    match s
    case StopLoss => 0
    case TakeProfit => 1
    case PositionSize => 2
    case SignalStrength => 3
    case Timeframe => 4
    case TrailingStop => 5
  }

  /** `parameter_path` of each setting. */
  function PathOf(s: Setting): string {
    match s
    case StopLoss => "risk_management.stop_loss_percent"
    case TakeProfit => "risk_management.take_profit_percent"
    case PositionSize => "risk_management.max_position_size_percent"
    case SignalStrength => "entry_rules.min_signal_strength"
    case Timeframe => "timeframe"
    case TrailingStop => "risk_management.trailing_stop_enabled"
  }

  /** Different settings have different paths. */
  lemma PathsDiffer(s: Setting, t: Setting)
    requires s != t
    ensures PathOf(s) != PathOf(t)
  {
    assert |PathOf(StopLoss)| == 33 && |PathOf(TakeProfit)| == 35 && |PathOf(PositionSize)| == 41;
    assert |PathOf(SignalStrength)| == 31 && |PathOf(Timeframe)| == 9 && |PathOf(TrailingStop)| == 37;
  }

  /** A `ConfigurationRecommendation` (its reason text is not modelled). */
  datatype Recommendation = Recommendation(
    setting: Setting, current: Value, recommended: Value, confidence: real, impact: Level)
  {
    function Path(): string { PathOf(setting) }
  }

  /** The keys of each setting's dotted path. */
  function PathParts(s: Setting): seq<string> {
    match s
    case StopLoss => ["risk_management", "stop_loss_percent"]
    case TakeProfit => ["risk_management", "take_profit_percent"]
    case PositionSize => ["risk_management", "max_position_size_percent"]
    case SignalStrength => ["entry_rules", "min_signal_strength"]
    case Timeframe => ["timeframe"]
    case TrailingStop => ["risk_management", "trailing_stop_enabled"]
  }

  /** `parameter_path.split('.')` gives the keys of the path. */
  lemma SplitPath(s: Setting)
    ensures Split(PathOf(s), '.') == PathParts(s)
  {
    match s
    case StopLoss => SplitStopLoss();
    case TakeProfit => SplitTakeProfit();
    case PositionSize => SplitPositionSize();
    case SignalStrength => SplitSignalStrength();
    case Timeframe => SplitPlain("timeframe", '.');
    case TrailingStop => SplitTrailingStop();
  }

  // Facts about the literal paths, one small lemma each: checked together,
  // the character-by-character comparisons are more than the solver needs
  // to see at once.
  lemma RiskSectionPlain()
    ensures '.' !in "risk_management"
  {
  }

  lemma EntrySectionPlain()
    ensures '.' !in "entry_rules"
  {
  }

  lemma StopLossPathText()
    ensures '.' !in "stop_loss_percent" && PathOf(StopLoss) == "risk_management" + "." + "stop_loss_percent"
  {
  }

  lemma SplitStopLoss()
    ensures Split(PathOf(StopLoss), '.') == PathParts(StopLoss)
  {
    RiskSectionPlain();
    StopLossPathText();
    SplitSection("risk_management", "stop_loss_percent", PathOf(StopLoss));
  }

  lemma TakeProfitPathText()
    ensures '.' !in "take_profit_percent" && PathOf(TakeProfit) == "risk_management" + "." + "take_profit_percent"
  {
  }

  lemma SplitTakeProfit()
    ensures Split(PathOf(TakeProfit), '.') == PathParts(TakeProfit)
  {
    RiskSectionPlain();
    TakeProfitPathText();
    SplitSection("risk_management", "take_profit_percent", PathOf(TakeProfit));
  }

  lemma PositionSizePathText()
    ensures '.' !in "max_position_size_percent" && PathOf(PositionSize) == "risk_management" + "." + "max_position_size_percent"
  {
  }

  lemma SplitPositionSize()
    ensures Split(PathOf(PositionSize), '.') == PathParts(PositionSize)
  {
    RiskSectionPlain();
    PositionSizePathText();
    SplitSection("risk_management", "max_position_size_percent", PathOf(PositionSize));
  }

  lemma SignalStrengthPathText()
    ensures '.' !in "min_signal_strength" && PathOf(SignalStrength) == "entry_rules" + "." + "min_signal_strength"
  {
  }

  lemma SplitSignalStrength()
    ensures Split(PathOf(SignalStrength), '.') == PathParts(SignalStrength)
  {
    EntrySectionPlain();
    SignalStrengthPathText();
    SplitSection("entry_rules", "min_signal_strength", PathOf(SignalStrength));
  }

  lemma TrailingStopPathText()
    ensures '.' !in "trailing_stop_enabled" && PathOf(TrailingStop) == "risk_management" + "." + "trailing_stop_enabled"
  {
  }

  lemma SplitTrailingStop()
    ensures Split(PathOf(TrailingStop), '.') == PathParts(TrailingStop)
  {
    RiskSectionPlain();
    TrailingStopPathText();
    SplitSection("risk_management", "trailing_stop_enabled", PathOf(TrailingStop));
  }

  lemma SplitSection(section: string, key: string, path: string)
    requires '.' !in section && '.' !in key && path == section + "." + key
    ensures Split(path, '.') == [section, key]
  {
    SplitAt(section, key, '.');
    SplitPlain(key, '.');
  }

  /** The paths of two different settings part at some key. */
  lemma PartsDiverge(s: Setting, t: Setting)
    requires s != t
    ensures Diverge(PathParts(s), PathParts(t))
  {
  }

  /** The two sections a path goes through are missing or dictionaries. */
  predicate Nested(d: Dict) {
    SectionOpen(d, "risk_management") && SectionOpen(d, "entry_rules")
  }

  predicate SectionOpen(d: Dict, key: string) {
    match Get(d, key)
    case None => true
    case Some(VDict(_)) => true
    case Some(_) => false
  }

  /** While both sections are dictionaries, every setting's path is open,
      and setting it keeps them dictionaries. */
  lemma SetNested(d: Dict, s: Setting, v: Value)
    requires Nested(d)
    ensures SetPath(d, PathParts(s), v).Ok?
    ensures Nested(SetPath(d, PathParts(s), v).value)
  {
    var path := PathParts(s);
    assert |path| == 1 || path[0] == "risk_management" || path[0] == "entry_rules";
    assert PathOpen(d, path);
    SectionAfterSet(d, path, v, "risk_management");
    SectionAfterSet(d, path, v, "entry_rules");
  }

  /** A section stays missing or a dictionary when a path is set: it is
      either off the path or a step the walk goes down through. */
  lemma SectionAfterSet(d: Dict, path: seq<string>, v: Value, key: string)
    requires |path| >= 1 && SetPath(d, path, v).Ok? && SectionOpen(d, key)
    requires |path| > 1 || path[0] != key
    ensures SectionOpen(SetPath(d, path, v).value, key)
  {
    if path[0] == key {
      SetPathStep(d, path, v);
    }
  }

  /** Recommendation `i` is the last one for its setting. */
  predicate Final(recs: seq<Recommendation>, i: int)
    requires 0 <= i < |recs|
  {
    forall j :: i < j < |recs| ==> recs[j].setting != recs[i].setting
  }

  /** Every recommendation not overridden later sits at its path. */
  predicate Placed(d: Dict, recs: seq<Recommendation>) {
    forall i :: 0 <= i < |recs| && Final(recs, i) ==>
      GetPath(d, Split(recs[i].Path(), '.')) == Some(recs[i].recommended)
  }

  /** `_extract_risk_param`: the setting under `risk_management`, or the
      default when that is not a dictionary or lacks the key.  The value is
      returned as stored, whatever its type. */
  function ExtractRiskParam(strategy: Dict, name: string, default: real): (v: Value)
    ensures !GetOr(strategy, "risk_management", VDict([])).VDict? ==> v == VNum(default)
    ensures GetOr(strategy, "risk_management", VDict([])).VDict? ==>
      var rm := GetOr(strategy, "risk_management", VDict([])).fields;
      (name !in Keys(rm) ==> v == VNum(default)) && (name in Keys(rm) ==> Get(rm, name) == Some(v))
  {
    var rm := GetOr(strategy, "risk_management", VDict([]));
    if rm.VDict? then GetOr(rm.fields, name, VNum(default)) else VNum(default)
  }

  /** A rule that scales the risk setting `name` to
      `round(current * factor, digits)`.  Multiplying anything but a number
      or a boolean raises `TypeError`. */
  function Scaled(strategy: Dict, s: Setting, name: string, default: real, factor: real, digits: int,
                  confidence: real, impact: Level, round: (real, int) -> real): (r: Result<Option<Recommendation>>)
    ensures r.Ok? <==> Numeric(ExtractRiskParam(strategy, name, default)).Some?
    ensures r.Ok? ==> r.value == Some(Recommendation(s, ExtractRiskParam(strategy, name, default),
      VNum(round(Scale(Numeric(ExtractRiskParam(strategy, name, default)).value, factor), digits)), confidence, impact))
  {
    var current := ExtractRiskParam(strategy, name, default);
    if Numeric(current).None? then Err("TypeError")
    else Ok(Some(Recommendation(s, current, VNum(round(Scale(Numeric(current).value, factor), digits)), confidence, impact)))
  }

  /** When each rule fires. */
  predicate Fires(strategy: Dict, stats: seq<AssetStatistics>, volatility: Level, s: Setting)
    requires |stats| > 0
  {
    match s
    case StopLoss => WorstDrawdown(stats) > 15.0
    case TakeProfit => AvgWinRate(stats) < 0.45 && NetProfit(stats) < 0.0
    case PositionSize => NetProfit(stats) < -50.0
    case SignalStrength => AvgWinRate(stats) < 0.40
    case Timeframe =>
      volatility.High? && GetOr(strategy, "timeframe", VStr("1h")) in [VStr("4h"), VStr("1d")]
    case TrailingStop => AvgWinRate(stats) > 0.6 && NetProfit(stats) > 0.0
  }

  /** A recommendation for `s` is in the list. */
  predicate Present(recs: seq<Recommendation>, s: Setting) {
    exists i :: 0 <= i < |recs| && recs[i].setting == s
  }

  /** Settings strictly in rule order, so each at most once. */
  ghost predicate Ascending(recs: seq<Recommendation>) {
    forall i, j :: 0 <= i < j < |recs| ==> Order(recs[i].setting) < Order(recs[j].setting)
  }

  /** All settings come before the rule with order `k`. */
  ghost predicate Before(recs: seq<Recommendation>, k: nat) {
    |recs| <= k && forall i :: 0 <= i < |recs| ==> Order(recs[i].setting) < k
  }

  /** `recommendations.append(...)` of the rule with order `k` keeps the
      list in rule order. */
  lemma AddStep(recs: seq<Recommendation>, o: Option<Recommendation>, k: nat)
    requires Ascending(recs) && Before(recs, k)
    requires o.Some? ==> Order(o.value.setting) == k
    ensures Ascending(recs + Listed(o)) && Before(recs + Listed(o), k + 1)
  {
  }

  /** An optional recommendation as a list of at most one. */
  function Listed(o: Option<Recommendation>): (r: seq<Recommendation>)
    ensures forall t :: Present(r, t) <==> o.Some? && o.value.setting == t
  {
    if o.Some? then
      assert [o.value][0] == o.value;
      [o.value]
    else []
  }

  lemma PresentAppend(a: seq<Recommendation>, b: seq<Recommendation>, t: Setting)
    ensures Present(a + b, t) <==> Present(a, t) || Present(b, t)
  {
    if Present(a, t) {
      var i :| 0 <= i < |a| && a[i].setting == t;
      assert (a + b)[i] == a[i];
    }
    if Present(b, t) {
      var i :| 0 <= i < |b| && b[i].setting == t;
      assert (a + b)[|a| + i] == b[i];
    }
    if Present(a + b, t) {
      var i :| 0 <= i < |a + b| && (a + b)[i].setting == t;
      if i >= |a| { assert b[i - |a|] == (a + b)[i]; }
    }
  }

  /** What each of the six rules produced. */
  datatype Outcomes = Outcomes(
    stopLoss: Option<Recommendation>, takeProfit: Option<Recommendation>,
    positionSize: Option<Recommendation>, signalStrength: Option<Recommendation>,
    timeframe: Option<Recommendation>, trailingStop: Option<Recommendation>)
  {
    function Of(s: Setting): Option<Recommendation> {
      match s
      case StopLoss => stopLoss
      case TakeProfit => takeProfit
      case PositionSize => positionSize
      case SignalStrength => signalStrength
      case Timeframe => timeframe
      case TrailingStop => trailingStop
    }

    /** Each rule only ever recommends its own setting. */
    predicate Labelled() {
      && (stopLoss.Some? ==> stopLoss.value.setting == StopLoss)
      && (takeProfit.Some? ==> takeProfit.value.setting == TakeProfit)
      && (positionSize.Some? ==> positionSize.value.setting == PositionSize)
      && (signalStrength.Some? ==> signalStrength.value.setting == SignalStrength)
      && (timeframe.Some? ==> timeframe.value.setting == Timeframe)
      && (trailingStop.Some? ==> trailingStop.value.setting == TrailingStop)
    }
  }

  /** The recommendations in rule order. */
  function Collect(o: Outcomes): (r: seq<Recommendation>)
    requires o.Labelled()
    ensures |r| <= 6 && Ascending(r)
    ensures r == Listed(o.stopLoss) + Listed(o.takeProfit) + Listed(o.positionSize)
      + Listed(o.signalStrength) + Listed(o.timeframe) + Listed(o.trailingStop)
  {
    var r1 := Listed(o.stopLoss);
    var r2 := r1 + Listed(o.takeProfit);
    var r3 := r2 + Listed(o.positionSize);
    var r4 := r3 + Listed(o.signalStrength);
    var r5 := r4 + Listed(o.timeframe);
    AddStep([], o.stopLoss, 0);
    assert r1 == [] + Listed(o.stopLoss);
    AddStep(r1, o.takeProfit, 1);
    AddStep(r2, o.positionSize, 2);
    AddStep(r3, o.signalStrength, 3);
    AddStep(r4, o.timeframe, 4);
    AddStep(r5, o.trailingStop, 5);
    r5 + Listed(o.trailingStop)
  }

  /** A setting is recommended exactly when its rule produced something. */
  lemma CollectPresent(o: Outcomes, t: Setting)
    requires o.Labelled()
    ensures Present(Collect(o), t) <==> o.Of(t).Some?
  {
    var a := Listed(o.stopLoss);
    var b := Listed(o.takeProfit);
    var c := Listed(o.positionSize);
    var d := Listed(o.signalStrength);
    var e := Listed(o.timeframe);
    var f := Listed(o.trailingStop);
    PresentAppend(a, b, t);
    PresentAppend(a + b, c, t);
    PresentAppend(a + b + c, d, t);
    PresentAppend(a + b + c + d, e, t);
    PresentAppend(a + b + c + d + e, f, t);
    assert o.Of(StopLoss) == o.stopLoss && o.Of(TakeProfit) == o.takeProfit;
    assert o.Of(PositionSize) == o.positionSize && o.Of(SignalStrength) == o.signalStrength;
    assert o.Of(Timeframe) == o.timeframe && o.Of(TrailingStop) == o.trailingStop;
  }

  /** The six rules of `_generate_recommendations`, each tested on the
      aggregated statistics.  The three scaling rules fail with `TypeError`
      when the current setting is not a number. */
  function Rules(strategy: Dict, stats: seq<AssetStatistics>, volatility: Level,
                 round: (real, int) -> real): (r: Result<Outcomes>)
    requires |stats| > 0
    ensures r.Err? <==>
      (Fires(strategy, stats, volatility, StopLoss)
       && Numeric(ExtractRiskParam(strategy, "stop_loss_percent", 2.0)).None?)
      || (Fires(strategy, stats, volatility, TakeProfit)
          && Numeric(ExtractRiskParam(strategy, "take_profit_percent", 4.0)).None?)
      || (Fires(strategy, stats, volatility, PositionSize)
          && Numeric(ExtractRiskParam(strategy, "max_position_size_percent", 10.0)).None?)
    ensures r.Ok? ==> r.value.Labelled()
    ensures r.Ok? ==>
      && (r.value.stopLoss.Some? <==> Fires(strategy, stats, volatility, StopLoss))
      && (r.value.takeProfit.Some? <==> Fires(strategy, stats, volatility, TakeProfit))
      && (r.value.positionSize.Some? <==> Fires(strategy, stats, volatility, PositionSize))
      && (r.value.signalStrength.Some? <==> Fires(strategy, stats, volatility, SignalStrength))
      && (r.value.timeframe.Some? <==> Fires(strategy, stats, volatility, Timeframe))
      && (r.value.trailingStop.Some? <==> Fires(strategy, stats, volatility, TrailingStop))
    ensures r.Ok? && Fires(strategy, stats, volatility, StopLoss) ==>
      var current := ExtractRiskParam(strategy, "stop_loss_percent", 2.0);
      r.value.stopLoss == Some(Recommendation(StopLoss, current, VNum(round(Scale(Numeric(current).value, 0.8), 2)), 0.85, High))
    ensures r.Ok? && Fires(strategy, stats, volatility, TakeProfit) ==>
      var current := ExtractRiskParam(strategy, "take_profit_percent", 4.0);
      r.value.takeProfit == Some(Recommendation(TakeProfit, current, VNum(round(Scale(Numeric(current).value, 0.7), 2)), 0.75, Medium))
    ensures r.Ok? && Fires(strategy, stats, volatility, PositionSize) ==>
      var current := ExtractRiskParam(strategy, "max_position_size_percent", 10.0);
      r.value.positionSize == Some(Recommendation(PositionSize, current, VNum(round(Scale(Numeric(current).value, 0.7), 1)), 0.9, High))
  {
    var scaled :- ScalingRules(strategy, stats, volatility, round);
    var (strength, faster, trailing) := PlainRules(strategy, stats, volatility);
    Ok(Outcomes(scaled.0, scaled.1, scaled.2, strength, faster, trailing))
  }

  /** The three rules that scale a risk setting: stop loss, take profit and
      position size. */
  function ScalingRules(strategy: Dict, stats: seq<AssetStatistics>, volatility: Level,
                        round: (real, int) -> real)
    : (r: Result<(Option<Recommendation>, Option<Recommendation>, Option<Recommendation>)>)
    requires |stats| > 0
    ensures r.Err? <==>
      (Fires(strategy, stats, volatility, StopLoss)
       && Numeric(ExtractRiskParam(strategy, "stop_loss_percent", 2.0)).None?)
      || (Fires(strategy, stats, volatility, TakeProfit)
          && Numeric(ExtractRiskParam(strategy, "take_profit_percent", 4.0)).None?)
      || (Fires(strategy, stats, volatility, PositionSize)
          && Numeric(ExtractRiskParam(strategy, "max_position_size_percent", 10.0)).None?)
    ensures r.Ok? ==>
      && (r.value.0.Some? <==> Fires(strategy, stats, volatility, StopLoss))
      && (r.value.1.Some? <==> Fires(strategy, stats, volatility, TakeProfit))
      && (r.value.2.Some? <==> Fires(strategy, stats, volatility, PositionSize))
      && (r.value.0.Some? ==> r.value.0.value.setting == StopLoss)
      && (r.value.1.Some? ==> r.value.1.value.setting == TakeProfit)
      && (r.value.2.Some? ==> r.value.2.value.setting == PositionSize)
    ensures r.Ok? && Fires(strategy, stats, volatility, StopLoss) ==>
      var current := ExtractRiskParam(strategy, "stop_loss_percent", 2.0);
      r.value.0 == Some(Recommendation(StopLoss, current, VNum(round(Scale(Numeric(current).value, 0.8), 2)), 0.85, High))
    ensures r.Ok? && Fires(strategy, stats, volatility, TakeProfit) ==>
      var current := ExtractRiskParam(strategy, "take_profit_percent", 4.0);
      r.value.1 == Some(Recommendation(TakeProfit, current, VNum(round(Scale(Numeric(current).value, 0.7), 2)), 0.75, Medium))
    ensures r.Ok? && Fires(strategy, stats, volatility, PositionSize) ==>
      var current := ExtractRiskParam(strategy, "max_position_size_percent", 10.0);
      r.value.2 == Some(Recommendation(PositionSize, current, VNum(round(Scale(Numeric(current).value, 0.7), 1)), 0.9, High))
  {
    var winRate := AvgWinRate(stats);
    var drawdown := WorstDrawdown(stats);
    var net := NetProfit(stats);
    var stopLoss := if drawdown > 15.0 then Scaled(strategy, StopLoss, "stop_loss_percent", 2.0, 0.8, 2, 0.85, High, round) else Ok(None);
    var takeProfit :=
      if winRate < 0.45 && net < 0.0 then Scaled(strategy, TakeProfit, "take_profit_percent", 4.0, 0.7, 2, 0.75, Medium, round) else Ok(None);
    var position := if net < -50.0 then Scaled(strategy, PositionSize, "max_position_size_percent", 10.0, 0.7, 1, 0.9, High, round) else Ok(None);
    if stopLoss.Err? || takeProfit.Err? || position.Err? then Err("TypeError")
    else Ok((stopLoss.value, takeProfit.value, position.value))
  }

  /** The three rules that recommend fixed values: signal strength, a
      faster timeframe and the trailing stop. */
  function PlainRules(strategy: Dict, stats: seq<AssetStatistics>, volatility: Level)
    : (r: (Option<Recommendation>, Option<Recommendation>, Option<Recommendation>))
    requires |stats| > 0
    ensures r.0.Some? <==> Fires(strategy, stats, volatility, SignalStrength)
    ensures r.1.Some? <==> Fires(strategy, stats, volatility, Timeframe)
    ensures r.2.Some? <==> Fires(strategy, stats, volatility, TrailingStop)
    ensures r.0.Some? ==> r.0.value == Recommendation(SignalStrength, VNum(0.6), VNum(0.75), 0.8, Medium)
    ensures r.1.Some? ==> r.1.value == Recommendation(Timeframe, GetOr(strategy, "timeframe", VStr("1h")), VStr("1h"), 0.65, Medium)
    ensures r.2.Some? ==> r.2.value == Recommendation(TrailingStop, VBool(false), VBool(true), 0.7, Low)
  {
    var winRate := AvgWinRate(stats);
    var net := NetProfit(stats);
    var timeframe := GetOr(strategy, "timeframe", VStr("1h"));
    var strength :=
      if winRate < 0.40 then Some(Recommendation(SignalStrength, VNum(0.6), VNum(0.75), 0.8, Medium)) else None;
    var faster :=
      if volatility.High? && timeframe in [VStr("4h"), VStr("1d")]
      then Some(Recommendation(Timeframe, timeframe, VStr("1h"), 0.65, Medium)) else None;
    var trailing :=
      if winRate > 0.6 && net > 0.0
      then Some(Recommendation(TrailingStop, VBool(false), VBool(true), 0.7, Low)) else None;
    (strength, faster, trailing)
  }

  /** `_generate_recommendations`: no statistics, no recommendations;
      otherwise the recommendations of the rules that fired, in rule order. */
  function GenerateRecommendations(strategy: Dict, stats: seq<AssetStatistics>, volatility: Level,
                                   round: (real, int) -> real): (r: Result<seq<Recommendation>>)
    ensures |stats| == 0 ==> r == Ok([])
    ensures r.Ok? ==> |r.value| <= 6 && Ascending(r.value)
    ensures |stats| > 0 ==> (r.Err? <==> Rules(strategy, stats, volatility, round).Err?)
    ensures |stats| > 0 && r.Ok? && Fires(strategy, stats, volatility, StopLoss) ==>
      var current := ExtractRiskParam(strategy, "stop_loss_percent", 2.0);
      |r.value| > 0 && r.value[0] == Recommendation(StopLoss, current, VNum(round(Scale(Numeric(current).value, 0.8), 2)), 0.85, High)
  {
    if |stats| == 0 then Ok([])
    else
      match Rules(strategy, stats, volatility, round)
      case Err(e) => Err(e)
      case Ok(o) => Ok(Collect(o))
  }

  /** A setting is recommended exactly when its rule fires. */
  lemma GeneratePresent(strategy: Dict, stats: seq<AssetStatistics>, volatility: Level,
                        round: (real, int) -> real, t: Setting)
    requires |stats| > 0 && GenerateRecommendations(strategy, stats, volatility, round).Ok?
    ensures Present(GenerateRecommendations(strategy, stats, volatility, round).value, t)
      <==> Fires(strategy, stats, volatility, t)
  {
    var o := Rules(strategy, stats, volatility, round).value;
    CollectPresent(o, t);
  }

  // ----------------------------------------------------------- compilation

  /** `_compile_adjustments`: every recommended value stored at the nested
      location its dotted path names, in order.  The six paths never run
      into a value that is not a dictionary, so the walk never fails, and
      the value left at each path is that of the last recommendation for
      its setting. */
  function CompileAdjustments(recs: seq<Recommendation>): (r: Result<Dict>)
    ensures r.Ok?
    ensures UniqueKeys(r.value) && Nested(r.value)
    ensures forall i :: 0 <= i < |recs| && Final(recs, i) ==>
      GetPath(r.value, Split(recs[i].Path(), '.')) == Some(recs[i].recommended)
    ensures |recs| > 0 ==>
      GetPath(r.value, Split(recs[|recs| - 1].Path(), '.')) == Some(recs[|recs| - 1].recommended)
    decreases |recs|
  {
    if |recs| == 0 then Ok([])
    else
      var last := recs[|recs| - 1];
      var before := CompileAdjustments(recs[..|recs| - 1]);
      CompileStep(before.value, recs[..|recs| - 1], last);
      LastSplit(recs);
      SetPath(before.value, Split(last.Path(), '.'), last.recommended)
  }

  lemma LastSplit(recs: seq<Recommendation>)
    requires |recs| > 0
    ensures recs == recs[..|recs| - 1] + [recs[|recs| - 1]]
  {
  }

  /** One more recommendation keeps the sections dictionaries, lands at its
      path, and leaves the recommendations of every other setting where
      they were. */
  lemma {:induction false} CompileStep(d: Dict, recs: seq<Recommendation>, x: Recommendation)
    requires UniqueKeys(d) && Nested(d) && Placed(d, recs)
    ensures SetPath(d, Split(x.Path(), '.'), x.recommended).Ok?
    ensures UniqueKeys(SetPath(d, Split(x.Path(), '.'), x.recommended).value)
    ensures Nested(SetPath(d, Split(x.Path(), '.'), x.recommended).value)
    ensures Placed(SetPath(d, Split(x.Path(), '.'), x.recommended).value, recs + [x])
  {
    SplitPath(x.setting);
    SetNested(d, x.setting, x.recommended);
    var r := SetPath(d, PathParts(x.setting), x.recommended).value;
    var all := recs + [x];
    forall i | 0 <= i < |all| && Final(all, i)
      ensures GetPath(r, Split(all[i].Path(), '.')) == Some(all[i].recommended)
    {
      if i < |recs| {
        assert all[i] == recs[i] && all[|recs|] == x;
        assert Final(recs, i) by {
          forall j | i < j < |recs| ensures recs[j].setting != recs[i].setting {
            assert all[j] == recs[j];
          }
        }
        SplitPath(recs[i].setting);
        PartsDiverge(x.setting, recs[i].setting);
        SetPathFrame(d, PathParts(x.setting), x.recommended, PathParts(recs[i].setting));
      }
    }
  }

  /** Compiling one more recommendation is one more `SetPath`. */
  lemma CompileSnoc(recs: seq<Recommendation>, x: Recommendation)
    ensures CompileAdjustments(recs + [x]) ==
      if CompileAdjustments(recs).Err? then CompileAdjustments(recs)
      else SetPath(CompileAdjustments(recs).value, Split(x.Path(), '.'), x.recommended)
  {
    assert (recs + [x])[..|recs|] == recs;
  }

  /** A later recommendation for the same setting overwrites an earlier one. */
  lemma LastWriteWins(recs: seq<Recommendation>, a: Recommendation, b: Recommendation)
    requires a.setting == b.setting
    ensures CompileAdjustments(recs + [a, b]) == CompileAdjustments(recs + [b])
  {
    assert recs + [a, b] == (recs + [a]) + [b];
    CompileSnoc(recs + [a], b);
    CompileSnoc(recs, a);
    CompileSnoc(recs, b);
    var before := CompileAdjustments(recs);
    if before.Ok? {
      var path := Split(a.Path(), '.');
      if SetPath(before.value, path, a.recommended).Ok? {
        SetTwice(before.value, path, a.recommended, b.recommended);
      }
    }
  }
}
