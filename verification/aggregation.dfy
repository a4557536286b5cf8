/** Statistics and market-condition tables of the aggregation service
    (services/data_aggregation_service.py).  Trades enter as their profit or
    loss (`profit_loss`, 0 when missing); time enters as numbers. */
module Aggregation {
  import opened Wrappers
  import opened Text
  import opened Values
  import Indicators

  // ------------------------------------------------------------ sessions

  datatype Session =
    | AsianSession
    | OverlapAsianEuropean
    | EuropeanSession
    | OverlapEuropeanAmerican
    | AmericanSession

  function SessionName(s: Session): string {
    match s
    case AsianSession => "asian_session"
    case OverlapAsianEuropean => "overlap_asian_european"
    case EuropeanSession => "european_session"
    case OverlapEuropeanAmerican => "overlap_european_american"
    case AmericanSession => "american_session"
  }

  /** `_get_trading_session` for a UTC hour; any hour outside [0, 20) that is
      not caught earlier falls to the American session. */
  function TradingSession(hour: int): (s: Session)
    ensures 0 <= hour < 8 <==> s == AsianSession
    ensures 8 <= hour < 12 <==> s == OverlapAsianEuropean
    ensures 12 <= hour < 16 <==> s == EuropeanSession
    ensures 16 <= hour < 20 <==> s == OverlapEuropeanAmerican
    ensures hour < 0 || hour >= 20 <==> s == AmericanSession
  {
    if 0 <= hour < 8 then AsianSession
    else if 8 <= hour < 12 then OverlapAsianEuropean
    else if 12 <= hour < 16 then EuropeanSession
    else if 16 <= hour < 20 then OverlapEuropeanAmerican
    else AmericanSession
  }

  /** `_is_peak_hours`: the two overlap windows on weekdays (Monday = 0). */
  function IsPeakHours(hour: int, weekday: int): (r: bool)
    ensures weekday >= 5 ==> !r
    ensures r <==> weekday < 5 && (TradingSession(hour) == OverlapAsianEuropean || TradingSession(hour) == OverlapEuropeanAmerican)
  {
    weekday < 5 && (8 <= hour < 12 || 16 <= hour < 20)
  }

  /** Exactly the two overlap sessions have "overlap" in their names. */
  lemma OverlapNames(s: Session)
    ensures HasOverlap(SessionName(s)) <==> s == OverlapAsianEuropean || s == OverlapEuropeanAmerican
  {
    var name := SessionName(s);
    match s
    case OverlapAsianEuropean => OverlapFirst(name);
    case OverlapEuropeanAmerican => OverlapFirst(name);
    case AsianSession => NoOverlap(name);
    case EuropeanSession => NoOverlap(name);
    case AmericanSession => NoOverlap(name);
  }

  /** A name that starts with "overlap" contains it. */
  lemma OverlapFirst(name: string)
    requires "overlap" <= name
    ensures HasOverlap(name)
  {
  }

  /** A name without the letter 'v' cannot contain "overlap". */
  lemma NoOverlap(name: string)
    requires 'v' !in name
    ensures !HasOverlap(name)
  {
    if Contains(name, "overlap") {
      assert "overlap"[1] == 'v';
      ContainsChar(name, "overlap", 'v');
    }
  }

  /** On weekdays the peak hours are exactly the overlap sessions. */
  lemma PeakIsOverlap(hour: int, weekday: int)
    requires weekday < 5
    ensures IsPeakHours(hour, weekday) <==> HasOverlap(SessionName(TradingSession(hour)))
  {
    OverlapNames(TradingSession(hour));
  }

  // ------------------------------------------------------ recommendations

  datatype Level = Low | Medium | High
  datatype Trend = Bullish | Bearish | Sideways
  datatype StrategyType = Scalping | Contrarian | Momentum | Swing

  /** `'overlap' in time_of_day`. */
  predicate HasOverlap(timeOfDay: string) {
    Contains(timeOfDay, "overlap")
  }

  /** `_recommend_strategy_type`: the first matching rule decides. */
  function RecommendStrategyType(timeOfDay: string, volatility: Level, trend: Trend): (r: StrategyType)
    ensures r.Scalping? <==> volatility.High? && HasOverlap(timeOfDay)
    ensures r.Contrarian? <==> volatility.Low?
    ensures r.Momentum? <==> volatility.Medium? && !trend.Sideways?
    ensures r.Swing? <==> (volatility.High? && !HasOverlap(timeOfDay)) || (volatility.Medium? && trend.Sideways?)
  {
    if volatility.High? && HasOverlap(timeOfDay) then Scalping
    else if volatility.Low? then Contrarian
    else if !trend.Sideways? && volatility.Medium? then Momentum
    else Swing
  }

  /** High volatility on a weekday at peak hours calls for scalping. */
  lemma PeakHighVolatility(hour: int, weekday: int, trend: Trend)
    requires IsPeakHours(hour, weekday)
    ensures RecommendStrategyType(SessionName(TradingSession(hour)), High, trend) == Scalping
  {
    PeakIsOverlap(hour, weekday);
  }

  /** `_calculate_risk_level`. */
  function RiskLevel(volatility: Level, isPeakHours: bool): (r: Level)
    ensures volatility == High ==> r == High
    ensures r == Low <==> volatility == Low && !isPeakHours
    ensures r == High <==> volatility == High
  {
    if volatility == High then High
    else if volatility == Low && !isPeakHours then Low
    else Medium
  }

  // ------------------------------------------------------------- trades

  /** The per-period statistics record (dates and the aggregation time are
      not modelled). */
  datatype AssetStatistics = AssetStatistics(
    asset: string, period: string,
    totalSignals: int, totalTrades: int, successfulTrades: int, failedTrades: int, winRate: real,
    totalProfit: real, totalLoss: real, netProfit: real, averageProfit: real,
    maxProfit: real, maxLoss: real,
    averagePrice: real, minPrice: real, maxPrice: real, priceVolatility: real,
    sharpeRatio: real, maxDrawdown: real, averageTradeDuration: real,
    dataQualityScore: real)

  /** A new record with the dataclass defaults. */
  function Fresh(asset: string, period: string, totalTrades: int): AssetStatistics {
    AssetStatistics(asset, period, 0, totalTrades, 0, 0, 0.0, 0.0, 0.0, 0.0, 0.0, 0.0, 0.0,
                    0.0, 0.0, 0.0, 0.0, 0.0, 0.0, 0.0, 1.0)
  }

  /** `part / whole` as a real ratio. */
  function Share(part: int, whole: int): (r: real)
    requires whole > 0
    ensures 0 <= part <= whole ==> 0.0 <= r <= 1.0
    ensures part == 0 ==> r == 0.0
    ensures part == whole ==> r == 1.0
  {
    var r := part as real / whole as real;
    if 0 <= part <= whole then
      Fraction(part as real, whole as real);
      r
    else r
  }

  lemma Fraction(a: real, w: real)
    requires 0.0 <= a <= w && w > 0.0
    ensures 0.0 <= a / w <= 1.0
  {
  }

  function Positives(pls: seq<real>): (r: seq<real>)
    ensures |r| <= |pls|
    ensures forall i :: 0 <= i < |r| ==> r[i] > 0.0
  {
    if |pls| == 0 then []
    else (if pls[0] > 0.0 then [pls[0]] else []) + Positives(pls[1..])
  }

  /** `abs(pl)` of every loss. */
  function LossSizes(pls: seq<real>): (r: seq<real>)
    ensures |r| <= |pls|
    ensures forall i :: 0 <= i < |r| ==> r[i] > 0.0
  {
    if |pls| == 0 then []
    else (if pls[0] < 0.0 then [-pls[0]] else []) + LossSizes(pls[1..])
  }

  function MaxOf(s: seq<real>): (m: real)
    requires |s| > 0
    ensures forall i :: 0 <= i < |s| ==> s[i] <= m
    ensures m in s
  {
    if |s| == 1 then s[0]
    else
      var rest := MaxOf(s[1..]);
      if s[0] >= rest then s[0] else rest
  }

  /** Profits minus losses is the plain sum of the results. */
  lemma {:induction false} SplitSum(pls: seq<real>)
    ensures Indicators.Sum(Positives(pls)) - Indicators.Sum(LossSizes(pls)) == Indicators.Sum(pls)
  {
    if |pls| > 0 {
      SplitSum(pls[1..]);
      SumConcat(if pls[0] > 0.0 then [pls[0]] else [], Positives(pls[1..]));
      SumConcat(if pls[0] < 0.0 then [-pls[0]] else [], LossSizes(pls[1..]));
    }
  }

  lemma {:induction false} SumConcat(a: seq<real>, b: seq<real>)
    ensures Indicators.Sum(a + b) == Indicators.Sum(a) + Indicators.Sum(b)
  {
    if |a| == 0 {
      assert a + b == b;
    } else {
      assert (a + b)[1..] == a[1..] + b;
      SumConcat(a[1..], b);
    }
  }

  lemma SumPositive(s: seq<real>)
    requires forall i :: 0 <= i < |s| ==> s[i] > 0.0
    ensures Indicators.Sum(s) >= 0.0
  {
    Indicators.SumNonNegative(s);
  }

  /** `_analyze_trades` (trade durations are not modelled).  `stats` already
      holds the trade count; fields without data keep their values. */
  function AnalyzeTrades(stats: AssetStatistics, pls: seq<real>): (r: AssetStatistics)
    ensures r.asset == stats.asset && r.period == stats.period && r.totalTrades == stats.totalTrades
    ensures r.totalSignals == stats.totalSignals && r.averagePrice == stats.averagePrice
    ensures r.priceVolatility == stats.priceVolatility && r.sharpeRatio == stats.sharpeRatio
    ensures r.successfulTrades == |Positives(pls)| && r.failedTrades == |LossSizes(pls)|
    ensures r.successfulTrades + r.failedTrades <= |pls|
    ensures stats.totalTrades == |pls| > 0 ==> 0.0 <= r.winRate <= 1.0
    ensures r.netProfit == r.totalProfit - r.totalLoss
    ensures stats.totalProfit >= 0.0 && stats.totalLoss >= 0.0 ==> r.totalProfit >= 0.0 && r.totalLoss >= 0.0
    ensures |Positives(pls)| > 0 ==> r.totalProfit == Indicators.Sum(Positives(pls))
    ensures |LossSizes(pls)| > 0 ==> r.totalLoss == Indicators.Sum(LossSizes(pls))
    ensures stats.totalTrades > 0 ==> r.winRate == Share(r.successfulTrades, stats.totalTrades)
    ensures |Positives(pls)| > 0 ==> r.maxProfit == MaxOf(Positives(pls))
    ensures |Positives(pls)| > 0 ==> r.averageProfit == r.totalProfit / |Positives(pls)| as real
    ensures |LossSizes(pls)| > 0 ==> r.maxLoss == MaxOf(LossSizes(pls))
    ensures stats.totalTrades <= 0 ==> r.winRate == stats.winRate
    ensures |Positives(pls)| == 0 ==>
      r.totalProfit == stats.totalProfit && r.maxProfit == stats.maxProfit && r.averageProfit == stats.averageProfit
    ensures |LossSizes(pls)| == 0 ==> r.totalLoss == stats.totalLoss && r.maxLoss == stats.maxLoss
  {
    var wins := Positives(pls);
    var losses := LossSizes(pls);
    CountSplit(pls);
    var winRate := if stats.totalTrades > 0 then Share(|wins|, stats.totalTrades) else stats.winRate;
    var totalProfit := if |wins| > 0 then Indicators.Sum(wins) else stats.totalProfit;
    var maxProfit := if |wins| > 0 then MaxOf(wins) else stats.maxProfit;
    var averageProfit := if |wins| > 0 then totalProfit / |wins| as real else stats.averageProfit;
    var totalLoss := if |losses| > 0 then Indicators.Sum(losses) else stats.totalLoss;
    var maxLoss := if |losses| > 0 then MaxOf(losses) else stats.maxLoss;
    SumPositive(wins);
    SumPositive(losses);
    stats.(successfulTrades := |wins|, failedTrades := |losses|, winRate := winRate,
           totalProfit := totalProfit, maxProfit := maxProfit, averageProfit := averageProfit,
           totalLoss := totalLoss, maxLoss := maxLoss, netProfit := totalProfit - totalLoss)
  }

  /** `t.get('profit_loss', 0)` of one trade row. */
  function ProfitLoss(trade: Dict): Value {
    GetOr(trade, "profit_loss", VNum(0.0))
  }

  /** A trade row whose result is no number: `None` for a trade still open. */
  predicate Unsettled(trade: Dict) {
    Numeric(ProfitLoss(trade)).None?
  }

  /** The results of the trade rows as numbers.  Comparing a result that is
      not a number with 0, as the first filter of `_analyze_trades` does,
      raises `TypeError`. */
  function TradeResults(trades: seq<Dict>): (r: Result<seq<real>>)
    ensures r.Err? <==> exists i :: 0 <= i < |trades| && Unsettled(trades[i])
    ensures r.Err? ==> r.error == "TypeError"
    ensures r.Ok? ==>
      && |r.value| == |trades|
      && forall i :: 0 <= i < |trades| ==> Numeric(ProfitLoss(trades[i])) == Some(r.value[i])
  {
    if |trades| == 0 then Ok([])
    else
      match Numeric(ProfitLoss(trades[0]))
      case None => Err("TypeError")
      case Some(x) =>
        match TradeResults(trades[1..])
        case Err(e) =>
          var j :| 0 <= j < |trades[1..]| && Unsettled(trades[1..][j]);
          assert Unsettled(trades[j + 1]);
          Err(e)
        case Ok(rest) =>
          assert forall i :: 1 <= i < |trades| ==> trades[i] == trades[1..][i - 1];
          Ok([x] + rest)
  }

  /** `_analyze_trades` on the stored trade rows: the analysis of their
      results, or `TypeError` when one of them is not a number. */
  function AnalyzeTradeRows(stats: AssetStatistics, trades: seq<Dict>): (r: Result<AssetStatistics>)
    ensures r.Err? <==> exists i :: 0 <= i < |trades| && Unsettled(trades[i])
    ensures r.Ok? ==> r.value == AnalyzeTrades(stats, TradeResults(trades).value)
    ensures r.Ok? ==> r.value.successfulTrades + r.value.failedTrades <= |trades|
  {
    var pls :- TradeResults(trades);
    Ok(AnalyzeTrades(stats, pls))
  }

  /** A trade still open, with `profit_loss` `None`, makes the analysis raise. */
  lemma OpenTradeRaises(stats: AssetStatistics, trades: seq<Dict>, i: int)
    requires 0 <= i < |trades| && Get(trades[i], "profit_loss") == Some(VNone)
    ensures AnalyzeTradeRows(stats, trades) == Err("TypeError")
  {
    assert Unsettled(trades[i]);
  }

  lemma {:induction false} CountSplit(pls: seq<real>)
    ensures |Positives(pls)| + |LossSizes(pls)| <= |pls|
  {
    if |pls| > 0 {
      CountSplit(pls[1..]);
    }
  }

  /** Starting from a fresh record, the net profit is the sum of the results. */
  lemma NetProfitIsSum(asset: string, period: string, pls: seq<real>)
    ensures AnalyzeTrades(Fresh(asset, period, |pls|), pls).netProfit == Indicators.Sum(pls)
  {
    SplitSum(pls);
  }

  // ------------------------------------------------------------ drawdown

  /** Running totals: entry k is the sum of the first k + 1 results. */
  function Cumulative(pls: seq<real>): (c: seq<real>)
    ensures |c| == |pls|
    ensures |pls| > 0 ==> c[0] == pls[0]
    ensures forall k :: 0 < k < |pls| ==> c[k] == c[k - 1] + pls[k]
  {
    if |pls| == 0 then []
    else
      var c := Cumulative(pls[..|pls| - 1]);
      assert forall k :: 0 <= k < |pls| - 1 ==> pls[..|pls| - 1][k] == pls[k];
      c + [(if |c| == 0 then 0.0 else c[|c| - 1]) + pls[|pls| - 1]]
  }

  /** The largest fall of the running total below an earlier (or the same)
      running total; zero when it never falls.  The peak starts at the first
      running total, not at zero. */
  method MaxDrawdown(pls: seq<real>) returns (dd: real)
    ensures dd >= 0.0
    ensures forall i, j :: 0 <= i <= j < |pls| ==> Cumulative(pls)[i] - Cumulative(pls)[j] <= dd
    ensures dd == 0.0 || exists i, j :: 0 <= i <= j < |pls| && dd == Cumulative(pls)[i] - Cumulative(pls)[j]
  {
    var cum := Cumulative(pls);
    dd := PeakToTrough(cum);
    if dd != 0.0 {
      var i, j :| 0 <= i <= j < |cum| && dd == cum[i] - cum[j];
      assert 0 <= i <= j < |pls| && dd == Cumulative(pls)[i] - Cumulative(pls)[j];
    }
  }

  /** The scan of the running totals: the peak so far and the largest fall
      below it. */
  method PeakToTrough(cum: seq<real>) returns (dd: real)
    ensures dd >= 0.0
    ensures forall i, j :: 0 <= i <= j < |cum| ==> cum[i] - cum[j] <= dd
    ensures dd == 0.0 || exists i, j :: 0 <= i <= j < |cum| && dd == cum[i] - cum[j]
  {
    dd := 0.0;
    if |cum| == 0 {
      return;
    }
    var peak := cum[0];
    ghost var top := 0;
    ghost var wi, wj := 0, 0;
    var k := 0;
    while k < |cum|
      invariant 0 <= k <= |cum|
      invariant 0 <= top < |cum| && (top < k || top == 0)
      invariant peak == cum[top]
      invariant forall i :: 0 <= i < k ==> cum[i] <= peak
      invariant dd >= 0.0
      invariant forall i, j :: 0 <= i <= j < k ==> cum[i] - cum[j] <= dd
      invariant dd == 0.0 || (0 <= wi <= wj < k && dd == cum[wi] - cum[wj])
    {
      if cum[k] > peak {
        peak := cum[k];
        top := k;
      }
      var drawdown := peak - cum[k];
      if drawdown > dd {
        dd := drawdown;
        wi, wj := top, k;
      }
      k := k + 1;
    }
  }

  /** The drawdown part of `_calculate_advanced_metrics` (the Sharpe ratio
      is not modelled): nothing changes without trades. */
  method AdvancedMetrics(stats: AssetStatistics, pls: seq<real>) returns (r: AssetStatistics)
    ensures |pls| == 0 || stats.totalTrades == 0 ==> r == stats
    ensures r == stats.(maxDrawdown := r.maxDrawdown)
    ensures |pls| > 0 && stats.totalTrades != 0 ==>
      r.maxDrawdown >= 0.0
      && forall i, j :: 0 <= i <= j < |pls| ==> Cumulative(pls)[i] - Cumulative(pls)[j] <= r.maxDrawdown
  {
    if |pls| == 0 || stats.totalTrades == 0 {
      return stats;
    }
    var dd := MaxDrawdown(pls);
    r := stats.(maxDrawdown := dd);
  }

  // ---------------------------------------------------- classification

  /** `_calculate_overall_volatility` over the per-asset price volatilities:
      the mean of the positive ones, below 2 low, below 5 medium, else high. */
  function OverallVolatility(vols: seq<real>): (r: Level)
    ensures |Positives(vols)| == 0 ==> r == Medium
    ensures |Positives(vols)| > 0 ==>
      && (r == Low <==> Indicators.Mean(Positives(vols)) < 2.0)
      && (r == Medium <==> 2.0 <= Indicators.Mean(Positives(vols)) < 5.0)
      && (r == High <==> Indicators.Mean(Positives(vols)) >= 5.0)
  {
    var pos := Positives(vols);
    if |pos| == 0 then Medium
    else
      var avg := Indicators.Mean(pos);
      if avg < 2.0 then Low else if avg < 5.0 then Medium else High
  }

  /** When every positive volatility is below 2, the market is calm. */
  lemma CalmMarket(vols: seq<real>, hi: real)
    requires |Positives(vols)| > 0 && hi < 2.0 && Indicators.Within(Positives(vols), 0.0, hi)
    ensures OverallVolatility(vols) == Low
  {
    Indicators.MeanBounds(Positives(vols), 0.0, hi);
  }

  /** When every positive volatility is at least 5, the market is wild. */
  lemma WildMarket(vols: seq<real>, lo: real, hi: real)
    requires |Positives(vols)| > 0 && lo >= 5.0 && Indicators.Within(Positives(vols), lo, hi)
    ensures OverallVolatility(vols) == High
  {
    Indicators.MeanBounds(Positives(vols), lo, hi);
  }

  /** `_determine_market_trend` over the per-asset net profits: the share of
      profitable assets among those with a non-zero result. */
  function MarketTrend(nets: seq<real>): (r: Trend)
    ensures |Positives(nets)| + |LossSizes(nets)| == 0 ==> r == Sideways
    ensures var bull, bear := |Positives(nets)|, |LossSizes(nets)|;
      bull + bear > 0 ==>
        && (r == Bullish <==> Share(bull, bull + bear) > 0.6)
        && (r == Bearish <==> Share(bull, bull + bear) < 0.4)
  {
    var bull := |Positives(nets)|;
    var bear := |LossSizes(nets)|;
    if bull + bear == 0 then Sideways
    else
      var ratio := Share(bull, bull + bear);
      if ratio > 0.6 then Bullish else if ratio < 0.4 then Bearish else Sideways
  }

  lemma {:induction false} AllProfitable(nets: seq<real>)
    requires forall i :: 0 <= i < |nets| ==> nets[i] > 0.0
    ensures |Positives(nets)| == |nets| && |LossSizes(nets)| == 0
  {
    if |nets| > 0 {
      AllProfitable(nets[1..]);
    }
  }

  lemma {:induction false} AllLosing(nets: seq<real>)
    requires forall i :: 0 <= i < |nets| ==> nets[i] < 0.0
    ensures |Positives(nets)| == 0 && |LossSizes(nets)| == |nets|
  {
    if |nets| > 0 {
      AllLosing(nets[1..]);
    }
  }

  /** Every asset in profit makes the market bullish; every asset in loss
      makes it bearish. */
  lemma UnanimousTrend(nets: seq<real>)
    requires |nets| > 0
    ensures (forall i :: 0 <= i < |nets| ==> nets[i] > 0.0) ==> MarketTrend(nets) == Bullish
    ensures (forall i :: 0 <= i < |nets| ==> nets[i] < 0.0) ==> MarketTrend(nets) == Bearish
  {
    if forall i :: 0 <= i < |nets| ==> nets[i] > 0.0 {
      AllProfitable(nets);
    }
    if forall i :: 0 <= i < |nets| ==> nets[i] < 0.0 {
      AllLosing(nets);
    }
  }

  // --------------------------------------------------------------- cache

  /** The statistics cache: entries, their store times in seconds, and the
      time-to-live (300 s). */
  datatype Cache = Cache(entries: map<string, AssetStatistics>, lastUpdate: map<string, real>, ttl: real)

  const CacheTtl: real := 300.0

  /** `_is_cache_valid` at time `now`. */
  function IsCacheValid(c: Cache, key: string, now: real): (r: bool)
    ensures key !in c.entries || key !in c.lastUpdate ==> !r
    ensures key in c.entries && key in c.lastUpdate ==> (r <==> now < c.lastUpdate[key] + c.ttl)
  {
    key in c.entries && key in c.lastUpdate && now - c.lastUpdate[key] < c.ttl
  }

  /** `clear_cache`. */
  function ClearCache(c: Cache): (r: Cache)
    ensures forall key, now :: !IsCacheValid(r, key, now)
    ensures r.ttl == c.ttl
  {
    Cache(map[], map[], c.ttl)
  }

  /** Storing statistics, as `get_asset_statistics` does after collecting them. */
  function Store(c: Cache, key: string, stats: AssetStatistics, now: real): (r: Cache)
    ensures key in r.entries && r.entries[key] == stats
    ensures forall k :: k != key ==> (k in r.entries <==> k in c.entries)
  {
    Cache(c.entries[key := stats], c.lastUpdate[key := now], c.ttl)
  }

  /** A stored entry is valid for exactly the time-to-live. */
  lemma StoreThenValid(c: Cache, key: string, stats: AssetStatistics, now: real, later: real)
    requires now <= later
    ensures IsCacheValid(Store(c, key, stats, now), key, later) <==> later < now + c.ttl
  {
  }

  /** Storing one key does not change whether any other key is valid. */
  lemma StoreKeepsOthers(c: Cache, key: string, other: string, stats: AssetStatistics, now: real, t: real)
    requires other != key
    ensures IsCacheValid(Store(c, key, stats, now), other, t) == IsCacheValid(c, other, t)
  {
  }
}
