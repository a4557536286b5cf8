# Trading core and service rules of the admin bot

This project models, in Dafny, the decision-making core of a crypto-trading
Telegram bot together with the rule tables of the services around it.

**The trading core** (`services/trading_core_service.py`) takes one strategy
configuration and one series of closing prices, and works in four steps:
- it normalises the two indicator-configuration shapes into one list;
- it judges each enabled indicator (RSI, EMA crossover, MACD, Bollinger
  bands; unknown names give an "unsupported" check);
- it records one check per indicator, with long/short hit counts and weights;
- it applies a strict rule to answer LONG, SHORT or HOLD with a confidence.
  The rule requires enough confirmations on one side, none on the other, and
  enough of the weight behind the winning side.

One pass over all active strategies writes a decision log for every
(strategy, asset) pair. It writes a signal only for LONG and SHORT.

**The services around the core** are modelled as pure functions:
- the aggregation service: trading sessions, peak hours, strategy type and
  risk tables, trade statistics, maximum drawdown, volatility and trend
  classification, and the statistics cache;
- the AI configurator: performance grading, market fit, the six
  recommendation rules, compiling dotted parameter paths into nested
  settings, and the recursive deep merge;
- the template service: the four built-in templates, template
  recommendation, risk scoring, automatic adjustment, custom parameters and
  the comparison table;
- the dynamic strategy switcher: template-type extraction, the
  poor-performance test, the one-hour switch gate, session and schedule
  checks, the switch decision, the switch history;
- the pagination and HTML escaping helpers, and the input validators.

Python values are modelled explicitly:
- JSON-like values are the datatype `Values.Value`. A dictionary is a list of
  fields, so it keeps its insertion order.
- Truthiness, `dict.get` and `or` follow Python.
- `int()` of text accepts an optional sign and ASCII digit groups, where a
  single `_` may stand between two digits.
- `float()` of text also accepts a decimal point and an exponent
  (`1.5e-3`). The words `inf`, `infinity` and `nan` give no real number;
  only the strength clamp, where they reach a definite result, decides
  them.
- Slices with negative or out-of-range bounds and floor division follow
  Python.
- A Python exception becomes an `Err` carrying the exception's name.

Numbers are `real`. Time comes in as a parameter: seconds for instants, and
the UTC hour and weekday. The market data comes in as a parameter too (a
close series, or a `feed` function for a whole pass). `math.sqrt` and
`round` are function parameters.

The files follow the source:
- `wrappers`, `values` and `text` hold the Python semantics.
- `timeframes`, `indicators`, `normalizer`, `evaluator` and `scheduler`
  model `services/trading_core_service.py`.
- `aggregation`, `configurator` with `adjustments`, `templates` and
  `switcher` model the services of the same names.
- `formatters` and `validators` model the two utility files.

Two consequences of the code are easy to miss:
- **Errors during a pass.** `run_once` has no `try`; only the loop in
  `run_forever` catches. So an `int()` or `float()` failure in one
  (strategy, asset) pair ends the rest of the pass, and `Scheduler.RunOnce`
  reports an aborted pass.
- **Malformed settings.** A setting such as `period: "x"` raises from
  `int()` instead of giving an unsupported check. `Evaluator.Evaluate`
  returns an `Err` for it.

## Model

| member | source | states |
|---|---|---|
| Timeframes.IntervalCode | services/trading_core_service.py:31-49 | the exchange interval is defined exactly on the 14 known tokens (after trimming and lower-casing) and is the normalised token itself |
| Timeframes.ToMinutes | services/trading_core_service.py:52-74 | a value exactly when the normalised token ends in a unit letter and the rest is an integer, and then it is the count times the unit's minutes |
| Timeframes.MinutesOfToken | services/trading_core_service.py:52-74 | `"<n><unit>"` is n, 60n, 1440n or 10080n minutes for m, h, d, w |
| Timeframes.NonNumericCount | services/trading_core_service.py:54-74 | a non-numeric count gives `None` even with a valid unit |
| Timeframes.IntervalCodeMinutes | services/trading_core_service.py:31-74 | every token with an exchange interval also has a positive length in minutes |
| Indicators.Sma | services/trading_core_service.py:77-81 | `None` exactly when the period is not positive or longer than the series |
| Indicators.SmaBounds | services/trading_core_service.py:77-81 | the moving average lies within the range of its window |
| Indicators.EmaSeries | services/trading_core_service.py:93-103 | `None` exactly for a bad period; otherwise one value per price from the period on, the first being the mean of the first `period` prices |
| Indicators.EmaBounds | services/trading_core_service.py:93-103 | every EMA value lies within the range of the prices |
| Indicators.EmaOfConstant | services/trading_core_service.py:93-103 | a flat price series has a flat EMA |
| Indicators.EmaLast | services/trading_core_service.py:106-108 | the last value of the EMA series, `None` in the same cases |
| Indicators.Rsi | services/trading_core_service.py:111-137 | `None` exactly when period ≤ 0 or fewer than period + 1 prices; otherwise in [0, 100], and 100 exactly when the smoothed average loss is zero |
| Indicators.RsiNeverFalling | services/trading_core_service.py:111-137 | a series that never falls has RSI 100 |
| Indicators.Macd | services/trading_core_service.py:140-162 | `None` when there are fewer than slow + signal prices; the histogram is MACD minus signal, and MACD is fast EMA minus slow EMA |
| Indicators.Variance | services/trading_core_service.py:84-90 | the population variance of the window is never negative, `None` exactly for a bad period |
| Indicators.VarianceOfConstant | services/trading_core_service.py:84-90 | a flat window has variance zero |
| Indicators.Bollinger | services/trading_core_service.py:518-529 | the middle band is the SMA, and the bands lie symmetrically around it |
| Indicators.BandsOrdered | services/trading_core_service.py:518-529 | with a non-negative multiplier and square root, lower ≤ mid ≤ upper |
| Normalizer.Shape | services/trading_core_service.py:304-310 | the three configuration shapes: a dictionary with a `list` list, any other dictionary, and anything else |
| Normalizer.TemplateForm | services/trading_core_service.py:305-307 | the `{"list": [...]}` form yields exactly its dictionary entries, in order; a dictionary is yielded iff it is an item of the list |
| Normalizer.WizardForm | services/trading_core_service.py:309-324 | any other dictionary normalises to one request per key, in key order: name stripped and upper-cased, enabled, weight 1.0, the parameters when they are a dictionary and `{}` otherwise |
| Normalizer.NonDictIndicators | services/trading_core_service.py:303-326 | a configuration that is not a dictionary yields no indicators |
| Normalizer.NormalizeIndicators | services/trading_core_service.py:303-326 | a non-dictionary shape yields the empty list |
| Normalizer.EntryConstraints | services/trading_core_service.py:328-345 | at least one confirmation and a strength in [0, 1]; without entry rules 1 and 0.6; a parsed count n gives max(1, n) and an unparsable one 1; a parsed strength x gives max(0, min(1, x)); `inf` gives 1, `-inf` 0, `nan` 1; any other unparsable strength 0.6 |
| Normalizer.ClampedStrength | services/trading_core_service.py:338-344 | a `float()` value is clamped to [0, 1]; `inf` and `nan` text end at 1.0 (`min(1.0, nan)` keeps 1.0) and `-inf` at 0.0; `None` exactly where `float()` raises |
| Normalizer.NanStrength | services/trading_core_service.py:338-344 | a strength written as `"nan"` becomes 1.0 |
| Normalizer.ExponentStrength | services/trading_core_service.py:338-344 | a strength written as `"<m>e-<e>"` with m ≤ 10^e is m / 10^e and is kept |
| Values.ParseDecimal | services/trading_core_service.py:338-340 | `float()` of integer text is the number `int()` reads |
| Values.ScientificText | services/trading_core_service.py:338-340 | `"<m>e<e>"` reads as m · 10^e |
| Values.NegativeScientificText | services/trading_core_service.py:338-340 | `"<m>e-<e>"` reads as m / 10^e |
| Values.SpecialNotDecimal | services/trading_core_service.py:338-340 | the infinity and NaN words have no real value |
| Normalizer.UnparsableConstraints | services/trading_core_service.py:333-345 | settings that `int()` and `float()` reject, and that name no infinity or NaN, fall back to 1 and 0.6 |
| Normalizer.ZeroSettings | services/trading_core_service.py:335-345 | an explicit zero is not replaced by the default: it is raised to one confirmation and kept as strength 0 |
| Evaluator.ZeroWeight | services/trading_core_service.py:393 | a weight written as 0 counts as 1.0 |
| Evaluator.ZeroSettingIsDefault | services/trading_core_service.py:400-402 | an indicator setting written as 0 falls back to its default, as with `or` |
| Evaluator.RsiJudge | services/trading_core_service.py:409-443 | RSI confirms LONG iff at or below oversold and SHORT iff at or above overbought |
| Evaluator.RsiBothSides | services/trading_core_service.py:409-443 | with oversold ≥ overbought a reading between them hits both sides, and the check reports the long side |
| Evaluator.RsiVerdict | services/trading_core_service.py:399-443 | fails exactly when a setting fails `int()` or `float()`; no reading when RSI is unavailable; otherwise LONG iff RSI ≤ oversold and SHORT iff RSI ≥ overbought |
| Evaluator.EmaVerdict | services/trading_core_service.py:446-479 | fails exactly when a period fails `int()`; no reading without both EMAs; otherwise LONG iff fast > slow and SHORT iff fast < slow |
| Evaluator.MacdVerdict | services/trading_core_service.py:482-515 | fails exactly when a period fails `int()`; no reading without MACD; otherwise LONG iff MACD > signal and SHORT iff MACD < signal |
| Evaluator.BandsVerdict | services/trading_core_service.py:518-566 | fails exactly when the period or multiplier does not parse; no reading without bands; otherwise LONG iff the last close ≤ lower band and SHORT iff ≥ upper band |
| Evaluator.Judge | services/trading_core_service.py:396-577 | every verdict agrees with its sides; the upper-cased name selects the RSI, EMA, MACD or Bollinger verdict; any other name, or a name that is not text, gives an unsupported check |
| Evaluator.Record | services/trading_core_service.py:394-577 | one verdict adds one check and the weight's non-negative part to the total; a hit adds to exactly its side's count and weight |
| Evaluator.Step | services/trading_core_service.py:385-394 | a nameless or disabled entry changes nothing; any other entry adds exactly one check, fails only when its weight or a setting does not parse, and keeps the tally consistent |
| Evaluator.Fold | services/trading_core_service.py:385-577 | the loop adds one check per active entry, keeps earlier checks, and keeps the tally consistent |
| Evaluator.EffectiveTotal | services/trading_core_service.py:582 | the divisor is never zero, and is the total weight whenever that is non-zero |
| Evaluator.Decide | services/trading_core_service.py:582-593 | LONG iff enough long hits, no short hit and enough long strength; SHORT symmetrically when LONG does not hold; HOLD has confidence 0; otherwise the winning strength × 100 |
| Evaluator.NeverBoth | services/trading_core_service.py:588-593 | with at least one required confirmation both sides can never win |
| Evaluator.OpposingHitHolds | services/trading_core_service.py:588-593 | a single hit on each side forces HOLD |
| Evaluator.ConfidenceRange | services/trading_core_service.py:582-593 | for a consistent tally the confidence is a percentage in [0, 100] |
| Evaluator.DecideFacts | services/trading_core_service.py:582-593 | a LONG decision has at least the required long checks and no short check; SHORT symmetrically |
| Evaluator.Evaluate | services/trading_core_service.py:347-605 | fails only on an unparsable id or setting; an empty series gives HOLD with no checks and no price; otherwise the price is the last close, the checks are those of the loop over the active indicators, and signal and confidence are the strict rule applied to that loop's tally and the entry constraints; LONG/SHORT carry enough confirmations and no opposing one |
| Evaluator.NothingActive | services/trading_core_service.py:385-593 | with every indicator passed over the decision is HOLD with no checks |
| Evaluator.ToDecisionLogRecord | services/trading_core_service.py:205-228 | the log record carries the signal as both signal type and final decision, and the checks in order, field by field |
| Scheduler.CleanAssetsSingle | services/trading_core_service.py:623-626 | an entry is visited, trimmed and upper-cased, exactly when it is non-blank text |
| Scheduler.WritesFor | services/trading_core_service.py:628-640 | always the decision log first; a signal after it exactly when the decision is not HOLD |
| Scheduler.Reached | services/trading_core_service.py:619-641 | the decisions of the evaluations before the first one that raises, in order; fewer than all exactly when one raises |
| Scheduler.Visit | services/trading_core_service.py:619-641 | the pass aborts exactly when an evaluation raises; it processes the decisions before that one and appends their logs and signals in order; every signal follows the log of its own decision, and there is one log per processed pair |
| Scheduler.AbortedIffRaises | services/trading_core_service.py:607-642 | a pass is cut short exactly when the evaluation of some (strategy, asset) pair raises |
| Scheduler.RunOnce | services/trading_core_service.py:607-642 | aborted exactly when some pair's evaluation raises; one log per processed pair; signals paired with their logs; every pair processed unless the pass aborts; nothing for no strategies |
| Scheduler.RunOnceWrites | services/trading_core_service.py:619-641 | the writes are the logs and signals of the decisions before the first raising pair, which are the decisions of every pair, in order, when none raises |
| Scheduler.LoopInterval | services/trading_core_service.py:648 | at least 10 seconds; 60 for a missing or zero interval; the interval itself from 10 up |
| Aggregation.TradingSession | services/data_aggregation_service.py:323-334 | every hour falls in exactly one of the five sessions: [0,8), [8,12), [12,16), [16,20), the rest |
| Aggregation.IsPeakHours | services/data_aggregation_service.py:336-344 | never on Saturday or Sunday; on weekdays exactly the hours of the two overlap sessions |
| Aggregation.OverlapNames | services/data_aggregation_service.py:323-334 | exactly the two overlap sessions have "overlap" in their names |
| Aggregation.PeakIsOverlap | services/data_aggregation_service.py:336-344 | on weekdays the peak hours are exactly the overlap sessions |
| Aggregation.RecommendStrategyType | services/data_aggregation_service.py:417-438 | scalping iff high volatility in an overlap session; contrarian iff low; momentum iff medium and trending; swing otherwise |
| Aggregation.PeakHighVolatility | services/data_aggregation_service.py:417-438 | high volatility at peak hours calls for scalping |
| Aggregation.RiskLevel | services/data_aggregation_service.py:440-449 | high iff volatility is high; low iff volatility is low outside peak hours |
| Aggregation.AnalyzeTrades | services/data_aggregation_service.py:175-198 | over numeric trade results: positive results are successes and negative ones failures, zero neither; with trades on record the win rate is successes over trades, in [0, 1], otherwise it is kept; with wins, total profit is their sum, max profit their maximum and average profit the total over their count; with losses, total loss is the sum and max loss the maximum of their sizes; without wins or losses those fields keep their values; net profit is profit minus loss, both non-negative; identity, counts and price fields are untouched |
| Aggregation.TradeResults | services/data_aggregation_service.py:178-179 | fails with `TypeError` iff some trade's `profit_loss` is not a number (such as `None`); otherwise each trade's result, in order |
| Aggregation.AnalyzeTradeRows | services/data_aggregation_service.py:175-217 | fails with `TypeError` iff some trade has no numeric result; otherwise the analysis of the results, with no more successes and failures than trades |
| Aggregation.OpenTradeRaises | services/data_aggregation_service.py:178 | a trade whose `profit_loss` is `None` makes the analysis raise `TypeError` |
| Aggregation.NetProfitIsSum | services/data_aggregation_service.py:175-217 | from a fresh record the net profit is the sum of the trade results |
| Aggregation.MaxDrawdown | services/data_aggregation_service.py:240-269 | the drawdown is non-negative, bounds every fall of the running total below an earlier running total, and is attained or zero |
| Aggregation.AdvancedMetrics | services/data_aggregation_service.py:237-273 | without trades the statistics are unchanged; otherwise only the maximum drawdown changes in the model (the Sharpe ratio is left out), to a bound of every fall |
| Aggregation.OverallVolatility | services/data_aggregation_service.py:346-376 | no positive volatility gives medium; otherwise low exactly when the mean of the positive values is below 2, high exactly when it is at least 5, medium in between |
| Aggregation.CalmMarket | services/data_aggregation_service.py:359-372 | every positive volatility below 2 gives low |
| Aggregation.WildMarket | services/data_aggregation_service.py:359-372 | every positive volatility at least 5 gives high |
| Aggregation.MarketTrend | services/data_aggregation_service.py:378-415 | no asset in profit or loss gives sideways; otherwise bullish exactly when the share of profitable assets is above 0.6, bearish exactly when it is below 0.4 |
| Aggregation.UnanimousTrend | services/data_aggregation_service.py:394-411 | every asset in profit gives bullish; every asset in loss gives bearish |
| Aggregation.ClearCache | services/data_aggregation_service.py:495-501 | after clearing no key is valid at any time |
| Aggregation.IsCacheValid | services/data_aggregation_service.py:487-493 | false for a key missing from the entries or the store times; otherwise true iff fewer than `ttl` seconds have passed since the store |
| Aggregation.StoreThenValid | services/data_aggregation_service.py:487-493 | a stored entry stays valid exactly for the time-to-live |
| Aggregation.StoreKeepsOthers | services/data_aggregation_service.py:487-493 | storing one key does not change the validity of any other key |
| Configurator.Clamp | services/ai_strategy_configurator.py:248 | the score lies in [0, 100] and is kept when already inside |
| Configurator.RecordAllMembers | services/ai_strategy_configurator.py:201-246 | a finding ends among the strengths exactly when it raises the score, among the weaknesses otherwise |
| Configurator.Grade | services/ai_strategy_configurator.py:201-246 | the running score matches the findings; each of the eleven findings appears, on the side its sign gives, exactly under its threshold: win rate at least 0.65 excellent, in [0.50, 0.65) good, below 0.35 low; net profit positive or not; Sharpe at least 0.5 good, negative poor; drawdown above 20 high, otherwise controlled; volatility strictly between 1 and 5 optimal, above 10 extreme |
| Configurator.Aspects | services/ai_strategy_configurator.py:201-246 | at most one finding per aspect, profit and drawdown always reported, and each finding reported exactly under its threshold |
| Configurator.EvaluatePerformance | services/ai_strategy_configurator.py:173-250 | no data gives (50, [], [no data]); fewer than 10 trades gives 50 with one weakness; otherwise the score is the base 50 plus the impacts, clamped to [0, 100], and each of the eleven findings appears exactly under its threshold, measured on the mean win rate, total net profit, mean Sharpe ratio, worst drawdown and mean volatility |
| Configurator.FitScore | services/ai_strategy_configurator.py:252-315 | the fit score is always 1, 2 or 3, so the fit is excellent, good or poor |
| Configurator.AssessMarketFit | services/ai_strategy_configurator.py:252-315 | fails exactly when the name is not text; the first matching keyword group (scalp, momentum or trend, reversion or range, breakout) decides the fit, and no match gives good |
| Configurator.ExtractRiskParam | services/ai_strategy_configurator.py:418-428 | the default when risk management is not a dictionary or lacks the key, else the stored value |
| Configurator.GenerateRecommendations | services/ai_strategy_configurator.py:319-416 | nothing for no statistics; at most six, in rule order; the stop-loss recommendation is 0.8 × current, rounded to 2 digits |
| Configurator.Rules | services/ai_strategy_configurator.py:330-412 | fails exactly when a scaling rule fires on a setting that is not a number; each rule's recommendation is present exactly when it fires; stop loss becomes 0.8 × current (2 digits), take profit 0.7 × current (2 digits), position size 0.7 × current (1 digit) |
| Configurator.GeneratePresent | services/ai_strategy_configurator.py:330-412 | a setting is recommended exactly when its rule fires |
| Configurator.PathsDiffer | services/ai_strategy_configurator.py:319-416 | different settings have different parameter paths |
| Configurator.CompileAdjustments | services/ai_strategy_configurator.py:430-452 | never fails, since no path runs into a value that is not a dictionary; keys stay distinct; every recommendation not followed by another for the same setting sits at the location its dotted path names |
| Configurator.CompileSnoc | services/ai_strategy_configurator.py:436-450 | compiling one more recommendation is one more path assignment |
| Configurator.LastWriteWins | services/ai_strategy_configurator.py:430-452 | a later recommendation for the same setting overwrites an earlier one |
| Adjustments.SetPath | services/ai_strategy_configurator.py:436-450 | the walk succeeds iff every step is missing or a dictionary; the value lands at the path, and other top-level keys are unchanged |
| Adjustments.SetPathFrame | services/ai_strategy_configurator.py:436-450 | setting one path leaves the value at every path that parts from it unchanged |
| Configurator.SplitPath | services/ai_strategy_configurator.py:440 | splitting each parameter path on `.` gives its section and key (or the single key `timeframe`) |
| Adjustments.SetTwice | services/ai_strategy_configurator.py:436-450 | setting the same path twice is setting it once to the second value |
| Adjustments.DeepMerge | services/ai_strategy_configurator.py:515-525 | keys absent from the updates keep the base's value, and keys stay distinct |
| Adjustments.MergeTakesUpdate | services/ai_strategy_configurator.py:515-525 | every key of the updates takes the update's value, merged recursively when both sides are dictionaries |
| Templates.ParseTimeFrame | services/strategy_templates_service.py:27-35 | exactly the seven codes parse, each back to the code it came from |
| Templates.GetTemplate | services/strategy_templates_service.py:357-359 | a template exactly for the four built-in names, filed under its own type |
| Templates.RecommendTemplate | services/strategy_templates_service.py:452-477 | always a built-in name: scalping iff high in an overlap, mean reversion iff low and sideways, breakout iff high, not in an overlap and trending, momentum for any medium; fails only when the overlap test raises |
| Templates.Classify | services/strategy_templates_service.py:562-567 | below 20 low, below 40 medium, otherwise high |
| Templates.CalculateRiskScore | services/strategy_templates_service.py:552-567 | the rating of 0.3·size + 2·positions + 5·stop loss, failing exactly when an attribute is missing or not a number |
| Templates.RiskScoreMonotone | services/strategy_templates_service.py:552-567 | raising any input never lowers the rating |
| Templates.BuiltinRisks | services/strategy_templates_service.py:158-351 | scalping and breakout rate low, momentum and mean reversion medium |
| Templates.AdjustEntry | services/strategy_templates_service.py:497-510 | below a 0.4 win rate one more confirmation and 0.1 more strength; above 0.7, 0.05 less strength only when it exceeds 0.5; unchanged otherwise |
| Templates.AdjustRisk | services/strategy_templates_service.py:513-516 | beyond 70% of the drawdown limit, 80% of the size and one position fewer but at least one; unchanged otherwise |
| Templates.AdjustProfit | services/strategy_templates_service.py:519-521 | a profit strictly between 0 and the stop loss raises the take profit by 20% |
| Templates.AutoAdjust | services/strategy_templates_service.py:479-523 | an unknown name raises `ValueError`; otherwise a copy of the built-in where only the entry rules and the risk settings change |
| Templates.AutoAdjustNeutral | services/strategy_templates_service.py:479-523 | with no performance figures a built-in comes back unchanged |
| Templates.AutoAdjustLowWinRate | services/strategy_templates_service.py:501-503 | a low win rate turns the built-ins' two confirmations into exactly three |
| Templates.AutoAdjustNoRiskier | services/strategy_templates_service.py:479-523 | an adjusted built-in never rates riskier than the original |
| Templates.ApplyCustomParams | services/strategy_templates_service.py:418-448 | fails exactly on an unknown time frame or a non-dictionary override; only assets, time frame, risk and entry change; the attribute sets stay the same |
| Templates.ApplyCustomRisk | services/strategy_templates_service.py:436-439 | a risk attribute takes the custom value when it exists, otherwise it keeps its own |
| Templates.ApplyCustomEntry | services/strategy_templates_service.py:441-444 | the same for the entry rules |
| Templates.SummaryRisk | services/strategy_templates_service.py:542-548 | the reported risk level is the risk score of the built-in |
| Templates.CompareTemplates | services/strategy_templates_service.py:529-550 | one sound entry per known name asked for, unknown names skipped, each name once |
| Templates.RecommendedConditions | services/strategy_templates_service.py:569-582 | conditions for each type with a built-in template, none for swing and contrarian |
| Switcher.ReasonRoundTrip | services/dynamic_strategy_switcher.py:23-30 | every switch reason reads back from its value |
| Switcher.TemplateType | services/dynamic_strategy_switcher.py:212-223 | the first matching keyword group decides: scalp, momentum or trend, reversion or range, breakout, otherwise none |
| Switcher.ExtractTemplateType | services/dynamic_strategy_switcher.py:206-223 | none for a missing or empty strategy or a missing name; fails exactly when the name is not text; a text name is lower-cased and classified by keyword; any result is a built-in name |
| Switcher.ExtractBuiltinName | services/dynamic_strategy_switcher.py:206-223 | each built-in template's display name extracts to its own type |
| Switcher.CanSwitchNow | services/dynamic_strategy_switcher.py:227-233 | always before the first switch; afterwards exactly from one hour after the start, so never for a start in the future |
| Switcher.CanSwitchLater | services/dynamic_strategy_switcher.py:227-233 | once switching is allowed it stays allowed |
| Switcher.IsPerformancePoor | services/dynamic_strategy_switcher.py:235-259 | false for empty metrics or fewer than 5 trades; `TypeError` when the trade count is not a number; otherwise true iff win rate < 0.35, drawdown > 20 or net profit < −100 |
| Switcher.PlaceholdersNeverPoor | services/dynamic_strategy_switcher.py:283-314 | the performance the switcher computes never counts as poor |
| Switcher.IsSessionChangeSignificant | services/dynamic_strategy_switcher.py:261-274 | never within 4 hours of a session switch; otherwise (no history, a last switch for another reason, or one at least 4 hours old) iff peak hours or an overlap session |
| Switcher.SessionChangeInOverlap | services/dynamic_strategy_switcher.py:261-274 | with real market conditions a session change is significant iff there was no session switch in the last 4 hours and the hour is in an overlap window |
| Switcher.IsScheduledCheckTime | services/dynamic_strategy_switcher.py:276-279 | true iff the UTC hour is 0, 8 or 16 |
| Switcher.EvaluateSwitchDecision | services/dynamic_strategy_switcher.py:123-184 | nothing before the hour is up; a switch goes to a built-in template; failures come only from the performance test or the name |
| Switcher.DecisionReasons | services/dynamic_strategy_switcher.py:138-181 | once a switch is allowed: poor performance gives a switch with 0.8; otherwise a running template other than the recommended one gives 0.7; otherwise a significant session change gives 0.65, and no change gives no switch; errors pass through; a scheduled switch never happens |
| Switcher.RecordSwitch | services/dynamic_strategy_switcher.py:339-363 | a saved switch appends one record and restarts the clock; a failed save, or a current strategy without an id, changes nothing |
| Switcher.SwitchCooldown | services/dynamic_strategy_switcher.py:227-233 | after a switch the next one is allowed exactly from one hour on |
| Switcher.SessionCooldown | services/dynamic_strategy_switcher.py:261-274 | after a session switch no session change is significant for 4 hours |
| Switcher.GetSwitchHistory | services/dynamic_strategy_switcher.py:417-429 | the last min(limit, n) switches in order for limit ≥ 1; all of them for limit 0; all but the first −limit for a negative limit |
| Switcher.LatestReported | services/dynamic_strategy_switcher.py:417-429 | the newest reported switch is the one just recorded |
| Formatters.FloorDivBounds | utils/formatters.py:167 | `//` rounds down: the remainder lies between zero and the divisor |
| Formatters.PaginateList | utils/formatters.py:163-169 | fails exactly for page size 0; the page count is the ceiling of n / size; page p ≥ 1 is items[(p−1)·size : p·size] clamped |
| Formatters.PageSize | utils/formatters.py:163-169 | a page holds at most `per_page` items, and is empty exactly after the last page |
| Formatters.PagesCover | utils/formatters.py:163-169 | pages 1 to the page count, concatenated, give the list back |
| Formatters.EscapeHtml | utils/formatters.py:172-174 | the output has no `<` or `>`; text without `&`, `<` and `>` is unchanged |
| Formatters.EscapeHtmlIsEscaped | utils/formatters.py:172-174 | the three passes escape every character on its own |
| Formatters.EscapeHtmlRoundTrip | utils/formatters.py:172-174 | unescaping the output gives the input back |
| Validators.ValidateTelegramId | utils/validators.py:8-16 | the parsed number exactly when it is positive, `None` otherwise |
| Validators.TelegramIdRoundTrip | utils/validators.py:8-16 | every positive number in decimal is accepted as itself |
| Validators.NegativeIdRejected | utils/validators.py:8-16 | a minus sign before a number is rejected |
| Text.ParseInt | utils/validators.py:11 | over ASCII digits, `int()` accepts exactly stripped text with an optional sign and digit groups (single `_` between digits); the value is the digits with the sign |
| Text.UnderscoreIgnored | utils/validators.py:11 | `"1_4"` reads as 14 |
| Text.DoubleUnderscoreRejected | utils/validators.py:11 | `"1__4"` is rejected |
| Text.LeadingUnderscoreRejected | utils/validators.py:11 | `"_14"` is rejected |
| Validators.ValidateSubscriptionType | utils/validators.py:19-22 | true iff the lower-cased text is trial, vip, long, short, long_short or free; an accepted text has 3 to 10 characters |
| Validators.SubscriptionIgnoresCase | utils/validators.py:19-22 | a text and its lower-cased form are judged alike |
| Validators.SubscriptionTypesAccepted | utils/validators.py:19-22 | the six types are accepted in lower and in upper case |
| Validators.ValidateToken | utils/validators.py:25-29 | accepted iff 8 to 64 characters of the class, possibly followed by one final newline |
| Validators.TrailingNewlineAccepted | utils/validators.py:25-29 | `"abcdefgh\n"` is accepted although a newline is outside the class |
| Validators.ValidateTokenStrict | utils/validators.py:25-29 | accepts exactly what the original pattern accepts when the text has no newline |
| Validators.ValidateStrategyName | utils/validators.py:32-34 | true iff 3 to 100 characters; a valid name is never cut by sanitising to 100 characters |
| Validators.SanitizedNameValid | utils/validators.py:32-34 | a name sanitised to 100 characters passes the name check once three characters survive the strip |
| Validators.ValidateAssetsList | utils/validators.py:37-46 | true iff a non-empty list of texts of at least three characters |
| Validators.ValidAssetsMonitored | utils/validators.py:37-46 | a valid list without blank entries is visited in full by the trading pass |
| Validators.BlankAssetPasses | utils/validators.py:37-46 | three spaces pass validation, yet the trading pass visits nothing |
| Validators.ValidateTimeframe | utils/validators.py:48-51 | accepts exactly `1m`, `5m`, `15m`, `30m`, `1h`, `4h`, `1d` and `1w`; each is its own exchange interval code and has a positive length in minutes |
| Validators.SanitizeInput | utils/validators.py:55-64 | a prefix of the stripped text, of length min(n, max) for max ≥ 0; a negative max drops that many characters from the end |

## Findings

| source | as written | input that shows it | evidently intended | confidence | as-written member | corrected member |
|---|---|---|---|---|---|---|
| utils/validators.py:25-29 | `re.match` with `^…$`, and `$` also matches before a final newline | `"abcdefgh\n"` is accepted | only 8 to 64 characters of `[A-Za-z0-9\-_]` (`re.fullmatch`), as the comment says | not executed; follows from Python's documented `$` | Validators.TrailingNewlineAccepted | Validators.ValidateTokenStrict |

## Left out

- Network and database I/O are parameters: the exchange fetch is a close series or a `feed` function, and database writes are returned as a list. The Supabase, OpenAI and Telegram layers are left out.
- `datetime.utcnow()` and ISO timestamps are left out. Instants are seconds, and the hour and weekday are parameters.
- `math.sqrt` and `round(x, digits)` are function parameters. The model only requires the square root to be non-negative. IEEE floating point is not modelled; numbers are exact reals.
- The Sharpe ratio, price volatility (`_analyze_price_data`) and trade durations of the aggregation service are left out: they need square roots and date parsing.
- Evaluator.Evaluate: the `round(..., 2)` of the confidence and the `round(..., 6)` of reported values are not modelled. The confidence is the exact strength × 100.
- The `isinstance(key, str)` skip in the wizard form is unreachable: configurations come from JSON, whose keys are text.
- Python's `int`/`float` distinction is not kept; both are `real`, and `bool` counts as 0 or 1 in arithmetic.
- Text.Lower: cases one character at a time. It maps `A`-`Z` and the Kelvin sign to ASCII. Python lower-cases `İ` to two characters, `i` and a combining dot; the model leaves `İ` as it is, so a keyword ending in `i` can match in Python and not in the model. Other non-ASCII letters are left as they are too.
- Text.Upper: maps `a`-`z`, dotless `ı` and long `ſ`. Python upper-cases `ß`, the `ﬀ`-`ﬆ` ligatures and a few letters with marks to two or three characters; the model leaves them as they are. Other non-ASCII letters are left as they are too.
- Validators.ValidateTelegramId: `int()` also accepts non-ASCII digits; the model rejects them.
- Text.ParseInt: `int()` also accepts non-ASCII decimal digits, such as Arabic-Indic or full-width ones; the model reads only `0`-`9`. So text with such digits is an error in the model where Python reads a number. This affects every `int()` on text: Timeframes.ToMinutes, Validators.ValidateTelegramId, Values.ToInt and Values.IntOf, and through them the integer settings of Evaluator.Evaluate and Normalizer.EntryConstraints.
- Evaluator.Evaluate: a weight or indicator setting written as `"inf"` or `"nan"` is an `Err` in the model. Python's `float()` accepts it and the loop goes on with IEEE arithmetic, which the model does not have.
- Values.ParseDecimal: `float()` also accepts non-ASCII digits; the model rejects them.
- Scheduler.RunOnce: every `db.create_decision_log` and `db.create_signal` call is assumed to succeed. The source calls both outside any `try`, so a failing write would end the pass there; the model does not promise how far such a pass gets. The connector in database/supabase_connector.py defines neither method; the model returns the writes as a list instead of calling a store.
- Scheduler.AbortedIffRaises: "aborted" counts only an evaluation that raises. A failing database write, which would also end the pass, is not modelled.
- Scheduler.RunOnceWrites: the writes listed are the ones the pass asks for; the model assumes each one succeeds.
- Templates.ApplyCustomParams: `hasattr` is also true for Python's dunder attributes. In the source, a `risk_management` or `entry_rules` override keyed `__class__` raises `TypeError`, and one keyed `__dict__` replaces all of the rules' attributes at once. The model ignores such keys like any other unknown key.
- `is_valid_email` is left out: no part of the core uses it.
- Messages, log lines, reason texts and emoji are left out; each message is a datatype case.
- `get_asset_statistics`, `get_market_conditions`, `save_aggregated_statistics`, `_apply_optimizations`, `analyze_and_configure_strategy` and `save_template_as_strategy` are left out. They are async collectors and persistence around the modelled rules. `Aggregation.Store` stands for the cache write. The `TypeError` that `Aggregation.AnalyzeTradeRows` reports is caught there, and the statistics are returned with a data-quality score of 0 and without a cache write; that catch is not modelled.
- Switcher.RecordSwitch: the database steps of `_execute_strategy_switch` are one boolean `saved`. The recorded market conditions and performance metrics are left out. The recorded confidence is always 0.75, as in the code.
- `manual_switch`, `get_current_strategy_uptime`, `get_status_report`, `_log_switch_to_db` and the background loop of the switcher are left out: clock, I/O and scheduling.
- Switcher.AnalyzeCurrentPerformance: the code fills win rate, profit and drawdown with fixed placeholders, so the model keeps only the fact that they are placeholders.
- Formatters.PaginateList: for a negative page the contract states only the page count; the slice follows Python's negative bounds.
- The deep copies in `auto_adjust_template_parameters` and `_apply_custom_params` are implicit: Dafny values are immutable, so the cached template can never change.
