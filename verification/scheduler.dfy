/** One pass of the trading core over all active strategies
    (services/trading_core_service.py, `run_once` and the interval rule of
    `run_forever`).  The market and the database are parameters: `feed`
    gives the closes for an asset and an exchange interval code (empty when
    the fetch fails), and the writes are returned in the order they happen. */
module Scheduler {
  import opened Wrappers
  import opened Text
  import opened Values
  import opened Timeframes
  import opened Evaluator

  /** The row written to the signals table for a LONG or SHORT decision. */
  datatype SignalRecord = SignalRecord(
    asset: string, signalType: Signal, price: Option<real>,
    minutes: Option<int>, strategyId: Option<int>)

  datatype Write = LogWrite(log: DecisionLogRecord) | SignalWrite(sig: SignalRecord)

  /** The writes of one pass, how many asset checks completed, and whether
      an exception ended the pass early. */
  datatype Pass = Pass(writes: seq<Write>, processed: nat, aborted: bool)

  /** The assets of a strategy the pass visits: strings that are not blank,
      trimmed and upper-cased. */
  function MonitoredAssets(strategy: Dict): (r: seq<string>)
    ensures forall i :: 0 <= i < |r| ==> |r[i]| > 0
  {
    var raw := Or(GetOr(strategy, "assets_to_monitor", VNone), VList([]));
    if raw.VList? then CleanAssets(raw.items) else []
  }

  /** A list entry the pass visits: text that is not blank. */
  predicate Visible(v: Value) {
    v.VStr? && |Strip(v.s)| > 0
  }

  function CleanAssets(items: seq<Value>): (r: seq<string>)
    ensures |r| <= |items|
    ensures forall i :: 0 <= i < |r| ==> |r[i]| > 0
  {
    if |items| == 0 then []
    else
      var rest := CleanAssets(items[1..]);
      if Visible(items[0]) then
        var a := Upper(Strip(items[0].s));
        assert |a| > 0;
        var r := [a] + rest;
        assert forall i :: 0 < i < |r| ==> r[i] == rest[i - 1];
        r
      else rest
  }

  /** The visited assets of a concatenation are those of each part in turn. */
  lemma {:induction false} CleanAssetsAppend(a: seq<Value>, b: seq<Value>)
    ensures CleanAssets(a + b) == CleanAssets(a) + CleanAssets(b)
  {
    if |a| == 0 {
      assert a + b == b;
    } else {
      assert (a + b)[0] == a[0];
      assert (a + b)[1..] == a[1..] + b;
      CleanAssetsAppend(a[1..], b);
    }
  }

  /** A single entry is visited, trimmed and upper-cased, exactly when it is
      non-blank text. */
  lemma CleanAssetsSingle(v: Value)
    ensures Visible(v) ==> CleanAssets([v]) == [Upper(Strip(v.s))]
    ensures !Visible(v) ==> CleanAssets([v]) == []
  {
    assert [v][1..] == [];
  }

  /** The closes the evaluation sees: nothing for a timeframe without an
      exchange interval, otherwise whatever the market returns. */
  function Closes(strategy: Dict, asset: string, feed: (string, string) -> seq<real>): (r: seq<real>) {
    match StrategyTimeframe(strategy)
    case Named(tf) =>
      (match IntervalCode(tf)
       case Some(code) => feed(asset, code)
       case None => [])
    case Rendered(_) => []
  }

  /** `_tf_to_minutes` of the decision's timeframe; the rendering of a
      non-text value never ends in a unit letter. */
  function DecisionMinutes(d: CoreDecision): Option<int> {
    match d.timeframe
    case Named(tf) => ToMinutes(tf)
    case Rendered(_) => None
  }

  function SignalOf(d: CoreDecision): SignalRecord {
    SignalRecord(d.asset, d.signal, d.price, DecisionMinutes(d),
                 if d.strategyId == 0 then None else Some(d.strategyId))
  }

  /** The writes for one decision: always the log, then a signal unless HOLD. */
  function WritesFor(d: CoreDecision): (w: seq<Write>)
    ensures 1 <= |w| <= 2
    ensures w[0] == LogWrite(ToDecisionLogRecord(d))
    ensures |w| == 2 <==> d.signal != Hold
    ensures |w| == 2 ==> w[1] == SignalWrite(SignalOf(d))
  {
    [LogWrite(ToDecisionLogRecord(d))] + (if d.signal != Hold then [SignalWrite(SignalOf(d))] else [])
  }

  /** Every signal write follows the log of the same decision, and the log
      of every LONG or SHORT decision is followed by its signal. */
  ghost predicate Paired(w: seq<Write>) {
    && (forall i :: 0 <= i < |w| && w[i].SignalWrite? ==>
          i > 0 && w[i - 1].LogWrite? && w[i - 1].log.signalType == w[i].sig.signalType
          && w[i].sig.signalType != Hold)
    && (forall i :: 0 <= i < |w| && w[i].LogWrite? && w[i].log.signalType != Hold ==>
          i + 1 < |w| && w[i + 1].SignalWrite?)
  }

  function CountLogs(w: seq<Write>): (n: nat)
    ensures n <= |w|
  {
    if |w| == 0 then 0 else (if w[|w| - 1].LogWrite? then 1 else 0) + CountLogs(w[..|w| - 1])
  }

  lemma {:induction false} CountLogsAppend(a: seq<Write>, b: seq<Write>)
    ensures CountLogs(a + b) == CountLogs(a) + CountLogs(b)
    decreases |b|
  {
    if |b| == 0 {
      assert a + b == a;
    } else {
      assert (a + b)[..|a + b| - 1] == a + b[..|b| - 1];
      CountLogsAppend(a, b[..|b| - 1]);
    }
  }

  lemma PairedAppend(a: seq<Write>, d: CoreDecision)
    ensures Paired(a) ==> Paired(a + WritesFor(d))
  {
    if !Paired(a) {
      return;
    }
    var w := a + WritesFor(d);
    forall i | 0 <= i < |w| && w[i].LogWrite? && w[i].log.signalType != Hold
      ensures i + 1 < |w| && w[i + 1].SignalWrite?
    {
      if i >= |a| {
        assert i == |a|;
      }
    }
  }

  /** The writes of one more decision keep the pairing and add one log. */
  lemma WritesStep(a: seq<Write>, d: CoreDecision)
    ensures Paired(a) ==> Paired(a + WritesFor(d))
    ensures CountLogs(a + WritesFor(d)) == CountLogs(a) + 1
    ensures |a + WritesFor(d)| >= |a| && (a + WritesFor(d))[..|a|] == a
  {
    PairedAppend(a, d);
    CountLogsAppend(a, WritesFor(d));
    var f := WritesFor(d);
    if |f| == 2 { assert f[..1] == [f[0]]; }
    assert CountLogs(f) == 1;
  }

  lemma PrefixOfPrefix(r: seq<Write>, w: seq<Write>, a: seq<Write>)
    requires |w| <= |r| && r[..|w|] == w && |a| <= |w| && w[..|a|] == a
    ensures r[..|a|] == a
  {
    assert r[..|a|] == r[..|w|][..|a|];
  }

  /** The evaluation of one (strategy, asset) pair. */
  function Evaluation(p: (Dict, string), feed: (string, string) -> seq<real>, root: real -> real): Result<CoreDecision> {
    Evaluate(p.0, p.1, Closes(p.0, p.1, feed), root)
  }

  /** The evaluation of every pair, in order. */
  function Evaluations(pairs: seq<(Dict, string)>, feed: (string, string) -> seq<real>, root: real -> real)
    : (r: seq<Result<CoreDecision>>)
    ensures |r| == |pairs|
    decreases |pairs|
  {
    if |pairs| == 0 then [] else [Evaluation(pairs[0], feed, root)] + Evaluations(pairs[1..], feed, root)
  }

  /** Element `i` of the outcomes is the evaluation of pair `i`. */
  lemma {:induction false} EvaluationAt(pairs: seq<(Dict, string)>, feed: (string, string) -> seq<real>, root: real -> real, i: int)
    requires 0 <= i < |pairs|
    ensures Evaluations(pairs, feed, root)[i] == Evaluation(pairs[i], feed, root)
    decreases |pairs|
  {
    if i > 0 {
      EvaluationAt(pairs[1..], feed, root, i - 1);
    }
  }

  /** The decisions of the evaluations before the first that raised, in
      order: all of them when none raised. */
  function Reached(outs: seq<Result<CoreDecision>>): (ds: seq<CoreDecision>)
    ensures |ds| <= |outs|
    ensures forall i :: 0 <= i < |ds| ==> outs[i] == Ok(ds[i])
    ensures |ds| < |outs| ==> outs[|ds|].Err?
    ensures |ds| < |outs| <==> exists i :: 0 <= i < |outs| && outs[i].Err?
    decreases |outs|
  {
    if |outs| == 0 then []
    else
      match outs[0]
      case Err(_) => []
      case Ok(d) =>
        var rest := Reached(outs[1..]);
        var ds := [d] + rest;
        assert forall i :: 1 <= i < |outs| ==> outs[i] == outs[1..][i - 1];
        assert forall i :: 1 <= i < |ds| ==> ds[i] == rest[i - 1];
        ds
  }

  /** The writes of a list of decisions: those of each in turn. */
  function WritesOf(ds: seq<CoreDecision>): seq<Write>
    decreases |ds|
  {
    if |ds| == 0 then [] else WritesFor(ds[0]) + WritesOf(ds[1..])
  }

  lemma Regroup(a: seq<Write>, b: seq<Write>, c: seq<Write>)
    ensures a + (b + c) == (a + b) + c
  {
  }

  /** Visit the evaluations of the (strategy, asset) pairs in order: the
      writes of every decision before the first evaluation that raises, and
      the pass aborted exactly when one raises. */
  function Visit(outs: seq<Result<CoreDecision>>, acc: Pass): (r: Pass)
    requires !acc.aborted
    ensures var ds := Reached(outs);
      && (r.aborted <==> |ds| < |outs|)
      && r.processed == acc.processed + |ds|
      && r.writes == acc.writes + WritesOf(ds)
    ensures |r.writes| >= |acc.writes| && r.writes[..|acc.writes|] == acc.writes
    ensures Paired(acc.writes) ==> Paired(r.writes)
    ensures CountLogs(acc.writes) == acc.processed ==> CountLogs(r.writes) == r.processed
    decreases |outs|
  {
    if |outs| == 0 then acc
    else
      match outs[0]
      case Err(_) => Pass(acc.writes, acc.processed, true)
      case Ok(d) =>
        var w := acc.writes + WritesFor(d);
        WritesStep(acc.writes, d);
        var r := Visit(outs[1..], Pass(w, acc.processed + 1, false));
        PrefixOfPrefix(r.writes, w, acc.writes);
        var rest := Reached(outs[1..]);
        assert Reached(outs) == [d] + rest;
        assert ([d] + rest)[1..] == rest;
        Regroup(acc.writes, WritesFor(d), WritesOf(rest));
        r
  }

  /** The evaluation of some pair raises. */
  predicate Raises(pairs: seq<(Dict, string)>, feed: (string, string) -> seq<real>, root: real -> real) {
    exists i :: 0 <= i < |pairs| && Evaluation(pairs[i], feed, root).Err?
  }

  /** Every (strategy, asset) pair of the pass, strategies in order. */
  function Pairs(strategies: seq<Dict>): seq<(Dict, string)> {
    if |strategies| == 0 then []
    else
      var assets := MonitoredAssets(strategies[0]);
      seq(|assets|, i requires 0 <= i < |assets| => (strategies[0], assets[i])) + Pairs(strategies[1..])
  }

  /** No writes are trivially paired and count no logs. */
  lemma NothingWritten()
    ensures Paired([]) && CountLogs([]) == 0
  {
  }

  /** The pass over the evaluations of all pairs, from an empty start:
      aborted exactly when one raises, with the writes of the decisions
      reached. */
  function Run(outs: seq<Result<CoreDecision>>): (r: Pass)
    ensures r.aborted <==> exists i :: 0 <= i < |outs| && outs[i].Err?
    ensures r.aborted <==> |Reached(outs)| < |outs|
    ensures r.processed == |Reached(outs)| && r.writes == WritesOf(Reached(outs))
    ensures !r.aborted ==> r.processed == |outs|
    ensures CountLogs(r.writes) == r.processed
    ensures Paired(r.writes)
  {
    NothingWritten();
    Visit(outs, Pass([], 0, false))
  }

  /** A pass over the evaluations of some pairs is cut short exactly when
      the evaluation of one of the pairs raises. */
  lemma AbortedIffRaises(pairs: seq<(Dict, string)>, feed: (string, string) -> seq<real>, root: real -> real)
    ensures Run(Evaluations(pairs, feed, root)).aborted <==> Raises(pairs, feed, root)
  {
    AbortedRaises(pairs, feed, root);
    RaisesAborts(pairs, feed, root);
  }

  lemma AbortedRaises(pairs: seq<(Dict, string)>, feed: (string, string) -> seq<real>, root: real -> real)
    ensures Run(Evaluations(pairs, feed, root)).aborted ==> Raises(pairs, feed, root)
  {
    var outs := Evaluations(pairs, feed, root);
    var k := |Reached(outs)|;
    if k < |outs| {
      EvaluationAt(pairs, feed, root, k);
      assert Evaluation(pairs[k], feed, root).Err?;
    }
  }

  lemma RaisesAborts(pairs: seq<(Dict, string)>, feed: (string, string) -> seq<real>, root: real -> real)
    ensures Raises(pairs, feed, root) ==> Run(Evaluations(pairs, feed, root)).aborted
  {
    if Raises(pairs, feed, root) {
      var outs := Evaluations(pairs, feed, root);
      var i :| 0 <= i < |pairs| && Evaluation(pairs[i], feed, root).Err?;
      EvaluationAt(pairs, feed, root, i);
      assert outs[i].Err?;
    }
  }

  /** `run_once`: a decision log for every visited pair, a signal for every
      LONG or SHORT decision right after its log.  There is no `try`, so the
      first pair whose evaluation raises ends the pass. */
  function RunOnce(strategies: seq<Dict>, feed: (string, string) -> seq<real>, root: real -> real): (r: Pass)
    ensures r.aborted <==> Raises(Pairs(strategies), feed, root)
    ensures !r.aborted ==> r.processed == |Pairs(strategies)|
    ensures CountLogs(r.writes) == r.processed
    ensures Paired(r.writes)
    ensures |strategies| == 0 ==> r == Pass([], 0, false)
  {
    var pairs := Pairs(strategies);
    AbortedIffRaises(pairs, feed, root);
    Run(Evaluations(pairs, feed, root))
  }

  /** What a pass writes: the logs and signals of the decisions reached
      before the first pair whose evaluation raises, which are the
      decisions of every pair, in order, when none raises. */
  lemma RunOnceWrites(strategies: seq<Dict>, feed: (string, string) -> seq<real>, root: real -> real)
    ensures var outs := Evaluations(Pairs(strategies), feed, root);
      var r := RunOnce(strategies, feed, root);
      && r.writes == WritesOf(Reached(outs))
      && (!r.aborted ==>
            && |Reached(outs)| == |outs|
            && forall i :: 0 <= i < |outs| ==> outs[i] == Ok(Reached(outs)[i]))
  {
  }

  /** `max(10, int(interval_seconds or 60))`. */
  function LoopInterval(seconds: Option<int>): (r: int)
    ensures r >= 10
    ensures seconds.None? || seconds == Some(0) ==> r == 60
    ensures seconds.Some? && seconds.value >= 10 ==> r == seconds.value
    ensures seconds.Some? && seconds.value != 0 && seconds.value < 10 ==> r == 10
  {
    var s := if seconds.None? || seconds.value == 0 then 60 else seconds.value;
    if s < 10 then 10 else s
  }
}
