/** Strategy configuration as the decision procedure reads it
    (services/trading_core_service.py, `_normalize_indicators` and
    `_extract_entry_constraints`).  A strategy is the JSON object stored for
    it, so a `Dict`. */
module Normalizer {
  import opened Wrappers
  import opened Text
  import opened Values

  /** The two shapes of the `indicators` setting, and everything else. */
  datatype ConfigShape =
    | ListShape(items: seq<Value>)   // template form `{"list": [...]}`
    | MapShape(entries: Dict)        // wizard form `{"rsi": {...}, ...}`
    | Other

  /** `strategy.get("indicators") or {}`. */
  function RawIndicators(strategy: Dict): Value {
    Or(GetOr(strategy, "indicators", VNone), VDict([]))
  }

  function Shape(raw: Value): (c: ConfigShape)
    ensures c.ListShape? <==> raw.VDict? && Get(raw.fields, "list").Some? && Get(raw.fields, "list").value.VList?
    ensures c.MapShape? ==> raw == VDict(c.entries)
    ensures c.Other? <==> !raw.VDict?
  {
    match raw
    case VDict(fields) =>
      (match Get(fields, "list")
       case Some(VList(items)) => ListShape(items)
       case _ => MapShape(fields))
    case _ => Other
  }

  /** The dictionary entries of a list, in order. */
  function DictsOf(items: seq<Value>): (r: seq<Dict>)
    ensures |r| <= |items|
    ensures forall d :: d in r <==> VDict(d) in items
  {
    if |items| == 0 then []
    else
      var rest := DictsOf(items[1..]);
      assert forall v :: v in items <==> v == items[0] || v in items[1..];
      if items[0].VDict? then [items[0].fields] + rest else rest
  }

  /** Filtering keeps the order: the entries of a concatenation are the
      entries of each part, one after the other. */
  lemma {:induction false} DictsOfAppend(a: seq<Value>, b: seq<Value>)
    ensures DictsOf(a + b) == DictsOf(a) + DictsOf(b)
  {
    if |a| == 0 {
      assert a + b == b;
    } else {
      assert (a + b)[0] == a[0];
      assert (a + b)[1..] == a[1..] + b;
      DictsOfAppend(a[1..], b);
      if a[0].VDict? {
        assert DictsOf(a + b) == [a[0].fields] + DictsOf(a[1..] + b);
      } else {
        assert DictsOf(a + b) == DictsOf(a[1..] + b);
      }
    }
  }

  /** The request the wizard form yields for one `key: params` entry. */
  function Request(f: Field): (d: Dict)
    ensures Get(d, "name") == Some(VStr(Upper(Strip(f.key))))
    ensures Get(d, "enabled") == Some(VBool(true))
    ensures Get(d, "weight") == Some(VNum(1.0))
    ensures f.val.VDict? ==> Get(d, "parameters") == Some(f.val)
    ensures !f.val.VDict? ==> Get(d, "parameters") == Some(VDict([]))
  {
    var d := Put([], "name", VStr(Upper(Strip(f.key))));
    var d := Put(d, "enabled", VBool(true));
    var d := Put(d, "parameters", if f.val.VDict? then f.val else VDict([]));
    Put(d, "weight", VNum(1.0))
  }

  function Requests(entries: Dict): (r: seq<Dict>)
    ensures |r| == |entries|
    ensures forall i :: 0 <= i < |entries| ==> r[i] == Request(entries[i])
  {
    seq(|entries|, i requires 0 <= i < |entries| => Request(entries[i]))
  }

  /** `_normalize_indicators`: the canonical indicator list of a strategy. */
  function NormalizeIndicators(strategy: Dict): (r: seq<Dict>)
    ensures Shape(RawIndicators(strategy)).Other? ==> r == []
  {
    match Shape(RawIndicators(strategy))
    case ListShape(items) => DictsOf(items)
    case MapShape(entries) => Requests(entries)
    case Other => []
  }

  /** The template form, a dictionary whose `"list"` entry is a list (other
      keys are ignored), yields exactly its dictionary entries, in order. */
  lemma TemplateForm(strategy: Dict, items: seq<Value>)
    requires Shape(RawIndicators(strategy)) == ListShape(items)
    ensures NormalizeIndicators(strategy) == DictsOf(items)
    ensures forall d :: d in NormalizeIndicators(strategy) <==> VDict(d) in items
  {
  }

  /** The wizard form yields one request per key, in key order: the key
      stripped and upper-cased as the name, enabled, weight 1.0, and the
      value as parameters when it is a dictionary, `{}` otherwise. */
  lemma {:induction false} WizardForm(strategy: Dict, entries: Dict)
    requires RawIndicators(strategy) == VDict(entries)
    requires Get(entries, "list").None? || !Get(entries, "list").value.VList?
    ensures NormalizeIndicators(strategy) == Requests(entries)
    ensures |NormalizeIndicators(strategy)| == |entries|
    ensures forall i :: 0 <= i < |entries| ==>
      var d := NormalizeIndicators(strategy)[i];
      && Get(d, "name") == Some(VStr(Upper(Strip(entries[i].key))))
      && Get(d, "enabled") == Some(VBool(true))
      && Get(d, "weight") == Some(VNum(1.0))
      && Get(d, "parameters") == Some(if entries[i].val.VDict? then entries[i].val else VDict([]))
  {
    assert Shape(VDict(entries)) == MapShape(entries);
  }

  /** A missing or non-dictionary setting yields no indicators: a falsy one
      becomes the empty wizard form, any other is neither shape. */
  lemma NonDictIndicators(strategy: Dict)
    requires !GetOr(strategy, "indicators", VNone).VDict?
    ensures NormalizeIndicators(strategy) == []
  {
  }

  // ----------------------------------------------------- entry constraints

  /** `strategy.get("entry_rules") or {}`, when it is a dictionary. */
  function EntryRules(strategy: Dict): Option<Dict> {
    var er := Or(GetOr(strategy, "entry_rules", VNone), VDict([]));
    if er.VDict? then Some(er.fields) else None
  }

  datatype Constraints = Constraints(requiredConfirmations: int, minStrength: real)

  const DefaultConfirmations: int := 1
  const DefaultStrength: real := 0.6

  function Clamp01(x: real): (r: real)
    ensures 0.0 <= r <= 1.0
    ensures 0.0 <= x <= 1.0 ==> r == x
  {
    if x < 0.0 then 0.0 else if x > 1.0 then 1.0 else x
  }

  /** The raw `required_confirmations` before clamping: the parsed setting, or
      the default when it is missing or `int()` rejects it. */
  function RawConfirmations(strategy: Dict): (n: int)
    ensures EntryRules(strategy).None? ==> n == DefaultConfirmations
  {
    match EntryRules(strategy)
    case None => DefaultConfirmations
    case Some(er) =>
      ToInt(ConfirmationsSetting(er)).GetOr(DefaultConfirmations)
  }

  /** `max(0.0, min(1.0, float(v)))`, or `None` where `float(v)` raises.
      Text naming an infinity or NaN has no real value, but the clamp
      still decides it: `min(1.0, nan)` keeps 1.0, and minus infinity
      ends at 0.0. */
  function ClampedStrength(v: Value): (r: Option<real>)
    ensures ToFloat(v).Some? ==> r == Some(Clamp01(ToFloat(v).value))
    ensures v.VStr? && SpecialFloat(v.s).Some? ==>
      r == Some(if SpecialFloat(v.s).value == NegInf then 0.0 else 1.0)
    ensures r.None? <==> ToFloat(v).None? && !(v.VStr? && SpecialFloat(v.s).Some?)
  {
    if v.VStr? && SpecialFloat(v.s).Some? then
      SpecialNotDecimal(v.s);
      assert ToFloat(v).None?;
      Some(if SpecialFloat(v.s).value == NegInf then 0.0 else 1.0)
    else
      match ToFloat(v)
      case Some(x) => Some(Clamp01(x))
      case None => None
  }

  /** The `min_signal_strength` setting, defaulting to 0.6. */
  function StrengthSetting(er: Dict): Value {
    GetOr(er, "min_signal_strength", VNum(DefaultStrength))
  }

  /** The `required_confirmations` setting, defaulting to 1. */
  function ConfirmationsSetting(er: Dict): Value {
    GetOr(er, "required_confirmations", VNum(DefaultConfirmations as real))
  }

  /** The threshold after clamping: the default when the setting is missing
      or `float()` rejects it. */
  function Strength(strategy: Dict): (x: real)
    ensures EntryRules(strategy).None? ==> x == DefaultStrength
  {
    match EntryRules(strategy)
    case None => DefaultStrength
    case Some(er) => ClampedStrength(StrengthSetting(er)).GetOr(DefaultStrength)
  }

  /** `_extract_entry_constraints`: at least one confirmation and a strength
      threshold in [0, 1].  A parsed confirmation count below one becomes
      one; a parsed threshold is clamped into [0, 1]; a setting `int()` or
      `float()` rejects keeps its default. */
  function EntryConstraints(strategy: Dict): (c: Constraints)
    ensures c.requiredConfirmations >= 1
    ensures 0.0 <= c.minStrength <= 1.0
    ensures EntryRules(strategy).None? ==> c == Constraints(1, 0.6)
    ensures var er := EntryRules(strategy);
      er.Some? && ToInt(ConfirmationsSetting(er.value)).Some? ==>
      var n := ToInt(ConfirmationsSetting(er.value)).value;
      c.requiredConfirmations == if n >= 1 then n else 1
    ensures var er := EntryRules(strategy);
      er.Some? && ToInt(ConfirmationsSetting(er.value)).None? ==> c.requiredConfirmations == 1
    ensures var er := EntryRules(strategy);
      er.Some? && ToFloat(StrengthSetting(er.value)).Some? ==>
      var x := ToFloat(StrengthSetting(er.value)).value;
      c.minStrength == if x < 0.0 then 0.0 else if x > 1.0 then 1.0 else x
    ensures var er := EntryRules(strategy);
      er.Some? && StrengthSetting(er.value).VStr? && SpecialFloat(StrengthSetting(er.value).s).Some? ==>
      c.minStrength == if SpecialFloat(StrengthSetting(er.value).s).value == NegInf then 0.0 else 1.0
    ensures var er := EntryRules(strategy);
      er.Some? && ToFloat(StrengthSetting(er.value)).None?
      && !(StrengthSetting(er.value).VStr? && SpecialFloat(StrengthSetting(er.value).s).Some?) ==>
      c.minStrength == 0.6
  {
    var n := RawConfirmations(strategy);
    Constraints(if n < 1 then 1 else n, Strength(strategy))
  }

  /** A missing or unparsable setting falls back to the default. */
  lemma UnparsableConstraints(strategy: Dict, er: Dict)
    requires EntryRules(strategy) == Some(er)
    requires ToInt(ConfirmationsSetting(er)).None?
    requires ClampedStrength(StrengthSetting(er)).None?
    ensures EntryConstraints(strategy) == Constraints(1, 0.6)
  {
  }

  /** A threshold written as `"nan"` ends at 1.0: NaN compares false, so
      `min(1.0, nan)` keeps 1.0. */
  lemma NanStrength(strategy: Dict, er: Dict)
    requires EntryRules(strategy) == Some(er)
    requires StrengthSetting(er) == VStr("nan")
    ensures EntryConstraints(strategy).minStrength == 1.0
  {
    NanText();
  }

  lemma NanText()
    ensures SpecialFloat("nan") == Some(NaN)
  {
    var s := "nan";
    Bare(s);
    assert Lower(s) == s;
  }

  /** A threshold written with an exponent is read as a number:
      `"1e-1"` is one tenth, not the default. */
  lemma ExponentStrength(strategy: Dict, er: Dict, m: nat, e: nat)
    requires EntryRules(strategy) == Some(er)
    requires StrengthSetting(er) == VStr(ShowNat(m) + "e-" + ShowNat(e))
    requires m as real <= Pow10(e)
    ensures EntryConstraints(strategy).minStrength == m as real / Pow10(e)
  {
    var x := m as real / Pow10(e);
    NegativeScientificText(m, e);
    TimesPow10Signs(m as real, e);
    assert ToFloat(StrengthSetting(er)) == Some(x);
    FractionInUnit(m as real, Pow10(e));
    ParsedStrength(strategy, er, x);
  }

  /** A parsed threshold already in [0, 1] is kept as it is. */
  lemma ParsedStrength(strategy: Dict, er: Dict, x: real)
    requires EntryRules(strategy) == Some(er)
    requires ToFloat(StrengthSetting(er)) == Some(x) && 0.0 <= x <= 1.0
    ensures EntryConstraints(strategy).minStrength == x
  {
  }

  lemma FractionInUnit(a: real, b: real)
    requires 0.0 <= a <= b && b >= 1.0
    ensures 0.0 <= a / b <= 1.0
  {
  }

  /** An explicit zero is not replaced by the default before clamping; it is
      raised to one confirmation and kept as a zero threshold. */
  lemma ZeroSettings(strategy: Dict)
    requires EntryRules(strategy) == Some([Field("required_confirmations", VNum(0.0)), Field("min_signal_strength", VNum(0.0))])
    ensures EntryConstraints(strategy) == Constraints(1, 0.0)
  {
  }
}
