/** The dynamic values the source passes around as parsed JSON: strategy
    configurations, indicator parameters and recommendation values.  A Python
    `dict` is an ordered list of fields (insertion order); keys are strings
    because every such dictionary comes from a JSON object. */
module Values {
  import opened Wrappers
  import opened Text

  datatype Field = Field(key: string, val: Value)

  /** Python `None`, `bool`, `int`/`float`, `str`, `list` and `dict`. */
  datatype Value =
    | VNone
    | VBool(b: bool)
    | VNum(x: real)
    | VStr(s: string)
    | VList(items: seq<Value>)
    | VDict(fields: seq<Field>)

  type Dict = seq<Field>

  /** Python truthiness: `None`, `False`, zero and empty containers are false. */
  predicate Truthy(v: Value) {
    match v
    case VNone => false
    case VBool(b) => b
    case VNum(x) => x != 0.0
    case VStr(s) => |s| > 0
    case VList(items) => |items| > 0
    case VDict(fields) => |fields| > 0
  }

  /** Python's `v or d`. */
  function Or(v: Value, d: Value): (r: Value)
    ensures Truthy(v) ==> r == v
    ensures !Truthy(v) ==> r == d
  {
    if Truthy(v) then v else d
  }

  function Keys(d: Dict): (ks: seq<string>)
    ensures |ks| == |d|
    ensures forall i :: 0 <= i < |d| ==> ks[i] == d[i].key
  {
    seq(|d|, i requires 0 <= i < |d| => d[i].key)
  }

  /** No key occurs twice, as in every Python `dict`. */
  predicate UniqueKeys(d: Dict) {
    forall i, j :: 0 <= i < j < |d| ==> d[i].key != d[j].key
  }

  /** Position of the key in the dictionary, -1 when absent. */
  function IndexOf(d: Dict, key: string): (i: int)
    ensures -1 <= i < |d|
    ensures i >= 0 ==> d[i].key == key
    ensures forall j :: 0 <= j < |d| && (i < 0 || j < i) ==> d[j].key != key
  {
    if |d| == 0 then -1
    else if d[0].key == key then 0
    else
      var i := IndexOf(d[1..], key);
      if i < 0 then -1 else i + 1
  }

  /** Python's `d[key]` lookup, `None` for a missing key. */
  function Get(d: Dict, key: string): (r: Option<Value>)
    ensures r.Some? <==> key in Keys(d)
    ensures r.Some? ==> Field(key, r.value) in d
  {
    var i := IndexOf(d, key);
    if i >= 0 then Some(d[i].val) else None
  }

  /** Python's `d.get(key, default)`. */
  function GetOr(d: Dict, key: string, default: Value): (r: Value)
    ensures key !in Keys(d) ==> r == default
    ensures key in Keys(d) ==> Get(d, key) == Some(r)
  {
    match Get(d, key)
    case Some(v) => v
    case None => default
  }

  /** Python's `d[key] = v`: an existing key keeps its place, a new key goes last. */
  function Put(d: Dict, key: string, v: Value): (r: Dict)
    ensures Get(r, key) == Some(v)
    ensures forall k :: k != key ==> Get(r, k) == Get(d, k)
    ensures UniqueKeys(d) ==> UniqueKeys(r)
    ensures key in Keys(d) ==> Keys(r) == Keys(d)
    ensures key !in Keys(d) ==> r == d + [Field(key, v)]
  {
    var i := IndexOf(d, key);
    if i >= 0 then
      var r := d[i := Field(key, v)];
      PutPresent(d, key, v, i);
      r
    else
      var r := d + [Field(key, v)];
      PutAbsent(d, key, v);
      r
  }

  lemma PutPresent(d: Dict, key: string, v: Value, i: int)
    requires i == IndexOf(d, key) && i >= 0
    ensures var r := d[i := Field(key, v)];
      && Get(r, key) == Some(v)
      && (forall k :: k != key ==> Get(r, k) == Get(d, k))
      && Keys(r) == Keys(d)
      && (UniqueKeys(d) ==> UniqueKeys(r))
  {
    var r := d[i := Field(key, v)];
    IndexOfFirst(r, key, i);
    assert forall j :: 0 <= j < |d| ==> r[j].key == d[j].key;
    assert Keys(r) == Keys(d);
    forall k | k != key
      ensures Get(r, k) == Get(d, k)
    {
      var j := IndexOf(d, k);
      if j >= 0 {
        IndexOfFirst(r, k, j);
      } else {
        IndexOfNone(r, k);
      }
    }
  }

  lemma PutAbsent(d: Dict, key: string, v: Value)
    requires IndexOf(d, key) < 0
    ensures var r := d + [Field(key, v)];
      && Get(r, key) == Some(v)
      && (forall k :: k != key ==> Get(r, k) == Get(d, k))
      && key !in Keys(d)
      && (UniqueKeys(d) ==> UniqueKeys(r))
  {
    var r := d + [Field(key, v)];
    IndexOfFirst(r, key, |d|);
    forall k | k != key
      ensures Get(r, k) == Get(d, k)
    {
      var j := IndexOf(d, k);
      if j >= 0 {
        IndexOfFirst(r, k, j);
      } else {
        IndexOfNone(r, k);
      }
    }
  }

  /** The position of a key is its first occurrence. */
  lemma IndexOfFirst(d: Dict, key: string, i: int)
    requires 0 <= i < |d| && d[i].key == key
    requires forall j :: 0 <= j < i ==> d[j].key != key
    ensures IndexOf(d, key) == i
  {
  }

  /** A key that no field has is absent. */
  lemma IndexOfNone(d: Dict, key: string)
    requires forall j :: 0 <= j < |d| ==> d[j].key != key
    ensures IndexOf(d, key) == -1
  {
  }

  /** The keys of a dictionary are its first key and the keys of the rest. */
  lemma KeysCons(d: Dict)
    requires |d| > 0
    ensures Keys(d) == [d[0].key] + Keys(d[1..])
  {
  }

  /** Dropping the first field keeps the keys distinct, and that key does not
      occur again. */
  lemma UniqueTail(d: Dict)
    requires |d| > 0 && UniqueKeys(d)
    ensures UniqueKeys(d[1..]) && d[0].key !in Keys(d[1..])
  {
    forall i, j | 0 <= i < j < |d[1..]|
      ensures d[1..][i].key != d[1..][j].key
    {
      assert d[1..][i] == d[i + 1] && d[1..][j] == d[j + 1];
    }
  }

  /** A lookup of any other key skips the first field. */
  lemma GetTail(d: Dict, key: string)
    requires |d| > 0 && d[0].key != key
    ensures Get(d, key) == Get(d[1..], key)
  {
    assert IndexOf(d, key) == (if IndexOf(d[1..], key) < 0 then -1 else IndexOf(d[1..], key) + 1);
  }

  /** Python's `x * factor` on numbers (kept as a function of its own so
      that the solver treats products by a constant as terms). */
  function Scale(x: real, factor: real): real {
    x * factor
  }

  /** Python's `x + delta` on numbers, for the same reason. */
  function Shift(x: real, delta: real): real {
    x + delta
  }

  /** Every dictionary inside the value has distinct keys. */
  ghost predicate WellFormed(v: Value) {
    match v
    case VList(items) => forall i :: 0 <= i < |items| ==> WellFormed(items[i])
    case VDict(fields) => UniqueKeys(fields) && WellFormedFields(fields)
    case _ => true
  }

  ghost predicate WellFormedFields(fields: Dict) {
    forall i :: 0 <= i < |fields| ==> WellFormed(fields[i].val)
  }

  /** Python's `int(x)` on a float: truncation toward zero. */
  function Trunc(x: real): (n: int)
    ensures x >= 0.0 ==> n as real <= x < n as real + 1.0
    ensures x < 0.0 ==> n as real - 1.0 < x <= n as real
  {
    if x >= 0.0 then x.Floor else -((-x).Floor)
  }

  /** Digit groups, or nothing. */
  predicate OptionalGroups(s: string) {
    |s| == 0 || DigitGroups(s)
  }

  function OptionalValue(s: string): nat
    requires OptionalGroups(s)
  {
    if |s| == 0 then 0 else GroupsValue(s)
  }

  /** The significand of `float()` text: digit groups with at most one
      decimal point, and a digit on at least one side of it. */
  function Mantissa(m: string): (r: Option<real>)
    ensures DigitGroups(m) ==> r == Some(GroupsValue(m) as real)
  {
    if DigitGroups(m) then Some(GroupsValue(m) as real)
    else
      var parts := Split(m, '.');
      if |parts| == 2 && |parts[0]| + |parts[1]| > 0 && OptionalGroups(parts[0]) && OptionalGroups(parts[1]) then
        Some(OptionalValue(parts[0]) as real + OptionalValue(parts[1]) as real / Pow10(|Ungroup(parts[1])|))
      else None
  }

  /** The exponent after `e` or `E`: an optional sign and digit groups. */
  function Exponent(e: string): (r: Option<int>)
    ensures DigitGroups(e) ==> r == Some(GroupsValue(e) as int)
    ensures |e| > 0 && e[0] == '-' && DigitGroups(e[1..]) ==> r == Some(-(GroupsValue(e[1..]) as int))
  {
    if |e| > 0 && (e[0] == '-' || e[0] == '+') then
      if DigitGroups(e[1..]) then Some(if e[0] == '-' then -(GroupsValue(e[1..]) as int) else GroupsValue(e[1..]))
      else None
    else if DigitGroups(e) then Some(GroupsValue(e))
    else None
  }

  /** Position of the first `e` or `E`, the length when there is none. */
  function ExpMark(s: string): (k: nat)
    ensures k <= |s|
    ensures forall i :: 0 <= i < k ==> s[i] != 'e' && s[i] != 'E'
    ensures k < |s| ==> s[k] == 'e' || s[k] == 'E'
  {
    if |s| == 0 || s[0] == 'e' || s[0] == 'E' then 0 else 1 + ExpMark(s[1..])
  }

  /** `m` times ten to the power `e`. */
  function TimesPow10(m: real, e: int): (r: real)
    ensures e == 0 ==> r == m
  {
    if e >= 0 then m * Pow10(e) else m / Pow10(-e)
  }

  /** Python's `float(s)` for finite numeric text: surrounding whitespace,
      an optional sign, a significand and an optional exponent, where digit
      groups may hold underscores.  The words for infinity and NaN are
      `SpecialFloat`. */
  function ParseDecimal(s: string): (r: Option<real>)
    ensures ParseInt(s).Some? ==> r == Some(ParseInt(s).value as real)
  {
    var x := Magnitude(Unsigned(s));
    var r := if x.None? then None else Some(if Negative(s) then -x.value else x.value);
    IntegerMagnitude(s, x, r);
    r
  }

  /** Integer text has a magnitude, and the sign makes it the integer. */
  lemma IntegerMagnitude(s: string, x: Option<real>, r: Option<real>)
    requires x == Magnitude(Unsigned(s))
    requires r == if x.None? then None else Some(if Negative(s) then -x.value else x.value)
    ensures ParseInt(s).Some? ==> r == Some(ParseInt(s).value as real)
  {
    if ParseInt(s).Some? {
      var u := Unsigned(s);
      assert DigitGroups(u);
      var g := GroupsValue(u) as real;
      assert x == Some(g);
      Signed(x, r, Negative(s), g);
      assert ParseInt(s).value as real == if Negative(s) then -g else g;
    }
  }

  lemma Signed(x: Option<real>, r: Option<real>, neg: bool, g: real)
    requires x == Some(g)
    requires r == if x.None? then None else Some(if neg then -x.value else x.value)
    ensures r == Some(if neg then -g else g)
  {
  }

  /** Unsigned numeric text: the significand before the first `e` or `E`,
      scaled by the exponent after it. */
  function Magnitude(body: string): (r: Option<real>)
    ensures DigitGroups(body) ==> r == Some(GroupsValue(body) as real)
  {
    var k := ExpMark(body);
    IntegerBody(body);
    match Mantissa(body[..k])
    case None => None
    case Some(m) =>
      if k == |body| then Some(m)
      else
        match Exponent(body[k + 1..])
        case None => None
        case Some(e) => Some(TimesPow10(m, e))
  }

  /** Integer text has no exponent and is its own significand. */
  lemma IntegerBody(body: string)
    ensures DigitGroups(body) ==> ExpMark(body) == |body| && body[..ExpMark(body)] == body
  {
    if DigitGroups(body) && ExpMark(body) < |body| {
      assert false;
    }
  }

  function Pow10(n: nat): (r: real)
    ensures r >= 1.0
  {
    if n == 0 then 1.0 else 10.0 * Pow10(n - 1)
  }

  /** `float("<m>e<e>")` is `m` times ten to the `e`. */
  lemma ScientificText(m: nat, e: nat)
    ensures ParseDecimal(ShowNat(m) + "e" + ShowNat(e)) == Some(TimesPow10(m as real, e))
  {
    var a, b := ShowNat(m), ShowNat(e);
    ShownGroups(m);
    ShownGroups(e);
    ScientificParts(a, "e", b);
    assert "e"[1..] + b == b;
    PlainExponent(b);
  }

  /** `float("<m>e-<e>")` is `m` divided by ten to the `e`. */
  lemma NegativeScientificText(m: nat, e: nat)
    ensures ParseDecimal(ShowNat(m) + "e-" + ShowNat(e)) == Some(TimesPow10(m as real, -(e as int)))
  {
    var a, b := ShowNat(m), ShowNat(e);
    ShownGroups(m);
    ShownGroups(e);
    ScientificParts(a, "e-", b);
    assert "e-"[1..] == "-";
    NegativeExponent(b);
  }

  /** A decimal rendering is a digit group denoting the number. */
  lemma ShownGroups(n: nat)
    ensures DigitGroups(ShowNat(n)) && GroupsValue(ShowNat(n)) == n
  {
    PlainDigits(ShowNat(n));
    DigitsOfShow(n);
  }

  /** A non-negative exponent multiplies, a negative one divides. */
  lemma TimesPow10Signs(x: real, e: nat)
    ensures TimesPow10(x, e) == x * Pow10(e)
    ensures TimesPow10(x, -(e as int)) == x / Pow10(e)
  {
  }

  /** Digit groups, an exponent mark and the rest: the significand and the
      exponent are read apart. */
  lemma ScientificParts(a: string, mark: string, b: string)
    requires DigitGroups(a) && DigitGroups(b) && |mark| > 0 && mark[0] == 'e'
    ensures var s := a + mark + b;
      ParseDecimal(s) == match Exponent(mark[1..] + b)
        case Some(x) => Some(TimesPow10(GroupsValue(a) as real, x))
        case None => None
  {
    var s := a + mark + b;
    MarkedText(a, mark, b);
    ParseMarked(s, |a|);
  }

  lemma MarkedText(a: string, mark: string, b: string)
    requires DigitGroups(a) && DigitGroups(b) && |mark| > 0 && mark[0] == 'e'
    ensures var s := a + mark + b;
      && Unsigned(s) == s && !Negative(s) && ExpMark(s) == |a| < |s|
      && s[..|a|] == a && s[|a| + 1..] == mark[1..] + b
  {
    var s := a + mark + b;
    assert s[0] == a[0] && s[|s| - 1] == b[|b| - 1];
    Bare(s);
    ExpMarkAfterGroups(a, mark + b);
    assert s == a + (mark + b);
  }

  /** Unsigned text with its first exponent mark at `k`. */
  lemma ParseMarked(s: string, k: nat)
    requires Unsigned(s) == s && !Negative(s) && ExpMark(s) == k < |s|
    ensures ParseDecimal(s) == match (Mantissa(s[..k]), Exponent(s[k + 1..]))
      case (Some(m), Some(x)) => Some(TimesPow10(m, x))
      case _ => None
  {
    assert ParseDecimal(s) == Magnitude(s);
  }

  lemma NegativeExponent(b: string)
    requires DigitGroups(b)
    ensures Exponent("-" + b) == Some(-(GroupsValue(b) as int))
  {
    var e := "-" + b;
    assert e[1..] == b;
  }

  lemma PlainExponent(b: string)
    requires DigitGroups(b)
    ensures Exponent(b) == Some(GroupsValue(b) as int)
  {
  }

  lemma {:induction false} ExpMarkAfterGroups(a: string, rest: string)
    requires (forall i :: 0 <= i < |a| ==> IsDigit(a[i]) || a[i] == '_') && |rest| > 0 && rest[0] == 'e'
    ensures ExpMark(a + rest) == |a|
  {
    if |a| > 0 {
      assert (a + rest)[1..] == a[1..] + rest;
      ExpMarkAfterGroups(a[1..], rest);
    } else {
      assert a + rest == rest;
    }
  }

  /** The non-finite values `float()` can return. */
  datatype NonFinite = PosInf | NegInf | NaN

  /** Text `float()` reads as an infinity or as NaN: `inf`, `infinity` or
      `nan` in any letter case, after an optional sign. */
  function SpecialFloat(s: string): (r: Option<NonFinite>)
    ensures r.Some? ==> |Unsigned(s)| > 0 && LowerChar(Unsigned(s)[0]) in {'i', 'n'}
  {
    var w := Lower(Unsigned(s));
    if w == "inf" || w == "infinity" then Some(if Negative(s) then NegInf else PosInf)
    else if w == "nan" then Some(NaN)
    else None
  }

  /** The first part of a split starts with the text's first character. */
  lemma SplitFirst(s: string, sep: char)
    requires |s| > 0 && s[0] != sep
    ensures |Split(s, sep)[0]| > 0 && Split(s, sep)[0][0] == s[0]
  {
  }

  /** A significand that starts with a letter is none. */
  lemma LetterNotMantissa(m: string)
    requires |m| > 0 && !IsDigit(m[0]) && m[0] != '.'
    ensures Mantissa(m).None?
  {
    SplitFirst(m, '.');
  }

  /** The words for infinity and NaN are not finite numeric text, so the two
      readings of `float()` never overlap. */
  lemma SpecialNotDecimal(s: string)
    requires SpecialFloat(s).Some?
    ensures ParseDecimal(s).None?
  {
    var body := Unsigned(s);
    var k := ExpMark(body);
    assert !IsDigit(body[0]) && body[0] != '.' && body[0] != 'e' && body[0] != 'E';
    assert k > 0;
    LetterNotMantissa(body[..k]);
  }

  /** Python's `int(v)`; `None` where Python raises `TypeError`/`ValueError`. */
  function ToInt(v: Value): (r: Option<int>)
    ensures v.VNum? ==> r == Some(Trunc(v.x))
    ensures v.VNone? || v.VList? || v.VDict? ==> r.None?
  {
    match v
    case VBool(b) => Some(if b then 1 else 0)
    case VNum(x) => Some(Trunc(x))
    case VStr(s) => ParseInt(s)
    case _ => None
  }

  /** Python's `float(v)`; `None` where Python raises. */
  function ToFloat(v: Value): (r: Option<real>)
    ensures v.VNum? ==> r == Some(v.x)
    ensures v.VNone? || v.VList? || v.VDict? ==> r.None?
  {
    match v
    case VBool(b) => Some(if b then 1.0 else 0.0)
    case VNum(x) => Some(x)
    case VStr(s) => ParseDecimal(s)
    case _ => None
  }

  /** The number a value stands for in Python arithmetic (`bool` counts as
      0 or 1); `None` where `v * 0.8` would raise. */
  function Numeric(v: Value): (r: Option<real>)
    ensures r.Some? <==> v.VNum? || v.VBool?
  {
    match v
    case VNum(x) => Some(x)
    case VBool(b) => Some(if b then 1.0 else 0.0)
    case _ => None
  }

  /** Python's `int(v)` as a computation that can raise: `ValueError` for
      text that is not an integer, `TypeError` for other values. */
  function IntOf(v: Value): (r: Result<int>)
    ensures r.Ok? <==> ToInt(v).Some?
    ensures r.Ok? ==> r.value == ToInt(v).value
  {
    Need(ToInt(v), if v.VStr? then "ValueError" else "TypeError")
  }

  /** Python's `float(v)` as a computation that can raise. */
  function FloatOf(v: Value): (r: Result<real>)
    ensures r.Ok? <==> ToFloat(v).Some?
    ensures r.Ok? ==> r.value == ToFloat(v).value
  {
    Need(ToFloat(v), if v.VStr? then "ValueError" else "TypeError")
  }
}
