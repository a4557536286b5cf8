/** The input checks of utils/validators.py that guard what reaches the
    core: identifiers, subscription types, tokens, strategy names, asset
    lists, timeframes and free text. */
module Validators {
  import opened Wrappers
  import opened Text
  import opened Values
  import Formatters
  import Timeframes
  import Scheduler

  // ------------------------------------------------------------ telegram id

  /** `validate_telegram_id`: the number the text denotes, when it is
      positive; `int()` raising `ValueError` gives `None` as well. */
  function ValidateTelegramId(s: string): (r: Option<int>)
    ensures r.Some? ==> r.value > 0 && ParseInt(s) == r
    ensures ParseInt(s).Some? && ParseInt(s).value > 0 ==> r.Some?
  {
    match ParseInt(s)
    case Some(tid) => if tid > 0 then Some(tid) else None
    case None => None
  }

  /** Every positive identifier, written in decimal, is accepted as itself. */
  lemma TelegramIdRoundTrip(n: nat)
    requires n > 0
    ensures ValidateTelegramId(ShowNat(n)) == Some(n)
  {
    ParseShowNat(n);
  }

  /** A minus sign in front of any decimal number is rejected. */
  lemma NegativeIdRejected(n: nat)
    ensures ValidateTelegramId("-" + ShowNat(n)).None?
  {
    var s := "-" + ShowNat(n);
    StripKeeps(s);
    assert Unsigned(s) == ShowNat(n);
    DigitsOfShow(n);
  }

  // ------------------------------------------------------------ subscription

  const SubscriptionTypes: seq<string> := ["trial", "vip", "long", "short", "long_short", "free"]

  /** `validate_subscription_type`: one of the six types in any letter case. */
  function ValidateSubscriptionType(s: string): (r: bool)
    ensures r <==> (|| Lower(s) == "trial" || Lower(s) == "vip" || Lower(s) == "long"
                    || Lower(s) == "short" || Lower(s) == "long_short" || Lower(s) == "free")
    ensures r ==> 3 <= |s| <= 10
  {
    Lower(s) in SubscriptionTypes
  }

  /** Lower-casing twice is lower-casing once. */
  lemma LowerTwice(s: string)
    ensures Lower(Lower(s)) == Lower(s)
  {
  }

  /** The check ignores case: a text and its lower-cased form agree. */
  lemma SubscriptionIgnoresCase(s: string)
    ensures ValidateSubscriptionType(Lower(s)) == ValidateSubscriptionType(s)
  {
    LowerTwice(s);
  }

  /** Text of lower-case ASCII letters and underscores comes back from
      upper-casing and lower-casing. */
  lemma LowerOfUpper(s: string)
    requires forall i :: 0 <= i < |s| ==> 'a' <= s[i] <= 'z' || s[i] == '_'
    ensures Lower(Upper(s)) == s
  {
  }

  /** Each listed type is accepted, written in lower or in upper case. */
  lemma SubscriptionTypesAccepted(t: string)
    requires t in SubscriptionTypes
    ensures ValidateSubscriptionType(t) && ValidateSubscriptionType(Upper(t))
  {
    assert forall i :: 0 <= i < |t| ==> 'a' <= t[i] <= 'z' || t[i] == '_';
    LowerOfUpper(t);
    LowerKeeps(t);
  }

  // ------------------------------------------------------------ token

  /** The class `[A-Za-z0-9\-_]`. */
  predicate TokenChar(c: char) {
    'A' <= c <= 'Z' || 'a' <= c <= 'z' || '0' <= c <= '9' || c == '-' || c == '_'
  }

  /** 8 to 64 characters of the class. */
  predicate TokenBody(t: string) {
    8 <= |t| <= 64 && forall i :: 0 <= i < |t| ==> TokenChar(t[i])
  }

  /** What `re.match(r'^[A-Za-z0-9\-_]{8,64}$', token)` accepts: `$` also
      matches just before a newline that ends the text. */
  predicate TokenMatches(t: string) {
    TokenBody(t) || (|t| > 0 && t[|t| - 1] == '\n' && TokenBody(t[..|t| - 1]))
  }

  /** `validate_token`, as the regular expression engine runs it: take as
      many characters of the class as it may (at most 64), then require at
      least 8 of them and the end of the text, or a final newline.  Taking
      fewer never helps, since the next character would be one of the class
      and neither the end nor a newline. */
  method ValidateToken(token: string) returns (ok: bool)
    ensures ok <==> TokenMatches(token)
  {
    var k := 0;
    while k < |token| && k < 64 && TokenChar(token[k])
      invariant 0 <= k <= |token| && k <= 64
      invariant forall i :: 0 <= i < k ==> TokenChar(token[i])
    {
      k := k + 1;
    }
    ok := k >= 8 && (k == |token| || (k == |token| - 1 && token[k] == '\n'));
    if ok && k == |token| - 1 {
      assert token[..k] == token[..|token| - 1];
    }
    if TokenMatches(token) && !TokenBody(token) {
      var body := token[..|token| - 1];
      assert forall i :: 0 <= i < |body| ==> TokenChar(token[i]);
      assert !TokenChar(token[|token| - 1]);
    }
  }

  /** A valid token followed by a newline is accepted, although a newline
      is no letter, digit, hyphen or underscore. */
  lemma TrailingNewlineAccepted()
    ensures TokenMatches("abcdefgh\n")
    ensures !ValidateTokenStrict("abcdefgh\n")
  {
    assert "abcdefgh\n"[..8] == "abcdefgh";
    assert !TokenChar("abcdefgh\n"[8]);
  }

  /** The check the comment describes (`re.fullmatch`): only characters of
      the class, 8 to 64 of them. */
  function ValidateTokenStrict(token: string): (ok: bool)
    ensures ok ==> '\n' !in token
    ensures ok ==> TokenMatches(token)
    ensures TokenMatches(token) && '\n' !in token ==> ok
  {
    TokenBody(token)
  }

  // ------------------------------------------------------------ names

  /** `validate_strategy_name`: 3 to 100 characters. */
  function ValidateStrategyName(name: string): (r: bool)
    ensures r <==> 3 <= |name| <= 100
    ensures r ==> SanitizeInput(name, 100) == Strip(name)
  {
    if 3 <= |name| <= 100 then SanitizeShort(name, 100); true else false
  }

  /** A name sanitised to 100 characters passes the name check as soon as
      at least three characters survive the strip. */
  lemma SanitizedNameValid(text: string)
    requires |Strip(text)| >= 3
    ensures ValidateStrategyName(SanitizeInput(text, 100))
  {
  }

  // ------------------------------------------------------------ assets

  /** A non-empty list whose every entry is text of at least three
      characters. */
  predicate AssetsValid(v: Value) {
    v.VList? && |v.items| > 0 && forall i :: 0 <= i < |v.items| ==> v.items[i].VStr? && |v.items[i].s| >= 3
  }

  /** `validate_assets_list`: falsy or not a list fails, then the first entry
      that is not text of three characters or more fails. */
  method ValidateAssetsList(assets: Value) returns (ok: bool)
    ensures ok <==> AssetsValid(assets)
  {
    if !Truthy(assets) || !assets.VList? {
      return false;
    }
    var items := assets.items;
    var i := 0;
    while i < |items|
      invariant 0 <= i <= |items|
      invariant forall j :: 0 <= j < i ==> items[j].VStr? && |items[j].s| >= 3
    {
      if !items[i].VStr? || |items[i].s| < 3 {
        return false;
      }
      i := i + 1;
    }
    return true;
  }

  /** A validated list is visited in full by the trading pass when none of
      its entries is blank. */
  lemma {:induction false} ValidAssetsMonitored(items: seq<Value>)
    requires forall i :: 0 <= i < |items| ==> items[i].VStr? && |Strip(items[i].s)| > 0
    ensures |Scheduler.CleanAssets(items)| == |items|
  {
    if |items| > 0 {
      ValidAssetsMonitored(items[1..]);
    }
  }

  /** Validation does not look inside the text: three spaces pass, and the
      trading pass then visits nothing. */
  lemma BlankAssetPasses()
    ensures AssetsValid(VList([VStr("   ")]))
    ensures Scheduler.CleanAssets([VStr("   ")]) == []
  {
    assert IsSpace(' ');
    assert Strip("   ") == "";
    Scheduler.CleanAssetsSingle(VStr("   "));
  }

  // ------------------------------------------------------------ timeframe

  const ValidTimeframes: seq<string> := ["1m", "5m", "15m", "30m", "1h", "4h", "1d", "1w"]

  /** `validate_timeframe`: one of the eight tokens, exactly as written. */
  function ValidateTimeframe(tf: string): (r: bool)
    ensures r <==> (|| tf == "1m" || tf == "5m" || tf == "15m" || tf == "30m"
                    || tf == "1h" || tf == "4h" || tf == "1d" || tf == "1w")
    ensures r ==> Lower(tf) == tf && 2 <= |tf| <= 3
    ensures r ==> Timeframes.IntervalCode(tf) == Some(tf)
    ensures r ==> Timeframes.ToMinutes(tf).Some? && Timeframes.ToMinutes(tf).value > 0
  {
    TimeframeListed(tf);
    if tf in ValidTimeframes then TimeframeUnderstood(tf); true else false
  }

  lemma TimeframeListed(tf: string)
    ensures tf in ValidTimeframes <==> (|| tf == "1m" || tf == "5m" || tf == "15m" || tf == "30m"
                                        || tf == "1h" || tf == "4h" || tf == "1d" || tf == "1w")
  {
  }

  /** Every accepted timeframe is an exchange interval code of its own and
      has a positive length in minutes for the trading core. */
  lemma TimeframeUnderstood(tf: string)
    requires tf in ValidTimeframes
    ensures Lower(tf) == tf && 2 <= |tf| <= 3
    ensures Timeframes.IntervalCode(tf) == Some(tf)
    ensures Timeframes.ToMinutes(tf).Some? && Timeframes.ToMinutes(tf).value > 0
  {
    StripKeeps(tf);
    LowerKeeps(tf);
    assert Timeframes.Normalize(tf) == tf;
    Timeframes.IntervalCodeMinutes(tf);
  }

  // ------------------------------------------------------------ sanitising

  /** `sanitize_input`: strip, then cut to `maxLength` characters with
      Python's `text[:maxLength]`, where a negative length drops that many
      characters from the end. */
  function SanitizeInput(text: string, maxLength: int): (r: string)
    ensures |r| <= |Strip(text)| && r == Strip(text)[..|r|]
    ensures maxLength >= 0 ==> |r| == Formatters.Min(|Strip(text)|, maxLength)
    ensures maxLength < 0 ==> |r| == if |Strip(text)| + maxLength > 0 then |Strip(text)| + maxLength else 0
  {
    var t := Strip(text);
    if |t| > maxLength then t[..Formatters.SliceBound(maxLength, |t|)] else t
  }

  /** A text that is at most `maxLength` long after the strip is only
      stripped. */
  lemma SanitizeShort(text: string, maxLength: int)
    requires |Strip(text)| <= maxLength
    ensures SanitizeInput(text, maxLength) == Strip(text)
  {
  }
}
