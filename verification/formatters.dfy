/** The list and text helpers of utils/formatters.py that the bot applies to
    what the core produces: `paginate_list` and `escape_html`. */
module Formatters {
  import opened Wrappers

  // ------------------------------------------------------------ slices

  /** Python's `a // b`: the quotient rounded down.  Dafny's `/` rounds so
      that the remainder is never negative, which is the same for a
      positive divisor. */
  function FloorDiv(a: int, b: int): (r: int)
    requires b != 0
  {
    if b > 0 then a / b else (-a) / (-b)
  }

  /** The quotient rounded down: the remainder lies between zero and the
      divisor, on the divisor's side. */
  lemma FloorDivBounds(a: int, b: int)
    requires b != 0
    ensures b > 0 ==> FloorDiv(a, b) * b <= a < FloorDiv(a, b) * b + b
    ensures b < 0 ==> FloorDiv(a, b) * b >= a > FloorDiv(a, b) * b + b
  {
    if b < 0 {
      var q := (-a) / (-b);
      assert q * (-b) <= -a < q * (-b) + (-b);
    }
  }

  /** Where a Python slice bound lands in a sequence of length `n`: a
      negative bound counts from the end, and both are clamped to the
      sequence. */
  function SliceBound(i: int, n: nat): (k: nat)
    ensures k <= n
    ensures 0 <= i <= n ==> k == i
    ensures i > n ==> k == n
    ensures i < 0 ==> k == if n + i < 0 then 0 else n + i
  {
    if i < 0 then (if n + i < 0 then 0 else n + i)
    else if i > n then n
    else i
  }

  /** Python's `s[i:j]`: empty when the start lands at or after the end. */
  function Slice<T>(s: seq<T>, i: int, j: int): (r: seq<T>)
    ensures var a, b := SliceBound(i, |s|), SliceBound(j, |s|);
      r == if a < b then s[a..b] else []
  {
    var a, b := SliceBound(i, |s|), SliceBound(j, |s|);
    if a < b then s[a..b] else []
  }

  function Min(a: int, b: int): (r: int) { if a < b then a else b }

  // ------------------------------------------------------------ pagination

  /** `paginate_list`: the items of one page and the number of pages; a
      page size of zero raises `ZeroDivisionError`. */
  function PaginateList<T>(items: seq<T>, page: int, perPage: int): (r: Result<(seq<T>, int)>)
    ensures r.Err? <==> perPage == 0
    ensures perPage >= 1 ==> r.Ok? && TotalPages(|items|, perPage, r.value.1)
    ensures perPage >= 1 && page >= 1 ==>
      r.Ok? && r.value.0 == items[Min((page - 1) * perPage, |items|)..Min(page * perPage, |items|)]
    ensures perPage >= 1 && page == 0 ==> r == Ok(([], r.value.1))
  {
    if perPage == 0 then Err("ZeroDivisionError")
    else
      var start := (page - 1) * perPage;
      var end := start + perPage;
      var total := FloorDiv(|items| + perPage - 1, perPage);
      PageFacts(|items|, page, perPage);
      Ok((Slice(items, start, end), total))
  }

  /** `total` is the number of `perPage`-sized pages `n` items fill: the
      last page is not empty, and one fewer page would not hold them all. */
  ghost predicate TotalPages(n: nat, perPage: int, total: int)
    requires perPage >= 1
  {
    if n == 0 then total == 0 else (total - 1) * perPage < n <= total * perPage
  }

  lemma PageFacts(n: nat, page: int, perPage: int)
    requires perPage != 0
    ensures perPage >= 1 ==> TotalPages(n, perPage, FloorDiv(n + perPage - 1, perPage))
    ensures perPage >= 1 && page >= 1 ==> 0 <= (page - 1) * perPage < page * perPage
  {
    if perPage >= 1 {
      PagesCeiling(n, perPage);
      if page >= 1 {
        PageBounds(page, perPage);
      }
    }
  }

  lemma PagesCeiling(n: nat, perPage: int)
    requires perPage >= 1
    ensures TotalPages(n, perPage, FloorDiv(n + perPage - 1, perPage))
  {
    FloorDivBounds(n + perPage - 1, perPage);
  }

  lemma PageBounds(page: int, perPage: int)
    requires page >= 1 && perPage >= 1
    ensures 0 <= (page - 1) * perPage < page * perPage
  {
    assert (page - 1) * perPage >= 0;
  }

  /** The page of a positive number and size: at most `perPage` items, and
      empty exactly after the last page. */
  lemma PageSize<T>(items: seq<T>, page: int, perPage: int)
    requires perPage >= 1 && page >= 1
    ensures var r := PaginateList(items, page, perPage).value;
      |r.0| <= perPage && (|r.0| == 0 <==> page > r.1)
  {
    var r := PaginateList(items, page, perPage).value;
    var n, t := |items|, r.1;
    var a := (page - 1) * perPage;
    assert page * perPage == a + perPage;
    PagesCeiling(n, perPage);
    if n > 0 {
      if page > t {
        Monotone(t, page - 1, perPage);
      } else {
        Monotone(page - 1, t - 1, perPage);
      }
    }
  }

  /** Multiplying by a positive number keeps the order. */
  lemma Monotone(a: int, b: int, k: int)
    requires a <= b && k >= 1
    ensures a * k <= b * k
  {
    assert b * k - a * k == (b - a) * k;
  }

  /** Pages 1 to `k` one after the other. */
  function Pages<T>(items: seq<T>, perPage: int, k: nat): (r: seq<T>)
    requires perPage >= 1
  {
    if k == 0 then [] else Pages(items, perPage, k - 1) + PaginateList(items, k, perPage).value.0
  }

  /** The first `k` pages are the first `k * perPage` items. */
  lemma {:induction false} PagesPrefix<T>(items: seq<T>, perPage: int, k: nat)
    requires perPage >= 1
    ensures Pages(items, perPage, k) == items[..Min(k * perPage, |items|)]
  {
    if k > 0 {
      PagesPrefix(items, perPage, k - 1);
      var a, b := Min((k - 1) * perPage, |items|), Min(k * perPage, |items|);
      assert (k - 1) * perPage <= k * perPage;
      assert items[..a] + items[a..b] == items[..b];
    }
  }

  /** Reading every page in turn gives back the whole list. */
  lemma PagesCover<T>(items: seq<T>, perPage: int)
    requires perPage >= 1
    ensures var total := PaginateList(items, 1, perPage).value.1;
      total >= 0 && Pages(items, perPage, total) == items
  {
    var total := PaginateList(items, 1, perPage).value.1;
    PagesCeiling(|items|, perPage);
    PagesPrefix(items, perPage, total);
    assert items[..|items|] == items;
  }

  // ------------------------------------------------------------ escaping

  /** Python's `s.replace(c, rep)` for a one-character `c`. */
  function ReplaceChar(s: string, c: char, rep: string): (r: string)
    ensures c !in s ==> r == s
    ensures c !in rep ==> c !in r
    ensures forall d :: d != c && d !in rep && d !in s ==> d !in r
  {
    if |s| == 0 then ""
    else (if s[0] == c then rep else [s[0]]) + ReplaceChar(s[1..], c, rep)
  }

  /** `escape_html`: `&` first, then `<` and `>`. */
  function EscapeHtml(text: string): (r: string)
    ensures '<' !in r && '>' !in r
    ensures '&' !in text && '<' !in text && '>' !in text ==> r == text
  {
    var a := ReplaceChar(text, '&', "&amp;");
    var b := ReplaceChar(a, '<', "&lt;");
    var c := ReplaceChar(b, '>', "&gt;");
    assert '<' !in b;
    assert '<' !in "&gt;";
    c
  }

  /** The escape of one character. */
  function EscapeChar(c: char): (r: string) {
    if c == '&' then "&amp;"
    else if c == '<' then "&lt;"
    else if c == '>' then "&gt;"
    else [c]
  }

  /** Every character escaped on its own. */
  function Escaped(text: string): (r: string) {
    if |text| == 0 then "" else EscapeChar(text[0]) + Escaped(text[1..])
  }

  /** Replacing distributes over concatenation. */
  lemma {:induction false} ReplaceAppend(a: string, b: string, c: char, rep: string)
    ensures ReplaceChar(a + b, c, rep) == ReplaceChar(a, c, rep) + ReplaceChar(b, c, rep)
  {
    if |a| == 0 {
      assert a + b == b;
    } else {
      assert (a + b)[0] == a[0];
      assert (a + b)[1..] == a[1..] + b;
      ReplaceAppend(a[1..], b, c, rep);
    }
  }

  /** The three replacements of one character give its escape. */
  lemma EscapeOne(c: char)
    ensures EscapeHtml([c]) == EscapeChar(c)
  {
    var a := ReplaceChar([c], '&', "&amp;");
    assert a == if c == '&' then "&amp;" else [c];
  }

  /** The three passes of `escape_html` escape each character on its own:
      `&amp;`, `&lt;` and `&gt;` hold no `<` or `>` for the later passes to
      rewrite. */
  lemma {:induction false} EscapeHtmlIsEscaped(text: string)
    ensures EscapeHtml(text) == Escaped(text)
  {
    if |text| > 0 {
      var h, t := [text[0]], text[1..];
      assert text == h + t;
      var a := ReplaceChar(text, '&', "&amp;");
      ReplaceAppend(h, t, '&', "&amp;");
      var ah, at := ReplaceChar(h, '&', "&amp;"), ReplaceChar(t, '&', "&amp;");
      ReplaceAppend(ah, at, '<', "&lt;");
      var bh, bt := ReplaceChar(ah, '<', "&lt;"), ReplaceChar(at, '<', "&lt;");
      ReplaceAppend(bh, bt, '>', "&gt;");
      EscapeOne(text[0]);
      EscapeHtmlIsEscaped(t);
    }
  }

  /** The reverse of the escaping: the three entities back to their
      characters, everything else as it is. */
  function Unescape(s: string): (r: string) {
    if |s| == 0 then ""
    else if "&amp;" <= s then "&" + Unescape(s[5..])
    else if "&lt;" <= s then "<" + Unescape(s[4..])
    else if "&gt;" <= s then ">" + Unescape(s[4..])
    else [s[0]] + Unescape(s[1..])
  }

  lemma UnescapeStep(c: char, rest: string)
    ensures Unescape(EscapeChar(c) + rest) == [c] + Unescape(rest)
  {
    var s := EscapeChar(c) + rest;
    if c == '&' {
      assert s[5..] == rest;
    } else if c == '<' {
      assert !("&amp;" <= s) by { assert s[1] == 'l'; }
      assert s[4..] == rest;
    } else if c == '>' {
      assert !("&amp;" <= s) && !("&lt;" <= s) by { assert s[1] == 'g'; }
      assert s[4..] == rest;
    } else {
      assert s[0] == c && s[1..] == rest;
    }
  }

  /** Escaped text reads back as the original. */
  lemma {:induction false} UnescapeEscaped(text: string)
    ensures Unescape(Escaped(text)) == text
  {
    if |text| > 0 {
      UnescapeStep(text[0], Escaped(text[1..]));
      UnescapeEscaped(text[1..]);
    }
  }

  /** `escape_html` loses nothing: its output unescapes to its input. */
  lemma EscapeHtmlRoundTrip(text: string)
    ensures Unescape(EscapeHtml(text)) == text
  {
    EscapeHtmlIsEscaped(text);
    UnescapeEscaped(text);
  }
}
