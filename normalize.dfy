/**
  Small normalisers: the exchange-rate dictionary cleaner `_normalize_rates`,
  the wanted-currency filter of `/api/fx`, and the separator clean-up at the
  start of `_parse_date`.
*/
module Normalize {
  import opened Wrappers

  // ---------------------------------------------------------------------
  // Exchange rates

  /** The base currency, always present with rate 1.0. */
  const BASE: string := "USD"

  /** The currencies `/api/fx` keeps besides the base (`_WANTED`). */
  const WANTED: seq<string> := ["EUR", "GBP", "INR", "JPY"]

  /** `str.upper` on one ASCII character. */
  function UpperChar(c: char): (u: char)
    ensures 'a' <= c <= 'z' ==> 'A' <= u <= 'Z' && u as int == c as int - 32
    ensures !('a' <= c <= 'z') ==> u == c
  {
    if 'a' <= c <= 'z' then (c as int - 32) as char else c
  }

  function Upper(s: string): (u: string)
    ensures |u| == |s|
  {
    seq(|s|, i requires 0 <= i < |s| => UpperChar(s[i]))
  }

  /** A key with no lower-case ASCII letter. */
  predicate IsUpper(s: string) {
    forall i :: 0 <= i < |s| ==> !('a' <= s[i] <= 'z')
  }

  /** Upper-casing leaves no lower-case letter and changes nothing a second time. */
  lemma UpperIsUpper(s: string)
    ensures IsUpper(Upper(s))
    ensures Upper(Upper(s)) == Upper(s)
  {
  }

  /**
    One `(k, v)` item of the fetched `rates` dictionary, in iteration order:
    the key as given and `_num(v)`, `None` when `v` is not a number.
  */
  datatype RawRate = RawRate(key: string, num: Option<real>)

  predicate Usable(e: RawRate) {
    e.num.Some? && e.num.value > 0.0
  }

  /** The `out` dictionary after the items: seeded with the base, each usable item written under its upper-cased key. */
  function RatesOf(es: seq<RawRate>): map<string, real> {
    if es == [] then map[BASE := 1.0]
    else
      var m := RatesOf(es[..|es| - 1]);
      var e := es[|es| - 1];
      if Usable(e) then m[Upper(e.key) := e.num.value] else m
  }

  /** The rate of the last usable item whose key upper-cases to `k`, if any. */
  function LastFor(es: seq<RawRate>, k: string): (r: Option<real>)
    ensures r.Some? ==> r.value > 0.0
  {
    if es == [] then None
    else
      var e := es[|es| - 1];
      if Usable(e) && Upper(e.key) == k then Some(e.num.value) else LastFor(es[..|es| - 1], k)
  }

  /**
    The cleaned dictionary holds the base and every currency some usable
    item names, and nothing else; a currency's rate is that of its last
    usable item (a later `usd` item overrides the seeded 1.0); every rate is
    positive and every key upper case.
  */
  lemma {:induction false} RatesFacts(es: seq<RawRate>, k: string)
    ensures BASE in RatesOf(es)
    ensures k in RatesOf(es) <==> k == BASE || LastFor(es, k).Some?
    ensures k in RatesOf(es) ==> RatesOf(es)[k] == (if LastFor(es, k).Some? then LastFor(es, k).value else 1.0)
    ensures k in RatesOf(es) ==> RatesOf(es)[k] > 0.0 && IsUpper(k)
  {
    if es != [] {
      var e := es[|es| - 1];
      RatesFacts(es[..|es| - 1], k);
      if Usable(e) {
        UpperIsUpper(e.key);
      }
    }
  }

  /** A usable item anywhere in the list is answered under its upper-cased key. */
  lemma {:induction false} UsableItemKept(es: seq<RawRate>, i: nat)
    requires i < |es| && Usable(es[i])
    ensures Upper(es[i].key) in RatesOf(es)
  {
    if i < |es| - 1 {
      UsableItemKept(es[..|es| - 1], i);
    }
  }

  /** `_normalize_rates`: a missing dictionary is the empty item list. */
  method NormalizeRates(es: seq<RawRate>) returns (out: map<string, real>)
    ensures out == RatesOf(es)
  {
    out := map[BASE := 1.0];
    for i := 0 to |es|
      invariant out == RatesOf(es[..i])
    {
      assert es[..i + 1][..i] == es[..i];
      var e := es[i];
      if e.num.Some? && e.num.value > 0.0 {
        out := out[Upper(e.key) := e.num.value];
      }
    }
    assert es[..|es|] == es;
  }

  /** `{"USD": 1.0, **{k: rates[k] for k in _WANTED if k in rates}}`. */
  function KeepWanted(rates: map<string, real>): map<string, real> {
    map k | k in {BASE} + (set w | w in WANTED && w in rates) :: if k == BASE then 1.0 else rates[k]
  }

  /**
    The filter keeps exactly the wanted currencies present, with their
    rates, and forces the base to 1.0; it answers more than the base
    (the `len(rates) > 1` acceptance) exactly when a wanted currency is
    present.
  */
  lemma WantedFacts(rates: map<string, real>, k: string)
    ensures BASE in KeepWanted(rates) && KeepWanted(rates)[BASE] == 1.0
    ensures k in KeepWanted(rates) <==> k == BASE || (k in WANTED && k in rates)
    ensures k in KeepWanted(rates) && k != BASE ==> KeepWanted(rates)[k] == rates[k]
    ensures |KeepWanted(rates)| > 1 <==> exists w :: w in WANTED && w in rates
  {
    var r := KeepWanted(rates);
    assert BASE !in WANTED;
    assert |r.Keys - {BASE}| + 1 == |r.Keys|;
    if exists w :: w in WANTED && w in rates {
      var w :| w in WANTED && w in rates;
      assert w in r.Keys - {BASE};
    } else {
      assert r.Keys - {BASE} == {};
    }
  }

  /**
    After `_normalize_rates`, the filtered answer has more than the base
    exactly when some usable item names a wanted currency (in any case).
  */
  lemma FxFallbackAccepts(es: seq<RawRate>)
    ensures |KeepWanted(RatesOf(es))| > 1 <==> exists w :: w in WANTED && LastFor(es, w).Some?
  {
    WantedFacts(RatesOf(es), BASE);
    forall w | w in WANTED
      ensures w in RatesOf(es) <==> LastFor(es, w).Some?
    {
      RatesFacts(es, w);
    }
  }

  // ---------------------------------------------------------------------
  // Date separators

  /** The characters `str.strip()` removes at either end (ASCII whitespace). */
  predicate IsSpace(c: char) {
    c == ' ' || c == '\t' || c == '\n' || c == '\r' || c == '\U{000B}' || c == '\U{000C}'
  }

  /** `str.lstrip()`: the longest whitespace prefix removed. */
  function StripLeft(s: string): (r: string)
    ensures |r| <= |s| && (r != [] ==> !IsSpace(r[0]))
    ensures r == s[|s| - |r|..]
    ensures forall i :: 0 <= i < |s| - |r| ==> IsSpace(s[i])
  {
    if s != [] && IsSpace(s[0]) then StripLeft(s[1..]) else s
  }

  /** `str.rstrip()`: the longest whitespace suffix removed. */
  function StripRight(s: string): (r: string)
    ensures |r| <= |s| && (r != [] ==> !IsSpace(r[|r| - 1]))
    ensures r == s[..|r|]
    ensures forall i :: |r| <= i < |s| ==> IsSpace(s[i])
  {
    if s != [] && IsSpace(s[|s| - 1]) then StripRight(s[..|s| - 1]) else s
  }

  /**
    `str.strip()`: the longest whitespace prefix and suffix removed; what
    remains is the middle of `s`, starting after `k` leading spaces.
  */
  function Strip(s: string): (r: string)
    ensures r != [] ==> !IsSpace(r[0]) && !IsSpace(r[|r| - 1])
    ensures var k := |s| - |StripLeft(s)|;
      && k + |r| <= |s| && r == s[k..k + |r|]
      && (forall i :: 0 <= i < k ==> IsSpace(s[i]))
      && (forall i :: k + |r| <= i < |s| ==> IsSpace(s[i]))
  {
    StripRight(StripLeft(s))
  }

  /** `str.replace(c, "")` for a one-character pattern. */
  function Drop(s: string, c: char): (r: string)
    ensures c !in r && |r| <= |s|
  {
    if s == [] then [] else (if s[0] == c then [] else [s[0]]) + Drop(s[1..], c)
  }

  /** Dropping `c` keeps every other character, as often as it occurs. */
  lemma {:induction false} DropKeepsOthers(s: string, c: char)
    ensures forall d :: d != c ==> multiset(Drop(s, c))[d] == multiset(s)[d]
  {
    if s != [] {
      DropKeepsOthers(s[1..], c);
      assert s == [s[0]] + s[1..];
    }
  }

  /** `str.replace(a, b)` for one-character patterns. */
  function Replace(s: string, a: char, b: char): (r: string)
    ensures |r| == |s|
  {
    seq(|s|, i requires 0 <= i < |s| => if s[i] == a then b else s[i])
  }

  /** `date_str.strip()` followed by the three separator replacements. */
  function NormalizeSeparators(s: string): string {
    Replace(Replace(Drop(Strip(s), ' '), '.', '-'), '/', '-')
  }

  /** The one-pass reading: drop spaces, turn `.` and `/` into `-`. */
  function Canon(s: string): (r: string)
    ensures |r| <= |s|
  {
    if s == [] then []
    else
      var c := s[0];
      (if c == ' ' then [] else if c == '.' || c == '/' then ['-'] else [c]) + Canon(s[1..])
  }

  lemma {:induction false} ChainIsCanon(s: string)
    ensures Replace(Replace(Drop(s, ' '), '.', '-'), '/', '-') == Canon(s)
  {
    if s != [] {
      ChainIsCanon(s[1..]);
      var rest := Drop(s[1..], ' ');
      var head: string := if s[0] == ' ' then [] else [s[0]];
      assert Drop(s, ' ') == head + rest;
      ReplaceConcat(head, rest, '.', '-');
      ReplaceConcat(Replace(head, '.', '-'), Replace(rest, '.', '-'), '/', '-');
    }
  }

  /** Replacing characters in a concatenation replaces them in each part. */
  lemma ReplaceConcat(a: string, b: string, x: char, y: char)
    ensures Replace(a + b, x, y) == Replace(a, x, y) + Replace(b, x, y)
  {
    var l, r := Replace(a + b, x, y), Replace(a, x, y) + Replace(b, x, y);
    assert |l| == |r|;
    forall i | 0 <= i < |l| ensures l[i] == r[i] {
      if i < |a| {
        assert (a + b)[i] == a[i];
      } else {
        assert (a + b)[i] == b[i - |a|];
      }
    }
  }

  /** Characters of `Canon` come from the input's, spaces dropped and separators turned to `-`. */
  lemma {:induction false} CanonChars(s: string)
    ensures ' ' !in Canon(s) && '.' !in Canon(s) && '/' !in Canon(s)
    ensures forall c :: c in Canon(s) && c != '-' ==> c in s
  {
    if s != [] {
      CanonChars(s[1..]);
    }
  }

  /** `Canon` keeps the first and last character when they are neither a space nor a separator. */
  lemma CanonEnds(s: string)
    requires s != [] && !IsSpace(s[0]) && !IsSpace(s[|s| - 1])
    ensures var r := Canon(s);
      r != [] && !IsSpace(r[0]) && !IsSpace(r[|r| - 1])
  {
    CanonLast(s);
  }

  /** A last character that is no space survives `Canon`, mapped. */
  lemma {:induction false} CanonLast(s: string)
    requires s != [] && !IsSpace(s[|s| - 1])
    ensures Canon(s) != [] && !IsSpace(Canon(s)[|Canon(s)| - 1])
  {
    if |s| > 1 {
      CanonLast(s[1..]);
    }
  }

  /** The clean-up leaves no space, dot or slash and only characters of the input or `-`. */
  lemma SeparatorsNormalized(s: string)
    ensures var r := NormalizeSeparators(s);
      && ' ' !in r && '.' !in r && '/' !in r
      && |r| <= |s|
      && forall c :: c in r && c != '-' ==> c in s
  {
    ChainIsCanon(Strip(s));
    CanonChars(Strip(s));
    StripInside(s);
  }

  /** Every character of `Strip(s)` is one of `s`'s, and it is no longer. */
  lemma StripInside(s: string)
    ensures |Strip(s)| <= |s|
    ensures forall c :: c in Strip(s) ==> c in s
  {
    var l := StripLeft(s);
    assert forall c :: c in l ==> c in s;
  }

  /** Cleaning an already cleaned string changes nothing. */
  lemma NormalizeIdempotent(s: string)
    ensures NormalizeSeparators(NormalizeSeparators(s)) == NormalizeSeparators(s)
  {
    var t := Strip(s);
    ChainIsCanon(t);
    var r := Canon(t);
    if t != [] {
      CanonEnds(t);
    }
    assert StripLeft(r) == r;
    assert StripRight(r) == r;
    ChainIsCanon(r);
    CanonChars(t);
    CanonFixed(r);
  }

  /** A string with no space, dot or slash is its own `Canon`. */
  lemma {:induction false} CanonFixed(r: string)
    requires ' ' !in r && '.' !in r && '/' !in r
    ensures Canon(r) == r
  {
    if r != [] {
      CanonFixed(r[1..]);
    }
  }
}
