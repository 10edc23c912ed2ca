/**
 * The sitemap: a root entry followed by one entry per (locale, country) pair,
 * locale-major. Country codes come from the content store, lower-cased, with a
 * built-in list when the lookup returns no documents or throws. The site URL,
 * the locale list and the timestamp are parameters.
 */
module Sitemap {
  import opened Wrappers
  import opened Fetch
  import opened Text

  const DefaultBaseUrl := "https://www.choosestockbroker.com"

  /** `s.replace(/\/$/, '')`: one trailing slash removed, if there is one. */
  function StripTrailingSlash(s: string): (r: string)
    ensures s == r || s == r + "/"
    ensures |s| > 0 && s[|s| - 1] == '/' ==> r + "/" == s
  {
    if |s| > 0 && s[|s| - 1] == '/' then s[..|s| - 1] else s
  }

  /** `BASE_URL`: the site URL without its trailing slash, or the default when that is unset or empty. */
  function BaseUrl(siteUrl: Option<string>): (r: string)
    ensures r != ""
    ensures siteUrl.None? ==> r == DefaultBaseUrl
    ensures siteUrl.Some? && StripTrailingSlash(siteUrl.value) == "" ==> r == DefaultBaseUrl
    ensures siteUrl.Some? && StripTrailingSlash(siteUrl.value) != "" ==> r == StripTrailingSlash(siteUrl.value)
  {
    assert DefaultBaseUrl != "" by {
      assert |DefaultBaseUrl| > 0;
    }
    if siteUrl.Some? && StripTrailingSlash(siteUrl.value) != "" then StripTrailingSlash(siteUrl.value)
    else DefaultBaseUrl
  }

  /** A site URL ending in exactly one slash loses it; one without a trailing slash is kept. */
  lemma BaseUrlNoTrailingSlash(siteUrl: string)
    requires StripTrailingSlash(siteUrl) != ""
    requires |siteUrl| < 2 || siteUrl[|siteUrl| - 2..] != "//"
    ensures BaseUrl(Some(siteUrl))[|BaseUrl(Some(siteUrl))| - 1] != '/'
  {
    var r := BaseUrl(Some(siteUrl));
    if |siteUrl| > 0 && siteUrl[|siteUrl| - 1] == '/' {
      assert r == siteUrl[..|siteUrl| - 1];
      assert siteUrl[|siteUrl| - 2..] == [r[|r| - 1], '/'];
    }
  }

  // ---------------------------------------------------------------------------
  // Country codes

  /** The `code` field of a country document: missing, of another type, or a string. */
  datatype CodeField = Missing | NotString | Str(value: string)

  datatype CountryDoc = CountryDoc(id: Option<string>, code: CodeField)

  const FallbackCodes: seq<string> := ["us", "gb", "vn", "de", "fr"]

  /** The lower-cased string codes of `docs` in order, empty and non-string codes dropped. */
  function CodesOf(docs: seq<CountryDoc>): (codes: seq<string>)
    ensures |codes| <= |docs|
    ensures forall i :: 0 <= i < |codes| ==> codes[i] != "" && NoUpper(codes[i])
  {
    if docs == [] then []
    else
      var rest := CodesOf(docs[1..]);
      match docs[0].code
      case Str(c) =>
        if Lower(c) != "" then [Lower(c)] + rest else rest
      case _ => rest
  }

  /** Codes keep document order: the codes of two runs of documents are the two code lists joined. */
  lemma {:induction false} CodesOfAppend(a: seq<CountryDoc>, b: seq<CountryDoc>)
    ensures CodesOf(a + b) == CodesOf(a) + CodesOf(b)
    decreases |a|
  {
    if a == [] {
      assert a + b == b;
    } else {
      CodesOfAppend(a[1..], b);
      assert (a + b)[1..] == a[1..] + b;
    }
  }

  /** A document whose code is a non-empty string contributes exactly its lower-cased code. */
  lemma CodesOfOne(d: CountryDoc)
    ensures d.code.Str? && d.code.value != "" ==> CodesOf([d]) == [Lower(d.code.value)]
    ensures !(d.code.Str? && d.code.value != "") ==> CodesOf([d]) == []
  {
    assert [d][1..] == [];
  }

  /** `getCountryCodes` with the lookup's outcome given. */
  function CountryCodes(outcome: Outcome<CountryDoc>): (codes: seq<string>)
    ensures outcome.Docs? && |outcome.docs| > 0 ==> codes == CodesOf(outcome.docs)
    ensures !(outcome.Docs? && |outcome.docs| > 0) ==> codes == FallbackCodes
  {
    if outcome.Docs? && |outcome.docs| > 0 then CodesOf(outcome.docs) else FallbackCodes
  }

  /** Documents that all lack a usable code give no countries at all, not the built-in list. */
  lemma {:induction false} NoUsableCodes(docs: seq<CountryDoc>)
    requires forall i :: 0 <= i < |docs| ==> !(docs[i].code.Str? && docs[i].code.value != "")
    ensures CodesOf(docs) == []
    ensures |docs| > 0 ==> CountryCodes(Docs(docs)) == []
    decreases |docs|
  {
    if docs != [] {
      NoUsableCodes(docs[1..]);
      if docs[0].code.Str? {
        assert docs[0].code.value == "";
      }
    }
  }

  // ---------------------------------------------------------------------------
  // Entries

  datatype Entry = Entry(url: string, lastModified: int, changeFrequency: string, priority: real)

  function RootEntry(base: string, now: int): Entry {
    Entry(base + "/", now, "daily", 0.9)
  }

  function PageEntry(base: string, locale: string, country: string, now: int): Entry {
    Entry(base + "/" + locale + "/" + country, now, "daily", 0.8)
  }

  /** The entries of one locale, one per country in order. */
  function Row(base: string, locale: string, codes: seq<string>, now: int): (row: seq<Entry>)
    ensures |row| == |codes|
    ensures forall j :: 0 <= j < |codes| ==> row[j] == PageEntry(base, locale, codes[j], now)
  {
    seq(|codes|, j requires 0 <= j < |codes| => PageEntry(base, locale, codes[j], now))
  }

  /** The rows of all locales, locale-major. */
  function Grid(base: string, locales: seq<string>, codes: seq<string>, now: int): seq<Entry>
  {
    if locales == [] then []
    else Grid(base, locales[..|locales| - 1], codes, now) + Row(base, locales[|locales| - 1], codes, now)
  }

  lemma MulBound(i: nat, j: nat, n: nat, m: nat)
    requires i < n && j < m
    ensures i * m + j < n * m
  {
    assert i * m + j < (i + 1) * m;
    assert (i + 1) * m <= n * m;
  }

  lemma {:induction false} GridLength(base: string, locales: seq<string>, codes: seq<string>, now: int)
    ensures |Grid(base, locales, codes, now)| == |locales| * |codes|
    decreases |locales|
  {
    if locales != [] {
      var n := |locales|;
      GridLength(base, locales[..n - 1], codes, now);
      assert (n - 1) * |codes| + |codes| == n * |codes|;
    }
  }

  /** The position of locale `i`, country `j` among the page entries, with `m` countries per locale. */
  function Slot(i: nat, j: nat, m: nat): nat {
    i * m + j
  }

  /** Page entry `Slot(i, j, |codes|)` is locale `i` with country `j`. */
  lemma {:induction false} GridAt(base: string, locales: seq<string>, codes: seq<string>, now: int, i: nat, j: nat)
    requires i < |locales| && j < |codes|
    ensures Slot(i, j, |codes|) < |Grid(base, locales, codes, now)|
    ensures Grid(base, locales, codes, now)[Slot(i, j, |codes|)] == PageEntry(base, locales[i], codes[j], now)
    decreases |locales|
  {
    var n := |locales|;
    var m := |codes|;
    var front := locales[..n - 1];
    GridLength(base, locales, codes, now);
    GridLength(base, front, codes, now);
    MulBound(i, j, n, m);
    if i < n - 1 {
      GridAt(base, front, codes, now, i, j);
      MulBound(i, j, n - 1, m);
    } else {
      assert Slot(i, j, m) - (n - 1) * m == j;
    }
  }

  /** The grid holds |locales| * |codes| entries, locale-major: entry `Slot(i, j, |codes|)` is locale `i`, country `j`. */
  lemma GridShape(base: string, locales: seq<string>, codes: seq<string>, now: int)
    ensures |Grid(base, locales, codes, now)| == |locales| * |codes|
    ensures forall i, j :: 0 <= i < |locales| && 0 <= j < |codes| ==>
      Slot(i, j, |codes|) < |Grid(base, locales, codes, now)| &&
      Grid(base, locales, codes, now)[Slot(i, j, |codes|)] == PageEntry(base, locales[i], codes[j], now)
  {
    GridLength(base, locales, codes, now);
    forall i, j | 0 <= i < |locales| && 0 <= j < |codes|
      ensures Slot(i, j, |codes|) < |Grid(base, locales, codes, now)|
      ensures Grid(base, locales, codes, now)[Slot(i, j, |codes|)] == PageEntry(base, locales[i], codes[j], now)
    {
      GridAt(base, locales, codes, now, i, j);
    }
  }

  /** The entries `sitemap()` returns for a base URL, locale list and code list. */
  function Entries(base: string, locales: seq<string>, codes: seq<string>, now: int): seq<Entry> {
    [RootEntry(base, now)] + Grid(base, locales, codes, now)
  }

  /**
   * The whole sitemap: exactly 1 + |locales| * |codes| entries, the root entry
   * first with priority 0.9, then locale `i` with country `j` at position
   * `1 + Slot(i, j, |codes|)` with priority 0.8.
   */
  lemma SitemapLayout(base: string, locales: seq<string>, codes: seq<string>, now: int)
    ensures |Entries(base, locales, codes, now)| == 1 + |locales| * |codes|
    ensures Entries(base, locales, codes, now)[0] == Entry(base + "/", now, "daily", 0.9)
    ensures forall i, j :: 0 <= i < |locales| && 0 <= j < |codes| ==>
      1 + Slot(i, j, |codes|) < |Entries(base, locales, codes, now)| &&
      Entries(base, locales, codes, now)[1 + Slot(i, j, |codes|)]
        == Entry(base + "/" + locales[i] + "/" + codes[j], now, "daily", 0.8)
  {
    var g := Grid(base, locales, codes, now);
    var e := Entries(base, locales, codes, now);
    GridLength(base, locales, codes, now);
    forall i, j | 0 <= i < |locales| && 0 <= j < |codes|
      ensures 1 + Slot(i, j, |codes|) < |e|
      ensures e[1 + Slot(i, j, |codes|)] == Entry(base + "/" + locales[i] + "/" + codes[j], now, "daily", 0.8)
    {
      GridAt(base, locales, codes, now, i, j);
      assert e[1 + Slot(i, j, |codes|)] == g[Slot(i, j, |codes|)];
    }
  }

  /**
   * `sitemap()`: the base URL and the country codes, then the entries.
   */
  method BuildSitemap(siteUrl: Option<string>, locales: seq<string>, countries: Outcome<CountryDoc>, now: int)
    returns (entries: seq<Entry>)
    ensures entries == Entries(BaseUrl(siteUrl), locales, CountryCodes(countries), now)
  {
    entries := CollectEntries(BaseUrl(siteUrl), locales, CountryCodes(countries), now);
  }

  /**
   * The loop of `sitemap()`: push the root entry, then for each locale and
   * each country code one page entry.
   */
  method CollectEntries(base: string, locales: seq<string>, codes: seq<string>, now: int)
    returns (entries: seq<Entry>)
    ensures entries == Entries(base, locales, codes, now)
  {
    entries := [RootEntry(base, now)];
    var i := 0;
    while i < |locales|
      invariant 0 <= i <= |locales|
      invariant entries == [RootEntry(base, now)] + Grid(base, locales[..i], codes, now)
    {
      var locale := locales[i];
      ghost var done := entries;
      var j := 0;
      while j < |codes|
        invariant 0 <= j <= |codes|
        invariant entries == done + Row(base, locale, codes[..j], now)
      {
        RowSnoc(base, locale, codes, now, j);
        entries := entries + [PageEntry(base, locale, codes[j], now)];
        j := j + 1;
      }
      GridSnoc(base, locales, codes, now, i);
      assert entries == [RootEntry(base, now)] + (Grid(base, locales[..i], codes, now) + Row(base, locale, codes[..|codes|], now));
      i := i + 1;
    }
    assert locales[..i] == locales;
  }

  lemma RowSnoc(base: string, locale: string, codes: seq<string>, now: int, j: nat)
    requires j < |codes|
    ensures Row(base, locale, codes[..j + 1], now) == Row(base, locale, codes[..j], now) + [PageEntry(base, locale, codes[j], now)]
  {
  }

  lemma GridSnoc(base: string, locales: seq<string>, codes: seq<string>, now: int, i: nat)
    requires i < |locales|
    ensures Grid(base, locales[..i + 1], codes, now) == Grid(base, locales[..i], codes, now) + Row(base, locales[i], codes[..|codes|], now)
  {
    assert locales[..i + 1][..i] == locales[..i];
    assert codes[..|codes|] == codes;
  }
}
