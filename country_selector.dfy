/**
 * The country and language selector: an initial selection derived from the
 * page's route parameters and a built-in country list, a one-time load of the
 * country list from the content store, a dropdown that opens and closes, and a
 * selection handler that navigates to `/{language}/{country}`.
 */
module CountrySelector {
  import opened Wrappers
  import opened Fetch

  datatype Language = Language(language: string, code: string)

  datatype Flag = Flag(url: string, alt: string)

  datatype Country = Country(
    id: string,
    name: string,
    code: string,
    flag: Option<Flag>,
    languages: seq<Language>)

  const English := Language("English", "en")

  /** The list the selector starts with and keeps when the load fails. */
  const FallbackCountries: seq<Country> := [
    Country("1", "United States", "us", None, [English]),
    Country("2", "United Kingdom", "gb", None, [English]),
    Country("3", "Vietnam", "vn", None, [Language("Tiếng Việt", "vi"), English])
  ]

  // ---------------------------------------------------------------------------
  // find-or-first

  function CountryCode(c: Country): string { c.code }

  function LanguageCode(l: Language): string { l.code }

  /** `xs.find(x => x.code === code)`, with the code read by `codeOf`. */
  function FindByCode<T(==)>(xs: seq<T>, codeOf: T -> string, code: string): (r: Option<T>)
    ensures r.None? <==> forall i :: 0 <= i < |xs| ==> codeOf(xs[i]) != code
    ensures r.Some? ==> exists i :: 0 <= i < |xs| && xs[i] == r.value && codeOf(r.value) == code
                          && forall j :: 0 <= j < i ==> codeOf(xs[j]) != code
  {
    if xs == [] then None
    else if codeOf(xs[0]) == code then Some(xs[0])
    else
      var r := FindByCode(xs[1..], codeOf, code);
      if r.Some? then
        var i :| 0 <= i < |xs[1..]| && xs[1..][i] == r.value && codeOf(r.value) == code
                  && forall j :: 0 <= j < i ==> codeOf(xs[1..][j]) != code;
        assert xs[i + 1] == r.value;
        r
      else r
  }

  /**
   * `(code && countries.find(...)) || countries[0]`: the first country with a
   * truthy requested code, else the first country.
   */
  function PickCountry(countries: seq<Country>, code: Option<string>): (c: Country)
    requires |countries| > 0
    ensures c in countries
    ensures Truthy(code) && (exists i :: 0 <= i < |countries| && countries[i].code == code.value) ==>
      exists i :: 0 <= i < |countries| && countries[i] == c && c.code == code.value
                  && forall j :: 0 <= j < i ==> countries[j].code != code.value
    ensures !Truthy(code) || (forall i :: 0 <= i < |countries| ==> countries[i].code != code.value) ==> c == countries[0]
  {
    if Truthy(code) && FindByCode(countries, CountryCode, code.value).Some? then
      FindByCode(countries, CountryCode, code.value).value
    else countries[0]
  }

  /**
   * `(code && languages.find(...)) || languages[0] || { English, en }`: the first
   * language with the code, else the first, else English when the list is empty.
   */
  function PickLanguage(languages: seq<Language>, code: Option<string>): (l: Language)
    ensures |languages| > 0 ==> l in languages
    ensures languages == [] ==> l == English
    ensures Truthy(code) && (exists i :: 0 <= i < |languages| && languages[i].code == code.value) ==>
      exists i :: 0 <= i < |languages| && languages[i] == l && l.code == code.value
                  && forall j :: 0 <= j < i ==> languages[j].code != code.value
    ensures (|languages| > 0 && (!Truthy(code) || forall i :: 0 <= i < |languages| ==> languages[i].code != code.value))
      ==> l == languages[0]
  {
    if Truthy(code) && FindByCode(languages, LanguageCode, code.value).Some? then
      FindByCode(languages, LanguageCode, code.value).value
    else if |languages| > 0 then languages[0]
    else English
  }

  /** The country selected at mount: the built-in country with the route's code, else the first. */
  function InitialCountry(countryCode: Option<string>): (c: Country)
    ensures c in FallbackCountries
    ensures Truthy(countryCode) && countryCode.value in {"us", "gb", "vn"} ==> c.code == countryCode.value
    ensures !Truthy(countryCode) || countryCode.value !in {"us", "gb", "vn"} ==> c == FallbackCountries[0]
  {
    assert FallbackCountries[0].code == "us" && FallbackCountries[1].code == "gb" && FallbackCountries[2].code == "vn";
    PickCountry(FallbackCountries, countryCode)
  }

  /**
   * The language selected at mount: that country's language with the route's
   * locale, else its first. Every built-in country lists a language, so the
   * `|| languages[0]` of the source always yields one.
   */
  function InitialLanguage(countryCode: Option<string>, locale: Option<string>): (l: Language)
    ensures l in InitialCountry(countryCode).languages
    ensures (Truthy(locale) && exists i :: 0 <= i < |InitialCountry(countryCode).languages|
                                           && InitialCountry(countryCode).languages[i].code == locale.value)
      ==> l.code == locale.value
    ensures (!Truthy(locale) || forall i :: 0 <= i < |InitialCountry(countryCode).languages| ==>
                                 InitialCountry(countryCode).languages[i].code != locale.value)
      ==> l == InitialCountry(countryCode).languages[0]
  {
    PickLanguage(InitialCountry(countryCode).languages, locale)
  }

  /** The Vietnamese route with no locale, or a locale Vietnam does not list, starts in Vietnamese; an unknown country starts in the US in English. */
  lemma InitialSelectionExamples()
    ensures InitialCountry(Some("vn")).name == "Vietnam"
    ensures InitialLanguage(Some("vn"), None).code == "vi"
    ensures InitialLanguage(Some("vn"), Some("en")) == English
    ensures InitialLanguage(Some("vn"), Some("fr")).code == "vi"
    ensures InitialCountry(Some("xx")) == FallbackCountries[0]
    ensures InitialCountry(Some("")) == FallbackCountries[0]
    ensures InitialLanguage(Some("xx"), Some("vi")) == English
  {
    assert FallbackCountries[2].languages[1] == English;
  }

  // ---------------------------------------------------------------------------
  // Mapping content-store documents

  datatype LanguageDoc = LanguageDoc(code: string, name: string)

  /** A country document; `languages == None` stands for a value that is not an array. */
  datatype CountryDoc = CountryDoc(
    id: string,
    name: string,
    code: string,
    flag: Option<string>,
    languages: Option<seq<LanguageDoc>>)

  function ToLanguage(d: LanguageDoc): Language {
    Language(d.name, d.code)
  }

  /** The per-document mapping: a flag only for a truthy flag URL, English when languages is not an array. */
  function ToCountry(d: CountryDoc): (c: Country)
    ensures c.id == d.id && c.name == d.name && c.code == d.code
    ensures c.flag.Some? <==> Truthy(d.flag)
    ensures c.flag.Some? ==> c.flag.value == Flag(d.flag.value, d.name)
    ensures d.languages.None? ==> c.languages == [English]
    ensures d.languages.Some? ==> |c.languages| == |d.languages.value|
    ensures d.languages.Some? ==> forall i :: 0 <= i < |c.languages| ==>
      c.languages[i].code == d.languages.value[i].code && c.languages[i].language == d.languages.value[i].name
  {
    Country(
      d.id,
      d.name,
      d.code,
      if Truthy(d.flag) then Some(Flag(d.flag.value, d.name)) else None,
      match d.languages
      case Some(ls) => seq(|ls|, i requires 0 <= i < |ls| => ToLanguage(ls[i]))
      case None => [English])
  }

  /** `docs.map(...)`: one country per document, in document order. */
  function MapCountries(docs: seq<CountryDoc>): (cs: seq<Country>)
    ensures |cs| == |docs|
    ensures forall i :: 0 <= i < |docs| ==> cs[i] == ToCountry(docs[i])
  {
    seq(|docs|, i requires 0 <= i < |docs| => ToCountry(docs[i]))
  }

  const LoadError := "Failed to load countries"

  /** The path `handleSelection` navigates to. */
  function SelectionPath(country: Country, language: Language): (path: string)
    ensures |path| == 2 + |language.code| + |country.code|
    ensures path[0] == '/' && path[1 + |language.code|] == '/'
    ensures path[1..1 + |language.code|] == language.code
    ensures path[2 + |language.code|..] == country.code
  {
    "/" + language.code + "/" + country.code
  }

  // ---------------------------------------------------------------------------
  // The component state

  class Selector {
    const localeParam: Option<string>
    const countryParam: Option<string>
    var countries: seq<Country>
    var loading: bool
    var error: Option<string>
    var isOpen: bool
    var selectedCountry: Country
    var selectedLanguage: Language

    constructor (locale: Option<string>, country: Option<string>)
      ensures localeParam == locale && countryParam == country
      ensures countries == FallbackCountries && loading && error == None && !isOpen
      ensures selectedCountry == InitialCountry(country)
      ensures selectedLanguage == InitialLanguage(country, locale)
    {
      localeParam := locale;
      countryParam := country;
      countries := FallbackCountries;
      loading := true;
      error := None;
      isOpen := false;
      selectedCountry := InitialCountry(country);
      selectedLanguage := InitialLanguage(country, locale);
    }

    /** `fetchCountries` with its outcome given. */
    method FetchCountries(outcome: Outcome<CountryDoc>)
      modifies this
      ensures !loading && isOpen == old(isOpen)
      ensures outcome.Docs? && |outcome.docs| > 0 ==>
        && countries == MapCountries(outcome.docs)
        && selectedCountry == PickCountry(countries, countryParam)
        && selectedLanguage == PickLanguage(selectedCountry.languages, localeParam)
        && error == old(error)
      ensures !(outcome.Docs? && |outcome.docs| > 0) ==>
        && countries == old(countries)
        && selectedCountry == old(selectedCountry)
        && selectedLanguage == old(selectedLanguage)
        && error == Some(LoadError)
    {
      loading := true;
      if outcome.Docs? && |outcome.docs| > 0 {
        var mapped := MapCountries(outcome.docs);
        countries := mapped;
        var defaultCountry := PickCountry(mapped, countryParam);
        var defaultLanguage := PickLanguage(defaultCountry.languages, localeParam);
        selectedCountry := defaultCountry;
        selectedLanguage := defaultLanguage;
      } else {
        error := Some(LoadError);
      }
      loading := false;
    }

    method HandleSelection(country: Country, language: Language) returns (path: string)
      modifies this
      ensures selectedCountry == country && selectedLanguage == language && !isOpen
      ensures countries == old(countries) && loading == old(loading) && error == old(error)
      ensures path == SelectionPath(country, language)
    {
      selectedCountry := country;
      selectedLanguage := language;
      isOpen := false;
      path := "/" + language.code + "/" + country.code;
    }

    /** The selector button. */
    method ToggleOpen()
      modifies this
      ensures isOpen == !old(isOpen)
      ensures countries == old(countries) && selectedCountry == old(selectedCountry)
      ensures selectedLanguage == old(selectedLanguage) && error == old(error) && loading == old(loading)
    {
      isOpen := !isOpen;
    }

    /** The click-away overlay. */
    method CloseOverlay()
      modifies this
      ensures !isOpen
      ensures countries == old(countries) && selectedCountry == old(selectedCountry)
      ensures selectedLanguage == old(selectedLanguage) && error == old(error) && loading == old(loading)
    {
      isOpen := false;
    }
  }
}
