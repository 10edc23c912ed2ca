/**
 * The hero banner's headline: the localized name of the route's country (none
 * for the `global` pseudo-country) and a per-locale title template ending in the
 * current year. The translation table and the year are parameters.
 */
module Hero {
  import opened Wrappers
  import opened Text

  /** Route slug to the key of the translated country name. */
  const CountryKeys: map<string, string> := map[
    "vietnam" := "vietnam",
    "united-kingdom" := "unitedKingdom",
    "united-states" := "unitedStates",
    "germany" := "germany",
    "france" := "france",
    "spain" := "spain",
    "italy" := "italy",
    "portugal" := "portugal",
    "russia" := "russia",
    "japan" := "japan",
    "korea" := "korea",
    "china" := "china"
  ]

  /** The route slug names the `global` pseudo-country, in any ASCII case. */
  predicate IsGlobal(country: string) {
    Lower(country) == "global"
  }

  /** The slug has a translation key and the translations hold a non-empty name for it. */
  predicate Translated(country: string, names: map<string, string>) {
    && Lower(country) in CountryKeys
    && CountryKeys[Lower(country)] in names
    && names[CountryKeys[Lower(country)]] != ""
  }

  /**
   * `getCountryName`: nothing for `global`, the translated name when there is
   * one, otherwise the slug with its first character upper-cased.
   */
  function CountryName(country: string, names: map<string, string>): (r: Option<string>)
    ensures r.None? <==> IsGlobal(country)
    ensures !IsGlobal(country) && Translated(country, names) ==> r == Some(names[CountryKeys[Lower(country)]])
    ensures !IsGlobal(country) && !Translated(country, names) ==> r == Some(Capitalize(country))
  {
    if IsGlobal(country) then None
    else if Translated(country, names) then Some(names[CountryKeys[Lower(country)]])
    else Some(Capitalize(country))
  }

  // ---------------------------------------------------------------------------
  // Title templates

  /** The text around the country name in a country title. */
  datatype Template = Template(before: string, after: string)

  const EnglishGlobalHeadline := "Compare Global Online Trading Brokers"

  const EnglishCountryTemplate := Template("Compare Online Trading Brokers in ", "")

  /** The locales with a template of their own; the match is exact and case-sensitive. */
  const ListedLocales: set<string> := {"en", "vi", "th", "ar", "ja", "ko", "zh", "hi", "ms", "ur", "ta", "es", "pt", "id"}

  function GlobalHeadline(locale: string): string {
    if locale == "en" then EnglishGlobalHeadline
    else if locale == "vi" then "So Sánh Các Nhà Môi Giới Giao Dịch Trực Tuyến Toàn Cầu"
    else if locale == "th" then "เปรียบเทียบนายหน้าซื้อขายออนไลน์ทั่วโลก"
    else if locale == "ar" then "قارن وسطاء التداول عبر الإنترنت العالميين"
    else if locale == "ja" then "グローバルオンライン取引ブローカーを比較"
    else if locale == "ko" then "글로벌 온라인 거래 브로커 비교"
    else if locale == "zh" then "比较全球在线交易经纪商"
    else if locale == "hi" then "वैश्विक ऑनलाइन ट्रेडिंग ब्रोकर्स की तुलना करें"
    else if locale == "ms" then "Bandingkan Broker Perdagangan Dalam Talian Global"
    else if locale == "ur" then "عالمی آن لائن ٹریڈنگ بروکرز کا موازنہ کریں"
    else if locale == "ta" then "உலகளாவிய ஆன்லைன் வர்த்தக புரோக்கர்களை ஒப்பிடுங்கள்"
    else if locale == "es" then "Compara Corredores de Trading Online Globales"
    else if locale == "pt" then "Compare Corretores de Negociação Online Globais"
    else if locale == "id" then "Bandingkan Broker Trading Online Global"
    else EnglishGlobalHeadline
  }

  function CountryTemplate(locale: string): Template {
    if locale == "en" then EnglishCountryTemplate
    else if locale == "vi" then Template("So Sánh Các Nhà Môi Giới Giao Dịch Trực Tuyến tại ", "")
    else if locale == "th" then Template("เปรียบเทียบนายหน้าซื้อขายออนไลน์ใน", "")
    else if locale == "ar" then Template("قارن وسطاء التداول عبر الإنترنت في ", "")
    else if locale == "ja" then Template("", "のオンライン取引ブローカーを比較")
    else if locale == "ko" then Template("", "의 온라인 거래 브로커 비교")
    else if locale == "zh" then Template("比较", "的在线交易经纪商")
    else if locale == "hi" then Template("", " में ऑनलाइन ट्रेडिंग ब्रोकर्स की तुलना करें")
    else if locale == "ms" then Template("Bandingkan Broker Perdagangan Dalam Talian di ", "")
    else if locale == "ur" then Template("", " میں آن لائن ٹریڈنگ بروکرز کا موازنہ کریں")
    else if locale == "ta" then Template("", " இல் ஆன்லைன் வர்த்தக புரோக்கர்களை ஒப்பிடுங்கள்")
    else if locale == "es" then Template("Compara Corredores de Trading Online en ", "")
    else if locale == "pt" then Template("Compare Corretores de Negociação Online em ", "")
    else if locale == "id" then Template("Bandingkan Broker Trading Online di ", "")
    else EnglishCountryTemplate
  }

  lemma EndsWithAppended(head: string, suffix: string)
    ensures EndsWith(head + suffix, suffix)
  {
    assert (head + suffix)[|head|..] == suffix;
  }

  /** A template filled with a name and followed by a suffix. */
  function Fill(t: Template, name: string, suffix: string): (r: string)
    ensures r == t.before + name + t.after + suffix
    ensures EndsWith(r, suffix)
    ensures OccursAt(r, name, |t.before|)
  {
    var r := t.before + name + t.after + suffix;
    assert r == (t.before + name + t.after) + suffix;
    EndsWithAppended(t.before + name + t.after, suffix);
    assert r[|t.before|..|t.before| + |name|] == name;
    r
  }

  /**
   * `getTitle`: the headline for the locale and country, then ` - ` and the
   * year. A country title is the locale's template around the resolved name.
   */
  function Title(locale: string, country: string, names: map<string, string>, year: nat): (r: string)
    ensures EndsWith(r, " - " + Decimal(year))
    ensures IsGlobal(country) ==> r == GlobalHeadline(locale) + " - " + Decimal(year)
    ensures !IsGlobal(country) ==>
      r == CountryTemplate(locale).before + CountryName(country, names).value + CountryTemplate(locale).after
           + " - " + Decimal(year)
    ensures !IsGlobal(country) ==>
      OccursAt(r, CountryName(country, names).value, |CountryTemplate(locale).before|)
  {
    var suffix := " - " + Decimal(year);
    if IsGlobal(country) then
      EndsWithAppended(GlobalHeadline(locale), suffix);
      GlobalHeadline(locale) + suffix
    else
      Fill(CountryTemplate(locale), CountryName(country, names).value, suffix)
  }

  /** A global title is the locale's fixed global headline: it carries no country name. */
  lemma GlobalTitle(locale: string, country: string, names: map<string, string>, year: nat)
    requires IsGlobal(country)
    ensures Title(locale, country, names, year) == GlobalHeadline(locale) + " - " + Decimal(year)
    ensures Title(locale, country, names, year) == Title(locale, "global", map[], year)
  {
    assert IsGlobal("global") by {
      assert Lower("global") == "global";
    }
  }

  /** A country title contains the resolved country name. */
  lemma TitleNamesCountry(locale: string, country: string, names: map<string, string>, year: nat)
    requires !IsGlobal(country)
    ensures CountryName(country, names).Some?
    ensures Contains(Title(locale, country, names, year), CountryName(country, names).value)
  {
    assert OccursAt(Title(locale, country, names, year), CountryName(country, names).value, |CountryTemplate(locale).before|);
  }

  /** A locale without its own case gets the English templates. */
  lemma UnlistedLocaleTemplates(locale: string)
    requires locale !in ListedLocales
    ensures GlobalHeadline(locale) == EnglishGlobalHeadline
    ensures CountryTemplate(locale) == EnglishCountryTemplate
  {
  }

  /** A locale without its own case gets the English title. */
  lemma UnlistedLocaleIsEnglish(locale: string, country: string, names: map<string, string>, year: nat)
    requires locale !in ListedLocales
    ensures Title(locale, country, names, year) == Title("en", country, names, year)
  {
    UnlistedLocaleTemplates(locale);
    assert GlobalHeadline("en") == EnglishGlobalHeadline;
    assert CountryTemplate("en") == EnglishCountryTemplate;
  }

  /** The locale match is case-sensitive: `VI` falls back to English. */
  lemma LocaleMatchIsExact(country: string, names: map<string, string>, year: nat)
    ensures Title("VI", country, names, year) == Title("en", country, names, year)
  {
    assert "VI" !in ListedLocales;
    UnlistedLocaleIsEnglish("VI", country, names, year);
  }

  /** The `global` check ignores ASCII case. */
  lemma GlobalIgnoresCase(names: map<string, string>)
    ensures CountryName("GLOBAL", names).None?
    ensures CountryName("Global", names).None?
  {
    assert Lower("GLOBAL") == "global";
    assert Lower("Global") == "global";
  }

  /** The translation lookup ignores ASCII case too: `France` and `france` resolve alike when translated. */
  lemma TranslationIgnoresCase(country: string, names: map<string, string>)
    requires Translated(country, names)
    ensures Translated(Lower(country), names)
    ensures CountryName(country, names) == CountryName(Lower(country), names)
  {
    assert Lower(Lower(country)) == Lower(country);
    assert !IsGlobal(country) by {
      assert "global" !in CountryKeys;
    }
  }
}
