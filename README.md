# choosestockbroker components, modelled in Dafny

This project models the behaviour inside six pieces of the choosestockbroker web site, a Next.js site that compares online trading brokers:

- **The broker table.** It holds a sort state machine (field `deposit`, `assets` or none, and a direction). `sortedBrokers` is a copy of the broker list, sorted by one integer key.
- **The FAQ section.** It loads its questions once, with a two-entry built-in pair for a failed load. Any set of items can be open at a time.
- **The country and language selector.** It derives an initial selection from the route by a find-or-first chain, maps the country documents of the content store, and builds the `/{language}/{country}` path it navigates to.
- **The hero headline.** It resolves the route's country slug to a display name and fills a per-locale title template.
- **The sitemap.** It normalises the base URL and the country codes, then lists a root entry followed by one entry per locale and country.
- **The exit-intent popup.** It is shown at most once per mount.

Each React component with state becomes a Dafny `class`:

- Its state fields are `var` fields.
- Each event handler or fetch completion is a `method`. The method's `ensures` gives the new state in terms of the old one.

Pure rules are functions, and the properties are proved as their contracts or as lemmas.

Things outside this code enter as parameters:

- **Fetch results.** The content store's documents arrive through `Fetch.Outcome`: documents, no usable documents, or a thrown error.
- **Hero inputs.** The translation table and the current year are parameters.
- **Sitemap inputs.** `SITE_URL`, the locale list and the clock value are parameters.
- **Navigation.** The path passed to the router is returned rather than pushed.

Files:

- `common.dfy`: `Option`, JavaScript truthiness of optional strings, the fetch outcome, ASCII case mapping, decimal rendering and substring predicates.
- `broker_table.dfy`, `faq.dfy`, `country_selector.dfy`, `hero.dfy`, `sitemap.dfy`, `exit_intent_popup.dfy`: one module per source file.

**The sort.** `Array.prototype.sort` is modelled by a stable insertion sort. ECMAScript requires `sort` to be stable, in section 23.1.3.30 of ECMA-262. `StableSortUnique` proves that only one list is both ordered by the comparator and a stable permutation of the input, so the choice of algorithm does not matter.

**The FAQ fallback pair is stored but never shown.** When the load throws, the `catch` branch stores the built-in pair but also sets `error` (src/Components/FAQ.tsx:38-55). The render shows the error message whenever `error` is set (src/Components/FAQ.tsx:82-85), so the pair is never displayed. `Faq.FaqSection.FetchFaqs` and `Faq.FaqSection.View` state this behaviour.

## Model

| member | source | states |
|---|---|---|
| BrokerTable.Select | src/Components/BrokerTable.tsx:40-47 | selecting the active field keeps the field and reverses the direction; selecting any other field, including from the unsorted state, makes it active ascending |
| BrokerTable.SelectActiveTwice | src/Components/BrokerTable.tsx:40-42 | clicking the active column twice returns to the same state |
| BrokerTable.SelectNewTwice | src/Components/BrokerTable.tsx:40-46 | clicking a new column twice leaves it active descending |
| BrokerTable.Table.HandleSort | src/Components/BrokerTable.tsx:40-47 | the component's sort state becomes the `Select` transition of the old state; the broker list is untouched |
| BrokerTable.Table.ResetSort | src/Components/BrokerTable.tsx:49-52 | from any state, the sort state becomes unsorted and ascending |
| BrokerTable.Table.constructor | src/Components/BrokerTable.tsx:34-36 | the table keeps the brokers it is given and starts unsorted, ascending |
| BrokerTable.StableSort | src/Components/BrokerTable.tsx:57-61 | the sorted copy has as many brokers as the input |
| BrokerTable.StableSortPermutation | src/Components/BrokerTable.tsx:55-61 | the sorted copy holds exactly the brokers of the input, with multiplicity |
| BrokerTable.StableSortOrdered | src/Components/BrokerTable.tsx:57-60 | the sorted copy is in comparator order: non-decreasing key ascending, non-increasing descending |
| BrokerTable.StableSortStable | src/Components/BrokerTable.tsx:57-61 | for every key, the brokers with that key keep their input order |
| BrokerTable.OrderedStableUnique | src/Components/BrokerTable.tsx:57-61 | two lists that are comparator-ordered permutations of each other with the same per-key order are equal |
| BrokerTable.StableSortUnique | src/Components/BrokerTable.tsx:57-61 | any ordered, stable permutation of the input equals the modelled sort, so any stable sort gives the same view |
| BrokerTable.SortedView | src/Components/BrokerTable.tsx:54-62 | the view is a permutation of the input of the same length; with no field it is the input unchanged; otherwise it is ordered by `minDeposit` or `assets` in the chosen direction; it is stable |
| BrokerTable.Table.SortedBrokers | src/Components/BrokerTable.tsx:54-62 | the component's view is a permutation of the stored list, the list itself when unsorted, ordered and stable otherwise; the stored list is a constant that the sort never changes |
| BrokerTable.EmptyViewIffNoBrokers | src/Components/BrokerTable.tsx:73 | the empty-table message appears exactly when there are no brokers, whatever the sort state |
| BrokerTable.DepositExample | src/Components/BrokerTable.tsx:40-62 | deposits 500, 100, 300 are shown as 100, 300, 500 after one click, as 500, 300, 100 after two, and in the original order after a reset |
| Faq.MapDocs | src/Components/FAQ.tsx:26-33 | one item per document, in document order, with its id, question and answer |
| Faq.Without | src/Components/FAQ.tsx:66 | the filtered list lacks the id and keeps membership of every other id |
| Faq.WithoutAppend | src/Components/FAQ.tsx:66 | filtering distributes over concatenation, so the kept ids stay in order |
| Faq.WithoutAbsent | src/Components/FAQ.tsx:66 | filtering an id that is not there changes nothing |
| Faq.WithoutCounts | src/Components/FAQ.tsx:66 | filtering removes every occurrence of the id and keeps every other id as often as before |
| Faq.WithoutDistinct | src/Components/FAQ.tsx:66 | filtering keeps a duplicate-free list duplicate-free |
| Faq.Toggle | src/Components/FAQ.tsx:64-68 | the toggled id's membership flips; no other id's membership changes; an absent id is appended at the end; a present id is removed with every occurrence by `Without`, which keeps the other ids in order |
| Faq.ToggleTwiceRestores | src/Components/FAQ.tsx:66 | opening an item and closing it again restores the list exactly |
| Faq.ToggleDistinct | src/Components/FAQ.tsx:18-66 | toggling keeps the list of open ids free of duplicates |
| Faq.FaqSection.constructor | src/Components/FAQ.tsx:14-18 | the section starts loading, with no items, no error and nothing open |
| Faq.FaqSection.FetchFaqs | src/Components/FAQ.tsx:20-59 | array docs: the items become the mapped docs and the error is unchanged; no array: the error is set and the items are unchanged; thrown: the items become exactly the two built-in entries and the error is set; loading ends false in every case; the open list is preserved duplicate-free |
| Faq.FaqSection.ToggleItem | src/Components/FAQ.tsx:64-68 | the open list becomes `Toggle` of the old one and stays duplicate-free; the item's `IsOpen` flips and no other item's changes; nothing else changes |
| Faq.FaqSection.View | src/Components/FAQ.tsx:78-86 | the items are rendered exactly when not loading and no error is set; the error message exactly when not loading and an error is set |
| CountrySelector.FindByCode | src/Components/CountrySelector.tsx:56-59 | the result is the first element with the code, or none exactly when no element has it |
| CountrySelector.PickCountry | src/Components/CountrySelector.tsx:93-95 | a listed country; the first one with the requested code when there is a truthy code that matches, else the first country |
| CountrySelector.PickLanguage | src/Components/CountrySelector.tsx:96-98 | the first language with the requested code when there is a truthy code that matches, else the first language, else English when the list is empty |
| CountrySelector.InitialCountry | src/Components/CountrySelector.tsx:22-57 | a built-in country; the one with the route's code when it is `us`, `gb` or `vn`, else the United States |
| CountrySelector.InitialLanguage | src/Components/CountrySelector.tsx:58-60 | a language of the initial country; the route's locale when that country lists it; the country's first language when there is no locale or the country does not list it |
| CountrySelector.InitialSelectionExamples | src/Components/CountrySelector.tsx:22-60 | `vn` alone starts in Vietnamese, `vn` with `en` in English, an unknown or empty code starts in the United States in English |
| CountrySelector.ToCountry | src/Components/CountrySelector.tsx:79-90 | id, name and code are kept; a flag exactly for a truthy flag URL, with the name as its alt text; exactly `[English]` when languages is not an array, else the languages mapped in order |
| CountrySelector.MapCountries | src/Components/CountrySelector.tsx:79-90 | one country per document, in document order |
| CountrySelector.SelectionPath | src/Components/CountrySelector.tsx:122 | the path is `/`, the language code, `/`, the country code, and nothing else |
| CountrySelector.Selector.constructor | src/Components/CountrySelector.tsx:55-69 | the selector starts with the built-in list, loading, closed, and the initial country and language |
| CountrySelector.Selector.FetchCountries | src/Components/CountrySelector.tsx:72-114 | non-empty docs: the list becomes the mapped docs and the selection its find-or-first defaults; missing, empty or thrown: list and selection are kept and the error is set; loading ends false |
| CountrySelector.Selector.HandleSelection | src/Components/CountrySelector.tsx:116-124 | the selection becomes the chosen pair, the dropdown closes, and the returned path is `SelectionPath` of the pair |
| CountrySelector.Selector.ToggleOpen | src/Components/CountrySelector.tsx:129 | the dropdown flag flips and nothing else changes |
| CountrySelector.Selector.CloseOverlay | src/Components/CountrySelector.tsx:198 | the dropdown closes and nothing else changes |
| Text.Lower | src/Components/Hero.tsx:9 | same length, each character lower-cased (ASCII) |
| Text.Capitalize | src/Components/Hero.tsx:36 | same length, the first character upper-cased (ASCII), the rest unchanged |
| Hero.CountryName | src/Components/Hero.tsx:8-37 | none exactly for `global` in any case; the translated name when the lower-cased slug has a key and a non-empty translation; otherwise the slug capitalised |
| Hero.Title | src/Components/Hero.tsx:41-86 | every title ends with ` - ` and the year; a global title is the locale's global headline, ` - ` and the year; a country title is the template's opening text, the resolved name, the template's closing text, ` - ` and the year, so the name starts right after the opening text |
| Hero.GlobalTitle | src/Components/Hero.tsx:42-62 | a global title is the locale's fixed global headline and does not depend on the slug's spelling or the translations |
| Hero.TitleNamesCountry | src/Components/Hero.tsx:65-85 | a non-global title contains the resolved country name |
| Hero.UnlistedLocaleTemplates | src/Components/Hero.tsx:61-84 | a locale outside the 14 listed ones gets the English global headline and country template |
| Hero.UnlistedLocaleIsEnglish | src/Components/Hero.tsx:61-84 | a locale outside the 14 listed ones gets the same title as `en` |
| Hero.LocaleMatchIsExact | src/Components/Hero.tsx:43-70 | the locale match is case-sensitive: `VI` gets the English title |
| Hero.GlobalIgnoresCase | src/Components/Hero.tsx:9-42 | `GLOBAL` and `Global` are the global pseudo-country |
| Hero.TranslationIgnoresCase | src/Components/Hero.tsx:29-33 | a translated slug resolves to the same name as its lower-cased form |
| Sitemap.StripTrailingSlash | src/app/sitemap.ts:6 | at most one trailing `/` is removed, and one is removed whenever present |
| Sitemap.BaseUrl | src/app/sitemap.ts:6 | the base URL is never empty; the default when `SITE_URL` is unset or empty after stripping; otherwise exactly `SITE_URL` with one trailing slash removed, if it has one |
| Sitemap.BaseUrlNoTrailingSlash | src/app/sitemap.ts:6 | a configured URL that does not end in `//` gives a base URL without a trailing slash |
| Sitemap.CodesOf | src/app/sitemap.ts:20-22 | no more codes than documents; every code is non-empty and lower-case |
| Sitemap.CodesOfAppend | src/app/sitemap.ts:20-22 | codes are taken document by document, in document order |
| Sitemap.CodesOfOne | src/app/sitemap.ts:21-22 | a document gives its lower-cased code when the code is a non-empty string, and nothing otherwise |
| Sitemap.CountryCodes | src/app/sitemap.ts:13-28 | non-empty docs give their codes; missing, empty or thrown give exactly `us, gb, vn, de, fr` |
| Sitemap.NoUsableCodes | src/app/sitemap.ts:19-23 | non-empty docs whose codes are all unusable give no codes, not the fallback list |
| Sitemap.Row | src/app/sitemap.ts:37-44 | one page entry per country code, in order |
| Sitemap.GridShape | src/app/sitemap.ts:36-45 | the page entries number locales times codes; entry `i*m+j` is locale `i` with code `j` |
| Sitemap.SitemapLayout | src/app/sitemap.ts:34-46 | 1 + locales × codes entries; the first is the root URL with `/`, daily, priority 0.9; then locale-major entries `base/locale/country`, daily, priority 0.8 |
| Sitemap.CollectEntries | src/app/sitemap.ts:34-46 | the nested loop builds exactly the entry list `Entries` |
| Sitemap.BuildSitemap | src/app/sitemap.ts:30-47 | the sitemap is `Entries` over the normalised base URL and the normalised or fallback country codes |
| ExitIntentPopup.Step | src/Components/ExitIntentPopup.tsx:15-39 | a top-edge leave before the first showing shows it and marks it shown; any other leave changes nothing; close and an overlay click on the overlay hide it and keep `hasShown`; a click inside changes nothing; visibility implies shown is kept |
| ExitIntentPopup.AppearsAtMostOnceFrom | src/Components/ExitIntentPopup.tsx:18 | from a consistent state the popup appears at most once more, and never once it has been shown |
| ExitIntentPopup.AppearsAtMostOnce | src/Components/ExitIntentPopup.tsx:11-18 | over any sequence of events after mount the popup appears at most once |
| ExitIntentPopup.ClosedAfterShownIsFinal | src/Components/ExitIntentPopup.tsx:18-33 | once shown and closed, no sequence of events changes the state |
| ExitIntentPopup.Render | src/Components/ExitIntentPopup.tsx:41 | nothing is rendered exactly when the popup is not visible |
| ExitIntentPopup.Popup.constructor | src/Components/ExitIntentPopup.tsx:11-12 | both flags start false |
| ExitIntentPopup.Popup.HandleMouseLeave | src/Components/ExitIntentPopup.tsx:16-22 | the state becomes `Step` of a leave at `clientY`; the popup has appeared at most once |
| ExitIntentPopup.Popup.HandleClose | src/Components/ExitIntentPopup.tsx:31-33 | the state becomes `Step` of a close; the appearance count is unchanged |
| ExitIntentPopup.Popup.HandleOverlayClick | src/Components/ExitIntentPopup.tsx:35-39 | the state becomes `Step` of an overlay click; it closes only when the target is the overlay |

## Left out

- Rendering is left out: JSX markup, images, CSS, star ratings, number formatting, and the labels taken from translations.
- React scheduling is left out. Each event handler and each fetch completion is one sequential transition. Effect timing, re-fetching when props change, and listener registration and removal are not modelled.
- The content store, the server actions and the API route are left out. Their results enter as `Fetch.Outcome`. The CMS collection schemas are not part of this model.
- The broker rating bound of 0 to 5 from the collection schema is not imposed on `Broker` records, because no modelled operation reads the rating.
- `minDeposit` and `assets` are unbounded integers. JavaScript number rounding and `NaN` in the comparator are not modelled.
- `Text.Lower` and `Text.Capitalize` map ASCII letters only. Full Unicode case mapping is not modelled.
- The translation table is a parameter `names`, from translation key to name. The current year is a natural-number parameter. The clock value of the sitemap is an integer parameter. `TRANSLATIONS` and the locale list are parameters.
- `router.push` is not modelled; `HandleSelection` returns the path that would be pushed.
- Hero title templates are compared as literals. Nothing is proved about the characters of the non-English templates beyond what the general lemmas say.
- The header and `robots.ts` are not part of this model. They hold constants and a menu toggle, and behave like `CountrySelector.Selector.ToggleOpen`.
- `Sitemap.CodesOf`'s own contract gives only the shape of each code. The exact content, taken document by document, is given by `Sitemap.CodesOfOne` together with `Sitemap.CodesOfAppend`.
