/**
 * The FAQ section: a list of questions loaded once from the content store, with
 * a built-in pair used when the load throws, and a list of the ids of the items
 * the reader has opened. Any number of items may be open at once.
 */
module Faq {
  import opened Wrappers
  import opened Fetch

  /** An item as the section renders it. */
  datatype FaqItem = FaqItem(id: string, question: string, answer: string)

  /** A document from the content store; its country and language tags are not rendered. */
  datatype FaqDoc = FaqDoc(
    id: string,
    question: string,
    answer: string,
    countries: seq<string>,
    languages: seq<string>)

  const LoadError := "Failed to load FAQs"

  /** The built-in pair stored when the load throws. */
  const FallbackFaqs: seq<FaqItem> := [
    FaqItem(
      "1",
      "What is the best online trading broker?",
      "The best online trading broker depends on your individual needs, trading style, and investment goals. Factors to consider include fees, available assets, regulation, customer support, and trading platforms."),
    FaqItem(
      "2",
      "How do I choose a trading broker?",
      "When choosing a trading broker, consider: 1) Regulation and safety, 2) Trading fees and commissions, 3) Available assets and markets, 4) Trading platform quality, 5) Customer support, 6) Minimum deposit requirements, 7) Educational resources and tools.")
  ]

  function ToItem(d: FaqDoc): FaqItem {
    FaqItem(d.id, d.question, d.answer)
  }

  /** `docs.map(...)`: one item per document, in document order, keeping id, question and answer. */
  function MapDocs(docs: seq<FaqDoc>): (items: seq<FaqItem>)
    ensures |items| == |docs|
    ensures forall i :: 0 <= i < |docs| ==>
      items[i].id == docs[i].id && items[i].question == docs[i].question && items[i].answer == docs[i].answer
  {
    seq(|docs|, i requires 0 <= i < |docs| => ToItem(docs[i]))
  }

  // ---------------------------------------------------------------------------
  // Opening and closing items

  /** `prev.filter(item => item !== id)`. */
  function Without(s: seq<string>, id: string): (r: seq<string>)
    ensures id !in r
    ensures forall x :: x != id ==> (x in r <==> x in s)
    ensures |r| <= |s|
  {
    if s == [] then []
    else if s[0] == id then Without(s[1..], id)
    else [s[0]] + Without(s[1..], id)
  }

  /** Filtering distributes over concatenation, so the kept ids stay in their order. */
  lemma {:induction false} WithoutAppend(a: seq<string>, b: seq<string>, id: string)
    ensures Without(a + b, id) == Without(a, id) + Without(b, id)
    decreases |a|
  {
    if a == [] {
      assert a + b == b;
    } else {
      WithoutAppend(a[1..], b, id);
      assert (a + b)[1..] == a[1..] + b;
    }
  }

  /** Filtering out an id that is absent changes nothing. */
  lemma {:induction false} WithoutAbsent(s: seq<string>, id: string)
    requires id !in s
    ensures Without(s, id) == s
    decreases |s|
  {
    if s != [] {
      WithoutAbsent(s[1..], id);
    }
  }

  /** Removal keeps every other id exactly as many times as before. */
  lemma {:induction false} WithoutCounts(s: seq<string>, id: string)
    ensures multiset(Without(s, id)) == multiset(s)[id := 0]
    decreases |s|
  {
    if s != [] {
      WithoutCounts(s[1..], id);
      assert s == [s[0]] + s[1..];
    }
  }

  /** No id occurs twice. */
  predicate Distinct(s: seq<string>) {
    forall i, j :: 0 <= i < j < |s| ==> s[i] != s[j]
  }

  lemma {:induction false} WithoutDistinct(s: seq<string>, id: string)
    requires Distinct(s)
    ensures Distinct(Without(s, id))
    decreases |s|
  {
    if s != [] {
      WithoutDistinct(s[1..], id);
      if s[0] != id {
        var r := [s[0]] + Without(s[1..], id);
        assert s[0] !in s[1..];
        forall i, j | 0 <= i < j < |r| ensures r[i] != r[j] {
          if i == 0 {
            assert r[j] in Without(s[1..], id);
          }
        }
      }
    }
  }

  /** The update `toggleItem(id)` applies to the list of open ids. */
  function Toggle(open: seq<string>, id: string): (r: seq<string>)
    ensures id in r <==> id !in open
    ensures forall x :: x != id ==> (x in r <==> x in open)
    ensures id !in open ==> r == open + [id]
    ensures id in open ==> r == Without(open, id)
    ensures id in open ==> multiset(r) == multiset(open)[id := 0]
  {
    if id in open then
      WithoutCounts(open, id);
      Without(open, id)
    else open + [id]
  }

  /** Opening an item and closing it again restores the list exactly. */
  lemma ToggleTwiceRestores(open: seq<string>, id: string)
    requires id !in open
    ensures Toggle(Toggle(open, id), id) == open
  {
    WithoutAppend(open, [id], id);
    WithoutAbsent(open, id);
    assert Without([id], id) == [];
  }

  /** Toggling keeps the open list free of duplicates. */
  lemma ToggleDistinct(open: seq<string>, id: string)
    requires Distinct(open)
    ensures Distinct(Toggle(open, id))
  {
    if id in open {
      WithoutDistinct(open, id);
    }
  }

  // ---------------------------------------------------------------------------
  // What the section shows

  datatype FaqView = LoadingMessage | ErrorMessage | Items(items: seq<FaqItem>)

  class FaqSection {
    var faqs: seq<FaqItem>
    var loading: bool
    var error: Option<string>
    var openItems: seq<string>

    ghost predicate Valid()
      reads this
    {
      Distinct(openItems)
    }

    constructor ()
      ensures Valid()
      ensures faqs == [] && loading && error == None && openItems == []
    {
      faqs := [];
      loading := true;
      error := None;
      openItems := [];
    }

    /** `fetchFAQs` with its outcome given: try, catch, then finally clears `loading`. */
    method FetchFaqs(outcome: Outcome<FaqDoc>)
      requires Valid()
      modifies this
      ensures Valid()
      ensures !loading && openItems == old(openItems)
      ensures outcome.Docs? ==> faqs == MapDocs(outcome.docs) && error == old(error)
      ensures outcome.NoDocs? ==> faqs == old(faqs) && error == Some(LoadError)
      ensures outcome.Threw? ==> faqs == FallbackFaqs && error == Some(LoadError)
    {
      loading := true;
      match outcome {
        case Docs(docs) =>
          faqs := MapDocs(docs);
        case NoDocs =>
          error := Some(LoadError);
        case Threw =>
          error := Some(LoadError);
          faqs := FallbackFaqs;
      }
      loading := false;
    }

    method ToggleItem(id: string)
      requires Valid()
      modifies this
      ensures Valid()
      ensures openItems == Toggle(old(openItems), id)
      ensures IsOpen(id) == !old(IsOpen(id))
      ensures forall x :: x != id ==> IsOpen(x) == old(IsOpen(x))
      ensures faqs == old(faqs) && loading == old(loading) && error == old(error)
    {
      ToggleDistinct(openItems, id);
      openItems := if id in openItems then Without(openItems, id) else openItems + [id];
    }

    /** Whether the answer of item `id` is shown. */
    function IsOpen(id: string): bool
      reads this
    {
      id in openItems
    }

    /** The body of the section: loading, then the error message if any, else the items. */
    function View(): (v: FaqView)
      reads this
      ensures v.Items? <==> !loading && error.None?
      ensures v.Items? ==> v.items == faqs
      ensures v == ErrorMessage <==> !loading && error.Some?
    {
      if loading then LoadingMessage
      else if error.Some? then ErrorMessage
      else Items(faqs)
    }
  }
}
