/**
 * The broker listing table: a sort state (field and direction) changed by the
 * column-header buttons, and the sorted view of the broker list that the table
 * renders. The list itself is fixed at mount; sorting works on a copy.
 */
module BrokerTable {
  import opened Wrappers

  /** A broker record as the table receives it (the logo is a rendering concern). */
  datatype Broker = Broker(
    id: string,
    name: string,
    rating: int,
    minDeposit: int,
    assets: int,
    highlights: seq<string>,
    paymentMethods: seq<string>,
    visitUrl: string,
    riskWarning: Option<string>,
    address: Option<string>)

  /** `'deposit' | 'assets' | null`; `Unsorted` stands for `null`. */
  datatype SortField = Unsorted | Deposit | Assets

  datatype SortDirection = Asc | Desc

  datatype SortState = SortState(field: SortField, direction: SortDirection)

  /** The state at mount, and the state `resetSort` returns to. */
  const Initial := SortState(Unsorted, Asc)

  function Flip(d: SortDirection): (r: SortDirection)
    ensures r != d
  {
    if d == Asc then Desc else Asc
  }

  /**
   * The transition of `handleSort(field)`: the active field flips direction,
   * any other field (including from the unsorted state) becomes active ascending.
   */
  function Select(s: SortState, field: SortField): (r: SortState)
    ensures r.field == field
    ensures s.field == field ==> r.direction != s.direction
    ensures s.field != field ==> r.direction == Asc
  {
    if s.field == field then SortState(field, Flip(s.direction)) else SortState(field, Asc)
  }

  /** Selecting the active field twice returns to the same state. */
  lemma SelectActiveTwice(s: SortState)
    ensures Select(Select(s, s.field), s.field) == s
  {
  }

  /** Selecting an inactive field and then the same field again leaves it active descending. */
  lemma SelectNewTwice(s: SortState, field: SortField)
    requires s.field != field
    ensures Select(Select(s, field), field) == SortState(field, Desc)
  {
  }

  // ---------------------------------------------------------------------------
  // The comparator and the sort

  /** The value the comparator reads: `minDeposit` for the deposit column, `assets` otherwise. */
  function Key(b: Broker, field: SortField): int {
    if field == Deposit then b.minDeposit else b.assets
  }

  /** The comparator handed to `sort`: negative when `a` goes before `b`. */
  function Compare(a: Broker, b: Broker, field: SortField, dir: SortDirection): int {
    if dir == Asc then Key(a, field) - Key(b, field) else Key(b, field) - Key(a, field)
  }

  /** The key as seen in the chosen direction: the comparator is `Rank(a) - Rank(b)`. */
  function Rank(b: Broker, field: SortField, dir: SortDirection): int {
    if dir == Asc then Key(b, field) else -Key(b, field)
  }

  /** Every adjacent and non-adjacent pair is in comparator order. */
  ghost predicate Ordered(s: seq<Broker>, field: SortField, dir: SortDirection) {
    forall i, j :: 0 <= i < j < |s| ==> Rank(s[i], field, dir) <= Rank(s[j], field, dir)
  }

  /** The brokers of `s` whose key is `k`, in the order they appear in `s`. */
  function WithKey(s: seq<Broker>, field: SortField, k: int): seq<Broker>
  {
    if s == [] then []
    else (if Key(s[0], field) == k then [s[0]] else []) + WithKey(s[1..], field, k)
  }

  /** Place `x` before the first element it does not compare greater than. */
  function Insert(x: Broker, t: seq<Broker>, field: SortField, dir: SortDirection): (r: seq<Broker>)
    ensures |r| == |t| + 1
  {
    if t == [] then [x]
    else if Compare(x, t[0], field, dir) <= 0 then [x] + t
    else [t[0]] + Insert(x, t[1..], field, dir)
  }

  /**
   * A stable sort by the comparator. Array.prototype.sort is stable (section
   * 23.1.3.30 of ECMA-262), and a stable sort with a consistent comparator has
   * exactly one possible result, so any stable algorithm models it.
   */
  function StableSort(s: seq<Broker>, field: SortField, dir: SortDirection): (r: seq<Broker>)
    ensures |r| == |s|
    decreases |s|
  {
    if s == [] then [] else Insert(s[0], StableSort(s[1..], field, dir), field, dir)
  }

  lemma {:induction false} InsertPermutation(x: Broker, t: seq<Broker>, field: SortField, dir: SortDirection)
    ensures multiset(Insert(x, t, field, dir)) == multiset{x} + multiset(t)
    decreases |t|
  {
    if t != [] && Compare(x, t[0], field, dir) > 0 {
      InsertPermutation(x, t[1..], field, dir);
      assert t == [t[0]] + t[1..];
    }
  }

  /** Sorting neither adds, drops nor duplicates a broker. */
  lemma {:induction false} StableSortPermutation(s: seq<Broker>, field: SortField, dir: SortDirection)
    ensures multiset(StableSort(s, field, dir)) == multiset(s)
    decreases |s|
  {
    if s != [] {
      StableSortPermutation(s[1..], field, dir);
      InsertPermutation(s[0], StableSort(s[1..], field, dir), field, dir);
      assert s == [s[0]] + s[1..];
    }
  }

  /** A lower bound on `x` and on all of `t` bounds all of `Insert(x, t)`. */
  lemma {:induction false} InsertLowerBound(x: Broker, t: seq<Broker>, field: SortField, dir: SortDirection, lo: int)
    requires lo <= Rank(x, field, dir)
    requires forall i :: 0 <= i < |t| ==> lo <= Rank(t[i], field, dir)
    ensures forall i :: 0 <= i < |Insert(x, t, field, dir)| ==> lo <= Rank(Insert(x, t, field, dir)[i], field, dir)
    decreases |t|
  {
    if t != [] && Compare(x, t[0], field, dir) > 0 {
      InsertLowerBound(x, t[1..], field, dir, lo);
    }
  }

  lemma {:induction false} InsertOrdered(x: Broker, t: seq<Broker>, field: SortField, dir: SortDirection)
    requires Ordered(t, field, dir)
    ensures Ordered(Insert(x, t, field, dir), field, dir)
    decreases |t|
  {
    if t != [] && Compare(x, t[0], field, dir) > 0 {
      var rest := Insert(x, t[1..], field, dir);
      InsertOrdered(x, t[1..], field, dir);
      InsertLowerBound(x, t[1..], field, dir, Rank(t[0], field, dir));
      var r := [t[0]] + rest;
      assert r == Insert(x, t, field, dir);
      forall i, j | 0 <= i < j < |r|
        ensures Rank(r[i], field, dir) <= Rank(r[j], field, dir)
      {
        assert r[j] == rest[j - 1];
        if i > 0 {
          assert r[i] == rest[i - 1];
        }
      }
    }
  }

  /** The sorted view is in comparator order. */
  lemma {:induction false} StableSortOrdered(s: seq<Broker>, field: SortField, dir: SortDirection)
    ensures Ordered(StableSort(s, field, dir), field, dir)
    decreases |s|
  {
    if s != [] {
      StableSortOrdered(s[1..], field, dir);
      InsertOrdered(s[0], StableSort(s[1..], field, dir), field, dir);
    }
  }

  lemma WithKeyCons(b: Broker, t: seq<Broker>, field: SortField, k: int)
    ensures WithKey([b] + t, field, k) == (if Key(b, field) == k then [b] else []) + WithKey(t, field, k)
  {
    assert ([b] + t)[1..] == t;
  }

  /** Inserting `x` puts it in front of every element with the same key. */
  lemma {:induction false} InsertWithKey(x: Broker, t: seq<Broker>, field: SortField, dir: SortDirection, k: int)
    ensures WithKey(Insert(x, t, field, dir), field, k)
         == (if Key(x, field) == k then [x] else []) + WithKey(t, field, k)
    decreases |t|
  {
    if t == [] {
      WithKeyCons(x, [], field, k);
    } else if Compare(x, t[0], field, dir) <= 0 {
      WithKeyCons(x, t, field, k);
    } else {
      InsertWithKey(x, t[1..], field, dir, k);
      WithKeyCons(t[0], Insert(x, t[1..], field, dir), field, k);
      WithKeyCons(t[0], t[1..], field, k);
      assert [t[0]] + t[1..] == t;
      assert Key(t[0], field) != Key(x, field);
    }
  }

  /**
   * Stability: for every key, the brokers carrying it appear in the sorted view
   * in the same relative order as in the input.
   */
  lemma {:induction false} StableSortStable(s: seq<Broker>, field: SortField, dir: SortDirection, k: int)
    ensures WithKey(StableSort(s, field, dir), field, k) == WithKey(s, field, k)
    decreases |s|
  {
    if s != [] {
      StableSortStable(s[1..], field, dir, k);
      InsertWithKey(s[0], StableSort(s[1..], field, dir), field, dir, k);
    }
  }

  /** Two ordered lists holding the same brokers start with brokers of the same key. */
  lemma OrderedHeadKeys(a: seq<Broker>, b: seq<Broker>, field: SortField, dir: SortDirection)
    requires a != [] && multiset(a) == multiset(b)
    requires Ordered(a, field, dir) && Ordered(b, field, dir)
    ensures b != [] && Key(a[0], field) == Key(b[0], field)
  {
    assert a[0] in multiset(b);
    assert b != [];
    assert b[0] in multiset(a);
    var ia :| 0 <= ia < |b| && b[ia] == a[0];
    var ib :| 0 <= ib < |a| && a[ib] == b[0];
    assert Rank(b[0], field, dir) <= Rank(a[0], field, dir);
    assert Rank(a[0], field, dir) <= Rank(b[0], field, dir);
  }

  /** Lists with the same first broker and the same per-key order keep the same per-key order without it. */
  lemma TailsWithKey(a: seq<Broker>, b: seq<Broker>, field: SortField)
    requires a != [] && b != [] && a[0] == b[0]
    requires forall k :: WithKey(a, field, k) == WithKey(b, field, k)
    ensures forall k :: WithKey(a[1..], field, k) == WithKey(b[1..], field, k)
  {
    forall k ensures WithKey(a[1..], field, k) == WithKey(b[1..], field, k) {
      var head := if Key(a[0], field) == k then [a[0]] else [];
      assert WithKey(a, field, k) == head + WithKey(a[1..], field, k);
      assert WithKey(b, field, k) == head + WithKey(b[1..], field, k);
      assert (head + WithKey(a[1..], field, k))[|head|..] == WithKey(a[1..], field, k);
      assert (head + WithKey(b[1..], field, k))[|head|..] == WithKey(b[1..], field, k);
    }
  }

  /** Dropping the same first broker from two lists with the same brokers leaves the same brokers. */
  lemma TailsPermutation(a: seq<Broker>, b: seq<Broker>)
    requires a != [] && b != [] && a[0] == b[0] && multiset(a) == multiset(b)
    ensures multiset(a[1..]) == multiset(b[1..])
  {
    assert a == [a[0]] + a[1..] && b == [b[0]] + b[1..];
    assert multiset(a[1..]) == multiset(a) - multiset{a[0]};
    assert multiset(b[1..]) == multiset(b) - multiset{b[0]};
  }

  lemma OrderedTail(s: seq<Broker>, field: SortField, dir: SortDirection)
    requires s != [] && Ordered(s, field, dir)
    ensures Ordered(s[1..], field, dir)
  {
    forall i, j | 0 <= i < j < |s[1..]| ensures Rank(s[1..][i], field, dir) <= Rank(s[1..][j], field, dir) {
      assert s[1..][i] == s[i + 1] && s[1..][j] == s[j + 1];
    }
  }

  /** Two ordered lists with the same brokers and the same per-key order are the same list. */
  lemma {:induction false} OrderedStableUnique(a: seq<Broker>, b: seq<Broker>, field: SortField, dir: SortDirection)
    requires multiset(a) == multiset(b)
    requires Ordered(a, field, dir) && Ordered(b, field, dir)
    requires forall k :: WithKey(a, field, k) == WithKey(b, field, k)
    ensures a == b
    decreases |a|
  {
    if a == [] {
      assert |multiset(b)| == 0;
    } else {
      OrderedHeadKeys(a, b, field, dir);
      var k0 := Key(a[0], field);
      assert WithKey(a, field, k0) == [a[0]] + WithKey(a[1..], field, k0);
      assert WithKey(b, field, k0) == [b[0]] + WithKey(b[1..], field, k0);
      assert a[0] == WithKey(a, field, k0)[0] == WithKey(b, field, k0)[0] == b[0];
      TailsWithKey(a, b, field);
      TailsPermutation(a, b);
      OrderedTail(a, field, dir);
      OrderedTail(b, field, dir);
      OrderedStableUnique(a[1..], b[1..], field, dir);
      assert a == [a[0]] + a[1..] && b == [b[0]] + b[1..];
    }
  }

  /**
   * Any ordered, per-key order preserving permutation of the list is the one
   * `StableSort` gives: the sort is determined by the comparator and stability alone.
   */
  lemma StableSortUnique(s: seq<Broker>, r: seq<Broker>, field: SortField, dir: SortDirection)
    requires multiset(r) == multiset(s)
    requires Ordered(r, field, dir)
    requires forall k :: WithKey(r, field, k) == WithKey(s, field, k)
    ensures r == StableSort(s, field, dir)
  {
    StableSortPermutation(s, field, dir);
    StableSortOrdered(s, field, dir);
    forall k ensures WithKey(r, field, k) == WithKey(StableSort(s, field, dir), field, k) {
      StableSortStable(s, field, dir, k);
    }
    OrderedStableUnique(r, StableSort(s, field, dir), field, dir);
  }

  /** The list `sortedBrokers` evaluates to for the given list and sort state. */
  function SortedView(brokers: seq<Broker>, s: SortState): (list: seq<Broker>)
    ensures multiset(list) == multiset(brokers) && |list| == |brokers|
    ensures s.field == Unsorted ==> list == brokers
    ensures s.field != Unsorted && s.direction == Asc ==>
      forall i, j :: 0 <= i < j < |list| ==> Key(list[i], s.field) <= Key(list[j], s.field)
    ensures s.field != Unsorted && s.direction == Desc ==>
      forall i, j :: 0 <= i < j < |list| ==> Key(list[i], s.field) >= Key(list[j], s.field)
    ensures forall k :: WithKey(list, s.field, k) == WithKey(brokers, s.field, k)
  {
    if s.field == Unsorted then brokers
    else
      StableSortPermutation(brokers, s.field, s.direction);
      StableSortOrdered(brokers, s.field, s.direction);
      forall k ensures WithKey(StableSort(brokers, s.field, s.direction), s.field, k) == WithKey(brokers, s.field, k) {
        StableSortStable(brokers, s.field, s.direction, k);
      }
      StableSort(brokers, s.field, s.direction)
  }

  /** The empty-state panel shows exactly when there are no brokers at all, whatever the sort. */
  lemma EmptyViewIffNoBrokers(brokers: seq<Broker>, s: SortState)
    ensures SortedView(brokers, s) == [] <==> brokers == []
  {
  }

  lemma DepositAscending(a: Broker, b: Broker, c: Broker)
    requires a.minDeposit == 500 && b.minDeposit == 100 && c.minDeposit == 300
    ensures StableSort([a, b, c], Deposit, Asc) == [b, c, a]
  {
    assert [a, b, c][1..] == [b, c] && [b, c][1..] == [c] && [c][1..] == [];
    assert StableSort([c], Deposit, Asc) == Insert(c, [], Deposit, Asc) == [c];
    assert StableSort([b, c], Deposit, Asc) == Insert(b, [c], Deposit, Asc) == [b, c];
    assert Insert(a, [c], Deposit, Asc) == [c] + Insert(a, [], Deposit, Asc) == [c, a];
    assert Insert(a, [b, c], Deposit, Asc) == [b] + Insert(a, [c], Deposit, Asc);
  }

  lemma DepositDescending(a: Broker, b: Broker, c: Broker)
    requires a.minDeposit == 500 && b.minDeposit == 100 && c.minDeposit == 300
    ensures StableSort([a, b, c], Deposit, Desc) == [a, c, b]
  {
    assert [a, b, c][1..] == [b, c] && [b, c][1..] == [c] && [c][1..] == [];
    assert StableSort([c], Deposit, Desc) == Insert(c, [], Deposit, Desc) == [c];
    assert Insert(b, [c], Deposit, Desc) == [c] + Insert(b, [], Deposit, Desc) == [c, b];
    assert StableSort([b, c], Deposit, Desc) == [c, b];
    assert Insert(a, [c, b], Deposit, Desc) == [a, c, b];
  }

  /** A worked example: deposits 500, 100, 300 sort to 100, 300, 500, then 500, 300, 100, then back. */
  lemma DepositExample(a: Broker, b: Broker, c: Broker)
    requires a.minDeposit == 500 && b.minDeposit == 100 && c.minDeposit == 300
    ensures SortedView([a, b, c], Select(Initial, Deposit)) == [b, c, a]
    ensures SortedView([a, b, c], Select(Select(Initial, Deposit), Deposit)) == [a, c, b]
    ensures SortedView([a, b, c], Initial) == [a, b, c]
  {
    assert Select(Initial, Deposit) == SortState(Deposit, Asc);
    assert Select(Select(Initial, Deposit), Deposit) == SortState(Deposit, Desc);
    DepositAscending(a, b, c);
    DepositDescending(a, b, c);
  }

  // ---------------------------------------------------------------------------
  // The component state

  class Table {
    /** `const [brokers] = useState(initialBrokers)`: never set after mount. */
    const brokers: seq<Broker>
    var sortField: SortField
    var sortDirection: SortDirection

    constructor (initialBrokers: seq<Broker>)
      ensures brokers == initialBrokers
      ensures State() == Initial
    {
      brokers := initialBrokers;
      sortField := Unsorted;
      sortDirection := Asc;
    }

    function State(): SortState
      reads this
    {
      SortState(sortField, sortDirection)
    }

    method HandleSort(field: SortField)
      modifies this
      ensures State() == Select(old(State()), field)
    {
      if sortField == field {
        sortDirection := if sortDirection == Asc then Desc else Asc;
      } else {
        sortField := field;
        sortDirection := Asc;
      }
    }

    method ResetSort()
      modifies this
      ensures State() == Initial
    {
      sortField := Unsorted;
      sortDirection := Asc;
    }

    /** `sortedBrokers`: a sorted copy; the stored list is a constant, so it cannot change. */
    function SortedBrokers(): (list: seq<Broker>)
      reads this
      ensures multiset(list) == multiset(brokers)
      ensures sortField == Unsorted ==> list == brokers
      ensures sortField != Unsorted ==> Ordered(list, sortField, sortDirection)
      ensures forall k :: WithKey(list, sortField, k) == WithKey(brokers, sortField, k)
    {
      if sortField == Unsorted then SortedView(brokers, State())
      else
        StableSortOrdered(brokers, sortField, sortDirection);
        SortedView(brokers, State())
    }
  }
}
