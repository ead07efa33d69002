/**
 * The salary report of `task2`: the decoded person records are sorted in place by salary,
 * ascending and then descending, grouped into a map by salary currency, and the USD records
 * are selected. Reading the file, decoding JSON and printing are not modelled; what the
 * program prints is returned instead.
 */
module SalaryReport {

  datatype Salary = Salary(value: real, currency: string)

  datatype Person = Person(id: string, name: string, salary: Salary)

  /** The direction of a `sort.Slice` call: `<` (ascending) or `>` (descending) on salary. */
  datatype Order = Ascending | Descending

  /** `x` may stand before `y` in a slice sorted in `order`. */
  predicate InOrder(order: Order, x: Person, y: Person) {
    match order
    case Ascending => x.salary.value <= y.salary.value
    case Descending => x.salary.value >= y.salary.value
  }

  /** Every record stands in `order` with every later one. */
  ghost predicate Sorted(s: seq<Person>, order: Order) {
    forall i, j | 0 <= i < j < |s| :: InOrder(order, s[i], s[j])
  }

  /** Exchange two records of the slice. */
  method Swap(a: array<Person>, i: nat, j: nat)
    requires i < a.Length && j < a.Length
    modifies a
    ensures a[i] == old(a[j]) && a[j] == old(a[i])
    ensures forall k | 0 <= k < a.Length && k != i && k != j :: a[k] == old(a[k])
    ensures multiset(a[..]) == old(multiset(a[..]))
  {
    a[i], a[j] := a[j], a[i];
  }

  /** The index of a record of `a[from..]` that may stand before all the others in `order`. */
  method ExtremeIndex(a: array<Person>, from: nat, order: Order) returns (m: nat)
    requires from < a.Length
    ensures from <= m < a.Length
    ensures forall k | from <= k < a.Length :: InOrder(order, a[m], a[k])
  {
    m := from;
    var k := from + 1;
    while k < a.Length
      invariant from <= m < k <= a.Length
      invariant forall j | from <= j < k :: InOrder(order, a[m], a[j])
    {
      if !InOrder(order, a[m], a[k]) {
        m := k;
      }
      k := k + 1;
    }
  }

  /**
   * `sort.Slice(persons.Data, less)` with `less` comparing salary values by `<` or `>`: the
   * slice ends up a permutation of what it held and sorted in `order`. Go's sort is not
   * stable, so nothing is promised about the relative order of equal salaries.
   */
  method SortBySalary(a: array<Person>, order: Order)
    modifies a
    ensures Sorted(a[..], order)
    ensures multiset(a[..]) == old(multiset(a[..]))
  {
    var i := 0;
    while i < a.Length
      invariant 0 <= i <= a.Length
      invariant forall x, y | 0 <= x < y < i :: InOrder(order, a[x], a[y])
      invariant forall x, y | 0 <= x < i <= y < a.Length :: InOrder(order, a[x], a[y])
      invariant multiset(a[..]) == old(multiset(a[..]))
    {
      var m := ExtremeIndex(a, i, order);
      Swap(a, i, m);
      i := i + 1;
    }
  }

  /** The records of `s` whose salary is in `currency`, in slice order. */
  function WithCurrency(s: seq<Person>, currency: string): (r: seq<Person>)
    ensures |r| <= |s|
    ensures forall p | p in r :: p in s && p.salary.currency == currency
  {
    if s == [] then []
    else
      var last := s[|s| - 1];
      var r := WithCurrency(s[..|s| - 1], currency);
      assert forall p | p in s[..|s| - 1] :: p in s;
      r + if last.salary.currency == currency then [last] else []
  }

  /**
   * The selected records are exactly the records of `s` in `currency`, each as often as in
   * `s`, unchanged.
   */
  lemma {:induction false} WithCurrencyCounts(s: seq<Person>, currency: string, p: Person)
    ensures multiset(WithCurrency(s, currency))[p] ==
      if p.salary.currency == currency then multiset(s)[p] else 0
  {
    if s != [] {
      var init, last := s[..|s| - 1], s[|s| - 1];
      WithCurrencyCounts(init, currency, p);
      assert s == init + [last];
    }
  }

  /** Selecting by currency keeps the slice's order, so a sorted slice gives a sorted selection. */
  lemma {:induction false} WithCurrencySorted(s: seq<Person>, currency: string, order: Order)
    requires Sorted(s, order)
    ensures Sorted(WithCurrency(s, currency), order)
  {
    if s != [] {
      var init, last := s[..|s| - 1], s[|s| - 1];
      assert Sorted(init, order);
      WithCurrencySorted(init, currency, order);
      var r := WithCurrency(init, currency);
      forall p | p in r
        ensures InOrder(order, p, last)
      {
        var i :| 0 <= i < |init| && init[i] == p;
        assert s[i] == p;
      }
    }
  }

  /** The currencies that occur in `s`. */
  function Currencies(s: seq<Person>): set<string> {
    set p | p in s :: p.salary.currency
  }

  /**
   * The `currencyMap` the grouping loop builds from `s`: each record appended to the group of
   * its currency, a missing group starting as the empty (nil) slice.
   */
  function Grouping(s: seq<Person>): map<string, seq<Person>> {
    if s == [] then map[]
    else
      var groups := Grouping(s[..|s| - 1]);
      var c := s[|s| - 1].salary.currency;
      groups[c := (if c in groups then groups[c] else []) + [s[|s| - 1]]]
  }

  /**
   * The grouping has one key per currency occurring in `s`, and the group of each currency
   * holds exactly that currency's records, in slice order; so no group is empty.
   */
  lemma {:induction false} GroupingByCurrency(s: seq<Person>)
    ensures Grouping(s).Keys == Currencies(s)
    ensures forall c | c in Grouping(s) :: Grouping(s)[c] == WithCurrency(s, c) && Grouping(s)[c] != []
  {
    if s != [] {
      var init, last := s[..|s| - 1], s[|s| - 1];
      GroupingByCurrency(init);
      assert s == init + [last];
      assert Currencies(s) == Currencies(init) + {last.salary.currency};
      forall c | c in Grouping(s)
        ensures Grouping(s)[c] == WithCurrency(s, c)
      {
        if c !in Grouping(init) {
          assert c !in Currencies(init);
          assert WithCurrency(init, c) == [] by {
            if WithCurrency(init, c) != [] {
              assert WithCurrency(init, c)[0] in WithCurrency(init, c);
            }
          }
        }
      }
    }
  }

  /** Each record lands in exactly the group keyed by its own currency. */
  lemma GroupOfEachRecord(s: seq<Person>, p: Person, c: string)
    requires c in Grouping(s)
    ensures p in Grouping(s)[c] <==> p in s && p.salary.currency == c
  {
    GroupingByCurrency(s);
    WithCurrencyCounts(s, c, p);
    assert p in Grouping(s)[c] <==> multiset(Grouping(s)[c])[p] > 0;
  }

  /** The total size of the groups of a map. */
  ghost function SizeSum(groups: map<string, seq<Person>>): nat
    decreases |groups|
  {
    if groups == map[] then 0
    else
      var c :| c in groups;
      assert |groups - {c}| < |groups| by { assert (groups - {c}).Keys == groups.Keys - {c}; }
      |groups[c]| + SizeSum(groups - {c})
  }

  /** SizeSum may take out any key first. */
  lemma {:induction false} SizeSumTake(groups: map<string, seq<Person>>, c: string)
    requires c in groups
    ensures SizeSum(groups) == |groups[c]| + SizeSum(groups - {c})
    decreases |groups|
  {
    var d :| d in groups && SizeSum(groups) == |groups[d]| + SizeSum(groups - {d});
    assert (groups - {d}).Keys == groups.Keys - {d};
    if d != c {
      assert (groups - {c}).Keys == groups.Keys - {c};
      SizeSumTake(groups - {d}, c);
      SizeSumTake(groups - {c}, d);
      assert groups - {d} - {c} == groups - {c} - {d};
    }
  }

  /** Replacing one group changes the total by the difference in size. */
  lemma SizeSumUpdate(groups: map<string, seq<Person>>, c: string, v: seq<Person>)
    ensures SizeSum(groups[c := v]) + (if c in groups then |groups[c]| else 0) == SizeSum(groups) + |v|
  {
    SizeSumTake(groups[c := v], c);
    assert groups[c := v] - {c} == groups - {c};
    if c in groups {
      SizeSumTake(groups, c);
    } else {
      assert groups - {c} == groups;
    }
  }

  /** The groups partition the records: their sizes add up to the number of records. */
  lemma {:induction false} GroupSizesSum(s: seq<Person>)
    ensures SizeSum(Grouping(s)) == |s|
  {
    if s != [] {
      var init, last := s[..|s| - 1], s[|s| - 1];
      GroupSizesSum(init);
      var groups, c := Grouping(init), last.salary.currency;
      SizeSumUpdate(groups, c, (if c in groups then groups[c] else []) + [last]);
    }
  }

  /** The grouping loop over `persons.Data`. */
  method GroupByCurrency(data: seq<Person>) returns (currencyMap: map<string, seq<Person>>)
    ensures currencyMap == Grouping(data)
    ensures currencyMap.Keys == Currencies(data)
    ensures forall c | c in currencyMap :: currencyMap[c] == WithCurrency(data, c)
  {
    currencyMap := map[];
    var i := 0;
    while i < |data|
      invariant 0 <= i <= |data|
      invariant currencyMap == Grouping(data[..i])
    {
      var person := data[i];
      var c := person.salary.currency;
      currencyMap := currencyMap[c := (if c in currencyMap then currencyMap[c] else []) + [person]];
      assert data[..i + 1][..i] == data[..i];
      i := i + 1;
    }
    assert data[..i] == data;
    GroupingByCurrency(data);
  }

  /** The filter loop: the records whose salary currency is `currency`, in slice order. */
  method FilterByCurrency(data: seq<Person>, currency: string) returns (selected: seq<Person>)
    ensures selected == WithCurrency(data, currency)
  {
    selected := [];
    var i := 0;
    while i < |data|
      invariant 0 <= i <= |data|
      invariant selected == WithCurrency(data[..i], currency)
    {
      if data[i].salary.currency == currency {
        selected := selected + [data[i]];
      }
      assert data[..i + 1][..i] == data[..i];
      i := i + 1;
    }
    assert data[..i] == data;
  }

  /**
   * `main` after decoding: sort ascending (snapshot printed), sort descending (snapshot
   * printed), group by currency and list the USD records. The "converted to USD" records are
   * the USD records with their values unchanged: nothing is converted.
   */
  method Report(persons: array<Person>)
    returns (ascending: seq<Person>, currencyMap: map<string, seq<Person>>, usd: seq<Person>)
    modifies persons
    ensures Sorted(ascending, Ascending) && multiset(ascending) == old(multiset(persons[..]))
    ensures Sorted(persons[..], Descending) && multiset(persons[..]) == old(multiset(persons[..]))
    ensures currencyMap == Grouping(persons[..])
    ensures forall c | c in currencyMap :: Sorted(currencyMap[c], Descending)
    ensures usd == WithCurrency(persons[..], "USD")
    ensures Sorted(usd, Descending)
  {
    SortBySalary(persons, Ascending);
    ascending := persons[..];
    SortBySalary(persons, Descending);
    currencyMap := GroupByCurrency(persons[..]);
    forall c | c in currencyMap
      ensures Sorted(currencyMap[c], Descending)
    {
      WithCurrencySorted(persons[..], c, Descending);
    }
    usd := FilterByCurrency(persons[..], "USD");
    WithCurrencySorted(persons[..], "USD", Descending);
  }
}
