/**
 * The result grid of the menu search page
 * (src/components/menu/menu-search-grid.tsx): the three sort orders and the
 * "no items found" state.
 *
 * `Array.prototype.sort` is stable; it is modelled by a stable insertion sort
 * over a comparator given as "may come first". `localeCompare` is modelled as
 * code-point order on names, `toLowerCase` as ASCII lower-casing.
 */
module MenuSearchGrid {
  import opened Text
  import opened Seqs
  import opened MenuData

  datatype SortOption = Default | AToZ | Popular

  /** The sort buttons, in the order they are shown. */
  const SortOptions: seq<(SortOption, string)> := [(Default, "Default"), (AToZ, "A - Z"), (Popular, "Most Popular")]

  // ---------------------------------------------------------------------------
  // A stable sort
  // ---------------------------------------------------------------------------

  /** `le` orders any two values one way or the other. */
  ghost predicate Total<T(!new)>(le: (T, T) -> bool)
  {
    forall a, b :: le(a, b) || le(b, a)
  }

  /** Every element may come before its successor. */
  predicate SortedBy<T>(xs: seq<T>, le: (T, T) -> bool)
  {
    forall i | 0 <= i < |xs| - 1 :: le(xs[i], xs[i + 1])
  }

  /** Puts `x` in front of the first element it may precede, so `x` stays ahead of the elements it ties with. */
  function Insert<T>(x: T, xs: seq<T>, le: (T, T) -> bool): (r: seq<T>)
    ensures multiset(r) == multiset(xs) + multiset{x}
    ensures |r| == |xs| + 1
  {
    if xs == [] || le(x, xs[0]) then [x] + xs
    else
      assert xs == [xs[0]] + xs[1..];
      [xs[0]] + Insert(x, xs[1..], le)
  }

  /** A stable sort: each element is inserted, from the last to the first, ahead of the elements it ties with. */
  function SortBy<T>(xs: seq<T>, le: (T, T) -> bool): (r: seq<T>)
    ensures multiset(r) == multiset(xs)
    ensures |r| == |xs|
  {
    if xs == [] then []
    else
      assert xs == [xs[0]] + xs[1..];
      Insert(xs[0], SortBy(xs[1..], le), le)
  }

  lemma {:induction false} InsertSorted<T(!new)>(x: T, xs: seq<T>, le: (T, T) -> bool)
    requires Total(le)
    requires SortedBy(xs, le)
    ensures SortedBy(Insert(x, xs, le), le)
    ensures Insert(x, xs, le)[0] == x || (xs != [] && Insert(x, xs, le)[0] == xs[0])
  {
    if xs != [] && !le(x, xs[0]) {
      assert le(xs[0], x);
      assert SortedBy(xs[1..], le) by {
        forall i | 0 <= i < |xs[1..]| - 1 ensures le(xs[1..][i], xs[1..][i + 1]) {
          assert xs[1..][i] == xs[i + 1] && xs[1..][i + 1] == xs[i + 2];
        }
      }
      InsertSorted(x, xs[1..], le);
    }
  }

  /** The result is ordered by `le` and is a permutation of the input. */
  lemma {:induction false} SortBySorts<T(!new)>(xs: seq<T>, le: (T, T) -> bool)
    requires Total(le)
    ensures SortedBy(SortBy(xs, le), le)
    ensures multiset(SortBy(xs, le)) == multiset(xs)
  {
    if xs != [] {
      SortBySorts(xs[1..], le);
      InsertSorted(xs[0], SortBy(xs[1..], le), le);
    }
  }

  // ---------------------------------------------------------------------------
  // The comparators
  // ---------------------------------------------------------------------------

  /** Code-point order on strings: `a.localeCompare(b) <= 0`. */
  predicate LexLe(a: string, b: string)
  {
    a == [] || (b != [] && (a[0] < b[0] || (a[0] == b[0] && LexLe(a[1..], b[1..]))))
  }

  lemma {:induction false} LexLeTotal(a: string, b: string)
    ensures LexLe(a, b) || LexLe(b, a)
  {
    if a != [] && b != [] && a[0] == b[0] {
      LexLeTotal(a[1..], b[1..]);
    }
  }

  predicate NameLe(a: MenuItem, b: MenuItem)
  {
    LexLe(a.name, b.name)
  }

  /** A tag that, lower-cased, contains "popular" or "seller". */
  predicate IsPopularTag(t: string)
  {
    Contains(ToLower(t), "popular") || Contains(ToLower(t), "seller")
  }

  /** `a.tags?.some(...) ?? false` */
  predicate IsPopular(item: MenuItem)
  {
    exists k | 0 <= k < |item.tags| :: IsPopularTag(item.tags[k])
  }

  /** The popularity comparator returns -1 or 0 exactly when `a` may come first: `a` is popular or `b` is not. */
  predicate PopularLe(a: MenuItem, b: MenuItem)
  {
    IsPopular(a) || !IsPopular(b)
  }

  lemma ComparatorsAreTotal()
    ensures Total(NameLe)
    ensures Total(PopularLe)
  {
    forall a: MenuItem, b: MenuItem ensures NameLe(a, b) || NameLe(b, a) {
      LexLeTotal(a.name, b.name);
    }
  }

  // ---------------------------------------------------------------------------
  // sortedItems
  // ---------------------------------------------------------------------------

  /** `sortedItems`: a sorted copy of `items` (the caller's list is a value and stays as it is). */
  function SortedItems(items: seq<MenuItem>, option: SortOption): (r: seq<MenuItem>)
    ensures multiset(r) == multiset(items)
  {
    match option
    case AToZ => SortBy(items, NameLe)
    case Popular => SortBy(items, PopularLe)
    case Default => items
  }

  /** 'a-z' orders the items by name; every option returns a permutation of the items. */
  lemma AToZSortsByName(items: seq<MenuItem>)
    ensures SortedBy(SortedItems(items, AToZ), NameLe)
  {
    ComparatorsAreTotal();
    SortBySorts(items, NameLe);
  }

  /** The popular items of `items` followed by the others, each group in its original order. */
  function PopularFirst(items: seq<MenuItem>): seq<MenuItem>
  {
    Filter(items, IsPopular) + Filter(items, NotPopular)
  }

  predicate NotPopular(item: MenuItem)
  {
    !IsPopular(item)
  }

  /**
   * 'popular' is exactly the stable partition: every popular item comes before
   * every other item, and within each group the original order is kept.
   */
  lemma {:induction false} PopularIsStablePartition(items: seq<MenuItem>)
    ensures SortedItems(items, Popular) == PopularFirst(items)
  {
    if items != [] {
      PopularIsStablePartition(items[1..]);
      PopularStep(items);
    }
  }

  /** One more item in front: it joins the front of its own group. */
  lemma PopularStep(items: seq<MenuItem>)
    requires items != []
    requires SortBy(items[1..], PopularLe) == PopularFirst(items[1..])
    ensures SortBy(items, PopularLe) == PopularFirst(items)
  {
    if IsPopular(items[0]) {
      PopularHeadStep(items);
    } else {
      OtherHeadStep(items);
    }
  }

  lemma PopularHeadStep(items: seq<MenuItem>)
    requires items != [] && IsPopular(items[0])
    requires SortBy(items[1..], PopularLe) == PopularFirst(items[1..])
    ensures SortBy(items, PopularLe) == PopularFirst(items)
  {
    var p := Filter(items[1..], IsPopular);
    var n := Filter(items[1..], NotPopular);
    FilterHead(items, IsPopular);
    FilterHead(items, NotPopular);
    assert Filter(items, IsPopular) == [items[0]] + p;
    assert Filter(items, NotPopular) == n;
    InsertPopular(items[0], p + n);
    ConsAssoc(items[0], p, n);
  }

  lemma OtherHeadStep(items: seq<MenuItem>)
    requires items != [] && !IsPopular(items[0])
    requires SortBy(items[1..], PopularLe) == PopularFirst(items[1..])
    ensures SortBy(items, PopularLe) == PopularFirst(items)
  {
    var p := Filter(items[1..], IsPopular);
    var n := Filter(items[1..], NotPopular);
    FilterHead(items, IsPopular);
    FilterHead(items, NotPopular);
    assert NotPopular(items[0]);
    assert Filter(items, IsPopular) == p;
    assert Filter(items, NotPopular) == [items[0]] + n;
    InsertAfterPopular(items[0], p, n);
  }

  /** A popular item goes to the front. */
  lemma InsertPopular(x: MenuItem, xs: seq<MenuItem>)
    requires IsPopular(x)
    ensures Insert(x, xs, PopularLe) == [x] + xs
  {
  }

  lemma ConsAssoc<T>(x: T, p: seq<T>, n: seq<T>)
    ensures [x] + (p + n) == ([x] + p) + n
  {
  }

  lemma FilterHead<T>(xs: seq<T>, p: T -> bool)
    requires xs != []
    ensures Filter(xs, p) == (if p(xs[0]) then [xs[0]] else []) + Filter(xs[1..], p)
  {
  }

  /** An item that is not popular goes after all popular ones and before the first other one. */
  lemma {:induction false} InsertAfterPopular(x: MenuItem, p: seq<MenuItem>, n: seq<MenuItem>)
    requires !IsPopular(x)
    requires forall i | 0 <= i < |p| :: IsPopular(p[i])
    requires forall i | 0 <= i < |n| :: NotPopular(n[i])
    ensures Insert(x, p + n, PopularLe) == p + ([x] + n)
  {
    if p == [] {
      assert p + n == n;
    } else {
      assert (p + n)[0] == p[0];
      assert (p + n)[1..] == p[1..] + n;
      InsertAfterPopular(x, p[1..], n);
    }
  }

  /** 'popular' puts every popular item ahead of every other item. */
  lemma PopularComesFirst(items: seq<MenuItem>, i: int, j: int)
    requires 0 <= i < |items| && 0 <= j < |items|
    requires IsPopular(SortedItems(items, Popular)[j]) && !IsPopular(SortedItems(items, Popular)[i])
    ensures j < i
  {
    PopularIsStablePartition(items);
  }

  lemma DefaultKeepsOrder(items: seq<MenuItem>)
    ensures SortedItems(items, Default) == items
  {
  }

  // ---------------------------------------------------------------------------
  // The empty state
  // ---------------------------------------------------------------------------

  /** The grid is rendered when `visibleKeys.length > 0 || visibleKeys.includes('all')`; otherwise "No items found". */
  predicate ShowsNoItems(visibleKeys: seq<string>)
  {
    !(|visibleKeys| > 0 || "all" in visibleKeys)
  }

  /** The second disjunct adds nothing: the empty state shows exactly when no key is visible. */
  lemma ShowsNoItemsIffEmpty(visibleKeys: seq<string>)
    ensures ShowsNoItems(visibleKeys) <==> visibleKeys == []
  {
  }
}
