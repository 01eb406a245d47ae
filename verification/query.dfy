/**
 * The two list transformations the aggregation engine applies to its result:
 * filterData keeps the items of one category (compared ignoring case), and
 * sortData orders the items by date or by category, ascending or descending,
 * with LINQ's stable OrderBy / OrderByDescending.
 */
module Query {
  import opened Wrappers
  import opened Text
  import opened Models

  // ---------------------------------------------------------------- filtering

  /** string.IsNullOrEmpty. */
  predicate IsNullOrEmpty(s: Option<string>)
  {
    s.None? || s.value == []
  }

  /** The item's category equals `category` under OrdinalIgnoreCase. */
  predicate HasCategory(x: AggregatedItem, category: string)
  {
    EqualsIgnoreCase(x.category, category)
  }

  /** `r` is `s` with some elements dropped and the rest in their original order. */
  predicate IsSubsequence(r: seq<AggregatedItem>, s: seq<AggregatedItem>)
    decreases |s|
  {
    if r == [] then true
    else if s == [] then false
    else (r[0] == s[0] && IsSubsequence(r[1..], s[1..])) || IsSubsequence(r, s[1..])
  }

  /** The Where clause: the items of `category`, in input order. Every item
      of that category is kept, as often as it occurs, and no other item. */
  function KeepCategory(items: seq<AggregatedItem>, category: string): (r: seq<AggregatedItem>)
    ensures IsSubsequence(r, items)
    ensures forall x :: x in r ==> HasCategory(x, category)
    ensures forall x :: multiset(r)[x] == if HasCategory(x, category) then multiset(items)[x] else 0
  {
    if items == [] then []
    else
      var rest := KeepCategory(items[1..], category);
      assert items == [items[0]] + items[1..];
      if HasCategory(items[0], category) then [items[0]] + rest else rest
  }

  /** filterData: no category (null or empty) keeps the list as it is;
      otherwise exactly the items of that category remain, in order. */
  function FilterData(category: Option<string>, items: seq<AggregatedItem>): (r: seq<AggregatedItem>)
    ensures IsNullOrEmpty(category) ==> r == items
    ensures !IsNullOrEmpty(category) ==>
              && IsSubsequence(r, items)
              && (forall x :: x in r ==> HasCategory(x, category.value))
              && (forall x :: multiset(r)[x] == if HasCategory(x, category.value) then multiset(items)[x] else 0)
  {
    if IsNullOrEmpty(category) then items else KeepCategory(items, category.value)
  }

  // ------------------------------------------------------------------ sorting

  /** The two keys sortData understands. */
  datatype SortKey = ByDate | ByCategory

  /** The key selector passed to OrderBy. */
  function KeyOf(x: AggregatedItem, key: SortKey): string
  {
    match key
    case ByDate => x.date
    case ByCategory => x.category
  }

  /** Key `a` sorts strictly before key `b` in the requested direction. */
  predicate Precedes(a: string, b: string, descending: bool)
  {
    if descending then Less(b, a) else Less(a, b)
  }

  /** No later element sorts strictly before an earlier one. */
  predicate Ordered(s: seq<AggregatedItem>, key: SortKey, descending: bool)
  {
    forall i, j :: 0 <= i < j < |s| ==> !Precedes(KeyOf(s[j], key), KeyOf(s[i], key), descending)
  }

  /** The elements of `s` whose key is `k`, in order. */
  function WithKey(s: seq<AggregatedItem>, key: SortKey, k: string): seq<AggregatedItem>
  {
    if s == [] then []
    else (if KeyOf(s[0], key) == k then [s[0]] else []) + WithKey(s[1..], key, k)
  }

  /** Stability: for every key value, the elements carrying it appear in `r`
      in the same order as in `s`. */
  ghost predicate Stable(r: seq<AggregatedItem>, s: seq<AggregatedItem>, key: SortKey)
  {
    forall k :: WithKey(r, key, k) == WithKey(s, key, k)
  }

  /** Puts `x` in front of the first element that does not sort strictly
      before it, so `x` comes before the elements whose key equals its own. */
  function Insert(x: AggregatedItem, s: seq<AggregatedItem>, key: SortKey, descending: bool): (r: seq<AggregatedItem>)
    ensures |r| == |s| + 1
    ensures r[0] == x || (s != [] && r[0] == s[0])
  {
    if s == [] || !Precedes(KeyOf(s[0], key), KeyOf(x, key), descending) then [x] + s
    else [s[0]] + Insert(x, s[1..], key, descending)
  }

  /** Inserting adds `x` and loses nothing. */
  lemma {:induction false} InsertPermutes(x: AggregatedItem, s: seq<AggregatedItem>, key: SortKey, descending: bool)
    ensures multiset(Insert(x, s, key, descending)) == multiset(s) + multiset{x}
  {
    if s != [] && Precedes(KeyOf(s[0], key), KeyOf(x, key), descending) {
      InsertPermutes(x, s[1..], key, descending);
      assert s == [s[0]] + s[1..];
    }
  }

  /** A stable sort: each element is inserted, front to back, into the sorted
      rest of the list. */
  function StableSort(s: seq<AggregatedItem>, key: SortKey, descending: bool): (r: seq<AggregatedItem>)
    ensures multiset(r) == multiset(s)
  {
    if s == [] then []
    else
      assert s == [s[0]] + s[1..];
      InsertPermutes(s[0], StableSort(s[1..], key, descending), key, descending);
      Insert(s[0], StableSort(s[1..], key, descending), key, descending)
  }

  /** "Does not sort after" is transitive. */
  lemma NotAfterTransitive(a: string, b: string, c: string, descending: bool)
    requires !Precedes(b, a, descending) && !Precedes(c, b, descending)
    ensures !Precedes(c, a, descending)
  {
    LessTotal(a, b);
    LessTotal(b, c);
    if descending {
      if Less(a, c) {
        if Less(b, a) { LessTransitive(b, a, c); LessIrreflexive(b); }
        if Less(c, b) { LessTransitive(a, c, b); LessIrreflexive(a); }
      }
    } else {
      if Less(c, a) {
        if Less(a, b) { LessTransitive(c, a, b); LessIrreflexive(c); }
        if Less(b, c) { LessTransitive(b, c, a); LessIrreflexive(b); }
      }
    }
  }

  /** Two keys cannot each sort strictly before the other. */
  lemma PrecedesAsymmetric(a: string, b: string, descending: bool)
    requires Precedes(a, b, descending)
    ensures !Precedes(b, a, descending)
  {
    if Precedes(b, a, descending) {
      if descending { LessTransitive(b, a, b); } else { LessTransitive(a, b, a); }
      LessIrreflexive(a);
      LessIrreflexive(b);
    }
  }

  /** Two keys neither of which sorts before the other are equal. */
  lemma PrecedesTotal(a: string, b: string, descending: bool)
    requires !Precedes(a, b, descending) && !Precedes(b, a, descending)
    ensures a == b
  {
    LessTotal(a, b);
  }

  /** An element that does not sort after the head of an ordered list can be
      put in front of it. */
  lemma ConsOrdered(x: AggregatedItem, s: seq<AggregatedItem>, key: SortKey, descending: bool)
    requires Ordered(s, key, descending)
    requires s != [] ==> !Precedes(KeyOf(s[0], key), KeyOf(x, key), descending)
    ensures Ordered([x] + s, key, descending)
  {
    var r := [x] + s;
    forall i, j | 0 <= i < j < |r|
      ensures !Precedes(KeyOf(r[j], key), KeyOf(r[i], key), descending)
    {
      if i == 0 && j > 1 {
        NotAfterTransitive(KeyOf(x, key), KeyOf(s[0], key), KeyOf(s[j - 1], key), descending);
      }
    }
  }

  lemma {:induction false} InsertOrdered(x: AggregatedItem, s: seq<AggregatedItem>, key: SortKey, descending: bool)
    requires Ordered(s, key, descending)
    ensures Ordered(Insert(x, s, key, descending), key, descending)
  {
    if s == [] || !Precedes(KeyOf(s[0], key), KeyOf(x, key), descending) {
      ConsOrdered(x, s, key, descending);
    } else {
      var rest := Insert(x, s[1..], key, descending);
      OrderedTail(s, key, descending);
      InsertOrdered(x, s[1..], key, descending);
      if rest[0] == x {
        PrecedesAsymmetric(KeyOf(s[0], key), KeyOf(x, key), descending);
      } else {
        assert rest[0] == s[1];
      }
      ConsOrdered(s[0], rest, key, descending);
    }
  }

  lemma {:induction false} StableSortOrdered(s: seq<AggregatedItem>, key: SortKey, descending: bool)
    ensures Ordered(StableSort(s, key, descending), key, descending)
  {
    if s != [] {
      StableSortOrdered(s[1..], key, descending);
      InsertOrdered(s[0], StableSort(s[1..], key, descending), key, descending);
    }
  }

  /** Inserting `x` puts it first among the elements that share its key and
      does not reorder any key's elements. */
  lemma {:induction false} InsertWithKey(x: AggregatedItem, s: seq<AggregatedItem>, key: SortKey, descending: bool, k: string)
    ensures WithKey(Insert(x, s, key, descending), key, k) ==
            (if KeyOf(x, key) == k then [x] else []) + WithKey(s, key, k)
  {
    if s == [] || !Precedes(KeyOf(s[0], key), KeyOf(x, key), descending) {
      assert Insert(x, s, key, descending) == [x] + s;
      WithKeyCons(x, s, key, k);
    } else {
      var rest := Insert(x, s[1..], key, descending);
      assert Insert(x, s, key, descending) == [s[0]] + rest;
      assert s == [s[0]] + s[1..];
      WithKeyCons(s[0], rest, key, k);
      WithKeyCons(s[0], s[1..], key, k);
      InsertWithKey(x, s[1..], key, descending, k);
      if KeyOf(x, key) == k {
        // s[0] sorts strictly before x, so it does not carry x's key
        LessIrreflexive(k);
        assert KeyOf(s[0], key) != k;
        assert WithKey(s, key, k) == WithKey(s[1..], key, k);
      } else {
        assert WithKey(rest, key, k) == WithKey(s[1..], key, k);
      }
    }
  }

  lemma WithKeyCons(y: AggregatedItem, s: seq<AggregatedItem>, key: SortKey, k: string)
    ensures WithKey([y] + s, key, k) == (if KeyOf(y, key) == k then [y] else []) + WithKey(s, key, k)
  {
    assert ([y] + s)[1..] == s;
  }

  lemma {:induction false} StableSortStable(s: seq<AggregatedItem>, key: SortKey, descending: bool)
    ensures Stable(StableSort(s, key, descending), s, key)
  {
    forall k ensures WithKey(StableSort(s, key, descending), key, k) == WithKey(s, key, k) {
      StableSortWithKey(s, key, descending, k);
    }
  }

  lemma {:induction false} StableSortWithKey(s: seq<AggregatedItem>, key: SortKey, descending: bool, k: string)
    ensures WithKey(StableSort(s, key, descending), key, k) == WithKey(s, key, k)
  {
    if s != [] {
      StableSortWithKey(s[1..], key, descending, k);
      InsertWithKey(s[0], StableSort(s[1..], key, descending), key, descending, k);
    }
  }

  /** In two ordered permutations of each other the first elements share
      their key. */
  lemma FirstKeysAgree(a: seq<AggregatedItem>, b: seq<AggregatedItem>, key: SortKey, descending: bool)
    requires multiset(a) == multiset(b) && a != [] && b != []
    requires Ordered(a, key, descending) && Ordered(b, key, descending)
    ensures KeyOf(a[0], key) == KeyOf(b[0], key)
  {
    var ka, kb := KeyOf(a[0], key), KeyOf(b[0], key);
    assert a[0] in multiset(b);
    var j :| 0 <= j < |b| && b[j] == a[0];
    assert b[0] in multiset(a);
    var i :| 0 <= i < |a| && a[i] == b[0];
    assert !Precedes(ka, kb, descending) by {
      if j > 0 { assert !Precedes(KeyOf(b[j], key), KeyOf(b[0], key), descending); }
      else { LessIrreflexive(ka); }
    }
    assert !Precedes(kb, ka, descending) by {
      if i > 0 { assert !Precedes(KeyOf(a[i], key), KeyOf(a[0], key), descending); }
      else { LessIrreflexive(ka); }
    }
    PrecedesTotal(ka, kb, descending);
  }

  /** The elements of a list whose key is that of its first element start
      with that element. */
  lemma WithKeyOfFirst(s: seq<AggregatedItem>, key: SortKey)
    requires s != []
    ensures WithKey(s, key, KeyOf(s[0], key)) == [s[0]] + WithKey(s[1..], key, KeyOf(s[0], key))
  {
  }

  /** Two lists that agree on the order of every key's elements, and whose
      first elements share a key, start with the same element. */
  lemma FirstElementsAgree(a: seq<AggregatedItem>, b: seq<AggregatedItem>, key: SortKey)
    requires a != [] && b != [] && KeyOf(a[0], key) == KeyOf(b[0], key)
    requires Stable(a, b, key)
    ensures a[0] == b[0]
  {
    var k0 := KeyOf(a[0], key);
    WithKeyOfFirst(a, key);
    WithKeyOfFirst(b, key);
    assert WithKey(a, key, k0) == WithKey(b, key, k0);
    assert WithKey(a, key, k0)[0] == a[0];
  }

  lemma OrderedTail(s: seq<AggregatedItem>, key: SortKey, descending: bool)
    requires s != [] && Ordered(s, key, descending)
    ensures Ordered(s[1..], key, descending)
  {
    forall i, j | 0 <= i < j < |s| - 1
      ensures !Precedes(KeyOf(s[1..][j], key), KeyOf(s[1..][i], key), descending)
    {
      assert s[1..][j] == s[j + 1] && s[1..][i] == s[i + 1];
    }
  }

  /** Dropping a common first element keeps two lists in agreement. */
  lemma StableTail(a: seq<AggregatedItem>, b: seq<AggregatedItem>, key: SortKey)
    requires a != [] && b != [] && a[0] == b[0]
    requires Stable(a, b, key)
    ensures Stable(a[1..], b[1..], key)
  {
    forall k ensures WithKey(a[1..], key, k) == WithKey(b[1..], key, k) {
      var p := if KeyOf(a[0], key) == k then [a[0]] else [];
      assert WithKey(a, key, k) == p + WithKey(a[1..], key, k);
      assert WithKey(b, key, k) == p + WithKey(b[1..], key, k);
      assert WithKey(a[1..], key, k) == WithKey(a, key, k)[|p|..];
      assert WithKey(b[1..], key, k) == WithKey(b, key, k)[|p|..];
    }
  }

  /** Ordering and stability pin the result down: two permutations of each
      other that are both ordered and agree on the order of every key's
      elements are the same list. */
  lemma {:induction false} OrderedStableUnique(a: seq<AggregatedItem>, b: seq<AggregatedItem>, key: SortKey, descending: bool)
    requires multiset(a) == multiset(b)
    requires Ordered(a, key, descending) && Ordered(b, key, descending)
    requires Stable(a, b, key)
    ensures a == b
  {
    if a == [] {
      assert |b| == |multiset(b)| == 0;
    } else {
      assert |b| == |multiset(b)| == |a| > 0;
      FirstKeysAgree(a, b, key, descending);
      FirstElementsAgree(a, b, key);
      assert a == [a[0]] + a[1..] && b == [b[0]] + b[1..];
      assert multiset(a[1..]) == multiset(a) - multiset{a[0]};
      assert multiset(b[1..]) == multiset(b) - multiset{b[0]};
      OrderedTail(a, key, descending);
      OrderedTail(b, key, descending);
      StableTail(a, b, key);
      OrderedStableUnique(a[1..], b[1..], key, descending);
    }
  }

  /** The sort key named by `sortBy`, compared after lower-casing; none for a
      null or unrecognised name. */
  function SortKeyOf(sortBy: Option<string>): (k: Option<SortKey>)
    ensures k == Some(ByDate) <==> sortBy.Some? && ToLower(sortBy.value) == "date"
    ensures k == Some(ByCategory) <==> sortBy.Some? && ToLower(sortBy.value) == "category"
  {
    if sortBy.None? then None
    else if ToLower(sortBy.value) == "date" then Some(ByDate)
    else if ToLower(sortBy.value) == "category" then Some(ByCategory)
    else None
  }

  /** The order is descending exactly when `sortOrder` lower-cases to "desc". */
  predicate IsDescending(sortOrder: string)
  {
    ToLower(sortOrder) == "desc"
  }

  /** sortData: a recognised key gives a stable sort in the requested
      direction, anything else returns the list as it is. */
  function SortData(items: seq<AggregatedItem>, sortBy: Option<string>, sortOrder: string): (r: seq<AggregatedItem>)
    ensures multiset(r) == multiset(items)
    ensures SortKeyOf(sortBy).None? ==> r == items
    ensures SortKeyOf(sortBy).Some? ==>
              && Ordered(r, SortKeyOf(sortBy).value, IsDescending(sortOrder))
              && Stable(r, items, SortKeyOf(sortBy).value)
  {
    match SortKeyOf(sortBy)
    case None => items
    case Some(key) =>
      StableSortOrdered(items, key, IsDescending(sortOrder));
      StableSortStable(items, key, IsDescending(sortOrder));
      StableSort(items, key, IsDescending(sortOrder))
  }

  /** Any ordered, stable permutation of the input is what sortData returns:
      its contract determines the result completely. */
  lemma SortDataUnique(items: seq<AggregatedItem>, sortBy: Option<string>, sortOrder: string, r: seq<AggregatedItem>)
    requires SortKeyOf(sortBy).Some?
    requires multiset(r) == multiset(items)
    requires Ordered(r, SortKeyOf(sortBy).value, IsDescending(sortOrder))
    requires Stable(r, items, SortKeyOf(sortBy).value)
    ensures r == SortData(items, sortBy, sortOrder)
  {
    var key, descending := SortKeyOf(sortBy).value, IsDescending(sortOrder);
    var s := SortData(items, sortBy, sortOrder);
    forall k ensures WithKey(r, key, k) == WithKey(s, key, k) {
      assert WithKey(r, key, k) == WithKey(items, key, k);
    }
    OrderedStableUnique(r, s, key, descending);
  }

  /** A list already in the requested order comes back unchanged. */
  lemma SortDataOrderedInput(items: seq<AggregatedItem>, sortBy: Option<string>, sortOrder: string)
    requires SortKeyOf(sortBy).Some?
    requires Ordered(items, SortKeyOf(sortBy).value, IsDescending(sortOrder))
    ensures SortData(items, sortBy, sortOrder) == items
  {
    SortDataUnique(items, sortBy, sortOrder, items);
  }

  /** Sorting twice the same way is sorting once. */
  lemma SortDataIdempotent(items: seq<AggregatedItem>, sortBy: Option<string>, sortOrder: string)
    ensures SortData(SortData(items, sortBy, sortOrder), sortBy, sortOrder) == SortData(items, sortBy, sortOrder)
  {
    if SortKeyOf(sortBy).Some? {
      SortDataOrderedInput(SortData(items, sortBy, sortOrder), sortBy, sortOrder);
    }
  }

  /** Descending order is not the reverse of ascending order: a list whose
      items all share the sort key comes back unchanged in both directions. */
  lemma SortDataAllTied(items: seq<AggregatedItem>, sortBy: Option<string>, sortOrder: string)
    requires SortKeyOf(sortBy).Some? && items != []
    requires forall i :: 0 <= i < |items| ==>
               KeyOf(items[i], SortKeyOf(sortBy).value) == KeyOf(items[0], SortKeyOf(sortBy).value)
    ensures SortData(items, sortBy, sortOrder) == items
  {
    LessIrreflexive(KeyOf(items[0], SortKeyOf(sortBy).value));
    SortDataOrderedInput(items, sortBy, sortOrder);
  }
}
