/** The sorted list behind the search-result adapter, as a value: a sequence
    kept sorted by a Java `Comparator` and holding at most one item per
    identifier (the list's `areItemsTheSame` test). Adding an item whose
    identifier is already held replaces the held item. */
module SortedLists {

  // ---------------------------------------------------------------------------
  // Ordering and identity

  /** The `Comparator` contract: the sign of `compare(a, b)` is the opposite of
      that of `compare(b, a)`, and "not greater" is transitive. */
  ghost predicate IsComparator<T(!new)>(compare: (T, T) -> int) {
    (forall a, b :: compare(a, b) < 0 <==> compare(b, a) > 0)
    && (forall a, b, c :: compare(a, b) <= 0 && compare(b, c) <= 0 ==> compare(a, c) <= 0)
  }

  /** A comparator that breaks every tie by identifier: only items with the
      same identifier compare as equal. */
  ghost predicate TiesBrokenById<T(!new)>(compare: (T, T) -> int, idOf: T -> string) {
    forall a, b :: compare(a, b) == 0 ==> idOf(a) == idOf(b)
  }

  ghost predicate Sorted<T(!new)>(s: seq<T>, compare: (T, T) -> int) {
    forall i, j :: 0 <= i < j < |s| ==> compare(s[i], s[j]) <= 0
  }

  ghost predicate UniqueIds<T(!new)>(s: seq<T>, idOf: T -> string) {
    forall i, j :: 0 <= i < j < |s| ==> idOf(s[i]) != idOf(s[j])
  }

  /** The identifiers of the items of `xs`. */
  function Ids<T(==,!new)>(xs: seq<T>, idOf: T -> string): set<string> {
    set x | x in xs :: idOf(x)
  }

  /** Java's `List.contains(e)` for a list of models: some element `m` of
      `models` has `e.equals(m)`. */
  predicate Contains<T(==,!new)>(models: seq<T>, e: T, equal: (T, T) -> bool)
    ensures Contains(models, e, equal) <==> exists m :: m in models && equal(e, m)
    ensures models == [] ==> !Contains(models, e, equal)
  {
    exists k :: 0 <= k < |models| && equal(e, models[k])
  }

  // ---------------------------------------------------------------------------
  // Operations

  /** The items of `s` that `keep` accepts, in their order. */
  function Filter<T(==,!new)>(s: seq<T>, keep: T -> bool): (r: seq<T>)
    ensures forall x :: x in r <==> x in s && keep(x)
    ensures |r| <= |s|
  {
    if s == [] then []
    else (if keep(s[0]) then [s[0]] else []) + Filter(s[1..], keep)
  }

  /** Accepts the items whose identifier is not in `ids`. */
  function IdNotIn<T(!new)>(idOf: T -> string, ids: set<string>): T -> bool {
    x => idOf(x) !in ids
  }

  /** Accepts the items that `models` contains. */
  function ContainedIn<T(==,!new)>(models: seq<T>, equal: (T, T) -> bool): T -> bool {
    e => Contains(models, e, equal)
  }

  /** The items of `s` whose identifier is not in `ids`. */
  function WithoutIds<T(==,!new)>(s: seq<T>, idOf: T -> string, ids: set<string>): (r: seq<T>)
    ensures forall x :: x in r <==> x in s && idOf(x) !in ids
  {
    Filter(s, IdNotIn(idOf, ids))
  }

  /** `x` placed after every item that does not compare greater than it. */
  function Insert<T(==,!new)>(s: seq<T>, x: T, compare: (T, T) -> int): (r: seq<T>)
    ensures multiset(r) == multiset(s) + multiset{x}
    ensures forall y :: y in r <==> y in s || y == x
  {
    if s == [] then [x]
    else if compare(x, s[0]) < 0 then [x] + s
    else
      assert s == [s[0]] + s[1..];
      [s[0]] + Insert(s[1..], x, compare)
  }

  /** `SortedList.add(x)`: the held item with `x`'s identifier, if any, gives
      way to `x`, which goes to its sorted position. */
  function Added<T(==,!new)>(s: seq<T>, x: T, idOf: T -> string, compare: (T, T) -> int): (r: seq<T>)
    ensures forall e :: e in r <==> (e in s && idOf(e) != idOf(x)) || e == x
  {
    Insert(WithoutIds(s, idOf, {idOf(x)}), x, compare)
  }

  /** The items of `xs` that no later item of `xs` displaces: for each
      identifier, the last item carrying it. */
  function Latest<T(==,!new)>(xs: seq<T>, idOf: T -> string): (r: set<T>)
    ensures forall e :: e in r ==> e in xs
    decreases |xs|
  {
    if xs == [] then {}
    else
      var last := xs[|xs| - 1];
      (set y | y in Latest(xs[..|xs| - 1], idOf) && idOf(y) != idOf(last)) + {last}
  }

  /** `SortedList.addAll(xs)`: the items of `xs` added one after the other. */
  function AddAll<T(==,!new)>(s: seq<T>, xs: seq<T>, idOf: T -> string, compare: (T, T) -> int): (r: seq<T>)
    ensures forall e :: e in r <==> (e in s && idOf(e) !in Ids(xs, idOf)) || e in Latest(xs, idOf)
    decreases |xs|
  {
    if xs == [] then s
    else
      var init, last := xs[..|xs| - 1], xs[|xs| - 1];
      assert xs == init + [last];
      IdsSnoc(init, last, idOf);
      Added(AddAll(s, init, idOf, compare), last, idOf, compare)
  }

  /** `SortedList.remove(x)` applied to each item of `xs` in turn. */
  function RemoveEach<T(==,!new)>(s: seq<T>, xs: seq<T>, idOf: T -> string): (r: seq<T>)
    ensures forall e :: e in r <==> e in s && idOf(e) !in Ids(xs, idOf)
    decreases |xs|
  {
    if xs == [] then s
    else
      var init, last := xs[..|xs| - 1], xs[|xs| - 1];
      assert xs == init + [last];
      IdsSnoc(init, last, idOf);
      WithoutIds(RemoveEach(s, init, idOf), idOf, {idOf(last)})
  }

  /** The adapter's `replaceAll(models)`: keep the held items that `models`
      contains, then add all of `models`. */
  function ReplaceAll<T(==,!new)>(s: seq<T>, models: seq<T>, idOf: T -> string, compare: (T, T) -> int,
                         equal: (T, T) -> bool): (r: seq<T>)
    ensures forall e :: e in r <==>
              (e in s && Contains(models, e, equal) && idOf(e) !in Ids(models, idOf))
              || e in Latest(models, idOf)
  {
    AddAll(Filter(s, ContainedIn(models, equal)), models, idOf, compare)
  }

  // ---------------------------------------------------------------------------
  // Helper facts

  lemma IdsSnoc<T(!new)>(init: seq<T>, last: T, idOf: T -> string)
    ensures Ids(init + [last], idOf) == Ids(init, idOf) + {idOf(last)}
  {
    var xs := init + [last];
    forall i | i in Ids(xs, idOf) ensures i in Ids(init, idOf) + {idOf(last)} {
      var x :| x in xs && idOf(x) == i;
    }
    forall i | i in Ids(init, idOf) + {idOf(last)} ensures i in Ids(xs, idOf) {
      if i != idOf(last) {
        var x :| x in init && idOf(x) == i;
        assert x in xs;
      } else {
        assert last in xs;
      }
    }
  }

  lemma {:induction false} SortedCons<T(!new)>(x: T, t: seq<T>, compare: (T, T) -> int)
    ensures Sorted([x] + t, compare) <==> Sorted(t, compare) && forall y :: y in t ==> compare(x, y) <= 0
  {
    var s := [x] + t;
    if Sorted(t, compare) && forall y :: y in t ==> compare(x, y) <= 0 {
      forall i, j | 0 <= i < j < |s| ensures compare(s[i], s[j]) <= 0 {
        if i == 0 {
          assert s[j] == t[j - 1];
        } else {
          assert s[i] == t[i - 1] && s[j] == t[j - 1];
        }
      }
    }
    if Sorted(s, compare) {
      forall i, j | 0 <= i < j < |t| ensures compare(t[i], t[j]) <= 0 {
        assert t[i] == s[i + 1] && t[j] == s[j + 1];
      }
      forall y | y in t ensures compare(x, y) <= 0 {
        var j :| 0 <= j < |t| && t[j] == y;
        assert s[0] == x && s[j + 1] == y;
        assert compare(s[0], s[j + 1]) <= 0;
      }
    }
  }

  lemma {:induction false} UniqueCons<T(!new)>(x: T, t: seq<T>, idOf: T -> string)
    ensures UniqueIds([x] + t, idOf) <==> UniqueIds(t, idOf) && idOf(x) !in Ids(t, idOf)
  {
    var s := [x] + t;
    if UniqueIds(t, idOf) && idOf(x) !in Ids(t, idOf) {
      forall i, j | 0 <= i < j < |s| ensures idOf(s[i]) != idOf(s[j]) {
        assert s[j] == t[j - 1];
        if i > 0 {
          assert s[i] == t[i - 1];
        } else {
          assert t[j - 1] in t;
        }
      }
    }
    if UniqueIds(s, idOf) {
      forall i, j | 0 <= i < j < |t| ensures idOf(t[i]) != idOf(t[j]) {
        assert t[i] == s[i + 1] && t[j] == s[j + 1];
      }
      forall y | y in t ensures idOf(y) != idOf(x) {
        var j :| 0 <= j < |t| && t[j] == y;
        assert s[0] == x && s[j + 1] == y;
      }
    }
  }

  lemma InIds<T(!new)>(xs: seq<T>, x: T, idOf: T -> string)
    requires x in xs
    ensures idOf(x) in Ids(xs, idOf)
  {
  }

  /** Some element of a non-empty sequence: the witness that lets a proof
      reach a contradiction without indexing under contradictory facts. */
  lemma MemberOf<T>(s: seq<T>) returns (x: T)
    requires s != []
    ensures x in s
  {
    x := s[0];
  }

  lemma NoMembersMeansEmpty<T(!new)>(s: seq<T>)
    requires forall x :: x !in s
    ensures s == []
  {
    if s != [] {
      var x := MemberOf(s);
      assert false;
    }
  }

  /** A comparator puts every item level with itself. */
  lemma CompareSelf<T(!new)>(compare: (T, T) -> int, x: T)
    requires IsComparator(compare)
    ensures compare(x, x) == 0
  {
    assert compare(x, x) < 0 <==> compare(x, x) > 0;
  }

  // ---------------------------------------------------------------------------
  // Each operation keeps the list sorted and free of repeated identifiers

  lemma {:induction false} FilterKeepsSorted<T(!new)>(s: seq<T>, keep: T -> bool, compare: (T, T) -> int)
    requires Sorted(s, compare)
    ensures Sorted(Filter(s, keep), compare)
  {
    if s != [] {
      assert s == [s[0]] + s[1..];
      SortedCons(s[0], s[1..], compare);
      FilterKeepsSorted(s[1..], keep, compare);
      if keep(s[0]) {
        SortedCons(s[0], Filter(s[1..], keep), compare);
      }
    }
  }

  lemma {:induction false} FilterKeepsUniqueIds<T(!new)>(s: seq<T>, keep: T -> bool, idOf: T -> string)
    requires UniqueIds(s, idOf)
    ensures UniqueIds(Filter(s, keep), idOf)
  {
    if s != [] {
      assert s == [s[0]] + s[1..];
      UniqueCons(s[0], s[1..], idOf);
      FilterKeepsUniqueIds(s[1..], keep, idOf);
      if keep(s[0]) {
        UniqueCons(s[0], Filter(s[1..], keep), idOf);
      }
    }
  }

  lemma {:induction false} InsertKeepsSorted<T(!new)>(s: seq<T>, x: T, compare: (T, T) -> int)
    requires IsComparator(compare) && Sorted(s, compare)
    ensures Sorted(Insert(s, x, compare), compare)
  {
    if s == [] {
    } else {
      assert s == [s[0]] + s[1..];
      SortedCons(s[0], s[1..], compare);
      if compare(x, s[0]) < 0 {
        CompareSelf(compare, s[0]);
        SortedCons(x, s, compare);
      } else {
        InsertKeepsSorted(s[1..], x, compare);
        SortedCons(s[0], Insert(s[1..], x, compare), compare);
      }
    }
  }

  lemma {:induction false} InsertKeepsUniqueIds<T(!new)>(s: seq<T>, x: T, compare: (T, T) -> int, idOf: T -> string)
    requires UniqueIds(s, idOf) && idOf(x) !in Ids(s, idOf)
    ensures UniqueIds(Insert(s, x, compare), idOf)
  {
    if s == [] {
    } else {
      assert s == [s[0]] + s[1..];
      UniqueCons(s[0], s[1..], idOf);
      if compare(x, s[0]) < 0 {
        UniqueCons(x, s, idOf);
      } else {
        assert Ids(s[1..], idOf) <= Ids(s, idOf);
        InsertKeepsUniqueIds(s[1..], x, compare, idOf);
        UniqueCons(s[0], Insert(s[1..], x, compare), idOf);
        assert x in s || idOf(s[0]) != idOf(x);
      }
    }
  }

  lemma AddedKeepsInvariant<T(!new)>(s: seq<T>, x: T, idOf: T -> string, compare: (T, T) -> int)
    requires IsComparator(compare) && Sorted(s, compare) && UniqueIds(s, idOf)
    ensures Sorted(Added(s, x, idOf, compare), compare)
    ensures UniqueIds(Added(s, x, idOf, compare), idOf)
  {
    var rest := WithoutIds(s, idOf, {idOf(x)});
    FilterKeepsSorted(s, IdNotIn(idOf, {idOf(x)}), compare);
    FilterKeepsUniqueIds(s, IdNotIn(idOf, {idOf(x)}), idOf);
    InsertKeepsSorted(rest, x, compare);
    InsertKeepsUniqueIds(rest, x, compare, idOf);
  }

  lemma {:induction false} AddAllKeepsInvariant<T(!new)>(s: seq<T>, xs: seq<T>, idOf: T -> string, compare: (T, T) -> int)
    requires IsComparator(compare) && Sorted(s, compare) && UniqueIds(s, idOf)
    ensures Sorted(AddAll(s, xs, idOf, compare), compare)
    ensures UniqueIds(AddAll(s, xs, idOf, compare), idOf)
    decreases |xs|
  {
    if xs != [] {
      AddAllKeepsInvariant(s, xs[..|xs| - 1], idOf, compare);
      AddedKeepsInvariant(AddAll(s, xs[..|xs| - 1], idOf, compare), xs[|xs| - 1], idOf, compare);
    }
  }

  // ---------------------------------------------------------------------------
  // Removal

  /** On a list with distinct identifiers, removing the item at index `i`
      by its identifier removes exactly that index. */
  lemma {:induction false} RemoveHeldAt<T(!new)>(s: seq<T>, i: nat, idOf: T -> string)
    requires i < |s| && UniqueIds(s, idOf)
    ensures WithoutIds(s, idOf, {idOf(s[i])}) == s[..i] + s[i + 1..]
  {
    var keep := IdNotIn(idOf, {idOf(s[i])});
    assert s == [s[0]] + s[1..];
    UniqueCons(s[0], s[1..], idOf);
    if i == 0 {
      FilterKeepsAll(s[1..], keep);
    } else {
      assert s[1..][i - 1] == s[i];
      RemoveHeldAt(s[1..], i - 1, idOf);
      assert s[1..][..i - 1] + s[1..][i..] == s[1..i] + s[i + 1..];
      assert s[..i] + s[i + 1..] == [s[0]] + (s[1..i] + s[i + 1..]);
    }
  }

  lemma {:induction false} FilterKeepsAll<T(!new)>(s: seq<T>, keep: T -> bool)
    requires forall x :: x in s ==> keep(x)
    ensures Filter(s, keep) == s
  {
    if s != [] {
      assert s == [s[0]] + s[1..];
      FilterKeepsAll(s[1..], keep);
    }
  }

  /** Filtering from index `i` on decides `s[i]`, then filters the rest. */
  lemma FilterFrom<T(!new)>(s: seq<T>, i: nat, keep: T -> bool)
    requires i < |s|
    ensures Filter(s[i..], keep) == (if keep(s[i]) then [s[i]] else []) + Filter(s[i + 1..], keep)
  {
    assert s[i..][1..] == s[i + 1..];
  }

  /** One step of `replaceAll`'s downward walk, when the item at `i` is kept:
      with the items after `i` already filtered, the filtered suffix now
      starts at `i`. */
  lemma EvictionKeeps<T(!new)>(start: seq<T>, i: nat, keep: T -> bool, items: seq<T>)
    requires i < |start| && items == start[..i + 1] + Filter(start[i + 1..], keep)
    requires keep(start[i])
    ensures items == start[..i] + Filter(start[i..], keep)
  {
    FilterFrom(start, i, keep);
    assert start[..i + 1] == start[..i] + [start[i]];
  }

  /** The same step when the item at `i` is removed by its identifier. */
  lemma EvictionRemoves<T(!new)>(start: seq<T>, i: nat, keep: T -> bool, items: seq<T>, idOf: T -> string)
    requires i < |start| && items == start[..i + 1] + Filter(start[i + 1..], keep)
    requires UniqueIds(items, idOf) && !keep(start[i])
    ensures i < |items| && items[i] == start[i]
    ensures WithoutIds(items, idOf, {idOf(start[i])}) == start[..i] + Filter(start[i..], keep)
  {
    FilterFrom(start, i, keep);
    RemoveHeldAt(items, i, idOf);
    assert items[..i] == start[..i] && items[i + 1..] == Filter(start[i + 1..], keep);
  }

  lemma {:induction false} FilterTwice<T(!new)>(s: seq<T>, p: T -> bool, q: T -> bool, pq: T -> bool)
    requires forall x :: pq(x) == (p(x) && q(x))
    ensures Filter(Filter(s, p), q) == Filter(s, pq)
  {
    if s != [] {
      assert s == [s[0]] + s[1..];
      FilterTwice(s[1..], p, q, pq);
      var head := if p(s[0]) then [s[0]] else [];
      assert Filter(s, p) == head + Filter(s[1..], p);
      FilterAppend(head, Filter(s[1..], p), q);
    }
  }

  lemma {:induction false} FilterAppend<T(!new)>(a: seq<T>, b: seq<T>, keep: T -> bool)
    ensures Filter(a + b, keep) == Filter(a, keep) + Filter(b, keep)
  {
    if a != [] {
      assert a + b == [a[0]] + (a[1..] + b);
      FilterAppend(a[1..], b, keep);
    } else {
      assert a + b == b;
    }
  }

  /** `remove(xs)` removes exactly the held items whose identifier occurs in
      `xs`, and keeps the order of the others. */
  lemma {:induction false} RemoveEachIsWithoutIds<T(!new)>(s: seq<T>, xs: seq<T>, idOf: T -> string)
    ensures RemoveEach(s, xs, idOf) == WithoutIds(s, idOf, Ids(xs, idOf))
    decreases |xs|
  {
    if xs == [] {
      FilterKeepsAll(s, IdNotIn(idOf, Ids(xs, idOf)));
    } else {
      var init, last := xs[..|xs| - 1], xs[|xs| - 1];
      assert xs == init + [last];
      IdsSnoc(init, last, idOf);
      RemoveEachIsWithoutIds(s, init, idOf);
      FilterTwice(s, IdNotIn(idOf, Ids(init, idOf)), IdNotIn(idOf, {idOf(last)}),
                  IdNotIn(idOf, Ids(xs, idOf)));
    }
  }

  lemma RemoveEachKeepsInvariant<T(!new)>(s: seq<T>, xs: seq<T>, idOf: T -> string, compare: (T, T) -> int)
    requires Sorted(s, compare) && UniqueIds(s, idOf)
    ensures Sorted(RemoveEach(s, xs, idOf), compare) && UniqueIds(RemoveEach(s, xs, idOf), idOf)
  {
    RemoveEachIsWithoutIds(s, xs, idOf);
    FilterKeepsSorted(s, IdNotIn(idOf, Ids(xs, idOf)), compare);
    FilterKeepsUniqueIds(s, IdNotIn(idOf, Ids(xs, idOf)), idOf);
  }

  // ---------------------------------------------------------------------------
  // What `replaceAll` leaves behind

  /** Every identifier of `xs` has a last item carrying it. */
  lemma {:induction false} LatestFor<T(!new)>(xs: seq<T>, x: T, idOf: T -> string) returns (y: T)
    requires x in xs
    ensures y in Latest(xs, idOf) && idOf(y) == idOf(x)
    decreases |xs|
  {
    var init, last := xs[..|xs| - 1], xs[|xs| - 1];
    assert xs == init + [last];
    if idOf(x) == idOf(last) {
      y := last;
    } else {
      assert x in init;
      y := LatestFor(init, x, idOf);
    }
  }

  /** After `addAll(xs)` every identifier of `xs` is held. */
  lemma AddAllHoldsEveryId<T(!new)>(s: seq<T>, xs: seq<T>, idOf: T -> string, compare: (T, T) -> int)
    ensures Ids(xs, idOf) <= Ids(AddAll(s, xs, idOf, compare), idOf)
  {
    forall i | i in Ids(xs, idOf) ensures i in Ids(AddAll(s, xs, idOf, compare), idOf) {
      var x :| x in xs && idOf(x) == i;
      var y := LatestFor(xs, x, idOf);
      InIds(AddAll(s, xs, idOf, compare), y, idOf);
    }
  }

  /** After `replaceAll(models)` every identifier of `models` is held. */
  lemma ReplaceAllHoldsEveryId<T(!new)>(s: seq<T>, models: seq<T>, idOf: T -> string, compare: (T, T) -> int,
                                        equal: (T, T) -> bool)
    ensures Ids(models, idOf) <= Ids(ReplaceAll(s, models, idOf, compare, equal), idOf)
  {
    AddAllHoldsEveryId(Filter(s, ContainedIn(models, equal)), models, idOf, compare);
  }

  /** When `equals` implies equal identifiers, every item held after
      `replaceAll(models)` comes from `models`. */
  lemma ReplaceAllHoldsOnlyModels<T(!new)>(s: seq<T>, models: seq<T>, idOf: T -> string, compare: (T, T) -> int,
                                           equal: (T, T) -> bool)
    requires forall a, b :: equal(a, b) ==> idOf(a) == idOf(b)
    ensures forall e :: e in ReplaceAll(s, models, idOf, compare, equal) ==> e in models
  {
    var r := ReplaceAll(s, models, idOf, compare, equal);
    forall e | e in r ensures e in models {
      if e !in Latest(models, idOf) {
        assert false;
      }
    }
  }

  lemma ReplaceAllWithNothing<T(!new)>(s: seq<T>, idOf: T -> string, compare: (T, T) -> int, equal: (T, T) -> bool)
    ensures ReplaceAll(s, [], idOf, compare, equal) == []
  {
    NoMembersMeansEmpty(Filter(s, ContainedIn([], equal)));
  }

  lemma ReplaceAllKeepsInvariant<T(!new)>(s: seq<T>, models: seq<T>, idOf: T -> string, compare: (T, T) -> int,
                                    equal: (T, T) -> bool)
    requires IsComparator(compare) && Sorted(s, compare) && UniqueIds(s, idOf)
    ensures Sorted(ReplaceAll(s, models, idOf, compare, equal), compare)
    ensures UniqueIds(ReplaceAll(s, models, idOf, compare, equal), idOf)
  {
    var keep := ContainedIn(models, equal);
    FilterKeepsSorted(s, keep, compare);
    FilterKeepsUniqueIds(s, keep, idOf);
    AddAllKeepsInvariant(Filter(s, keep), models, idOf, compare);
  }

  /** Two sorted lists with distinct identifiers and the same items are the same
      list, when the comparator breaks ties by identifier. */
  lemma {:induction false} SortedListDetermined<T(!new)>(a: seq<T>, b: seq<T>, compare: (T, T) -> int, idOf: T -> string)
    requires IsComparator(compare) && TiesBrokenById(compare, idOf)
    requires Sorted(a, compare) && UniqueIds(a, idOf) && Sorted(b, compare) && UniqueIds(b, idOf)
    requires forall x :: x in a <==> x in b
    ensures a == b
    decreases |a|
  {
    if a == [] {
      NoMembersMeansEmpty(b);
    } else {
      assert a[0] in a;
      assert b != [];
      assert b[0] in b;
      var i :| 0 <= i < |a| && a[i] == b[0];
      var j :| 0 <= j < |b| && b[j] == a[0];
      CompareSelf(compare, a[0]);
      CompareSelf(compare, b[0]);
      assert compare(a[0], b[0]) <= 0 && compare(b[0], a[0]) <= 0;
      assert i == 0;
      assert a == [a[0]] + a[1..] && b == [b[0]] + b[1..];
      SortedCons(a[0], a[1..], compare);
      SortedCons(b[0], b[1..], compare);
      UniqueCons(a[0], a[1..], idOf);
      UniqueCons(b[0], b[1..], idOf);
      assert a[0] == b[0];
      forall x ensures x in a[1..] <==> x in b[1..] {
        if x in a[1..] {
          assert idOf(x) in Ids(a[1..], idOf);
          assert x != b[0] && x in b;
        }
        if x in b[1..] {
          assert idOf(x) in Ids(b[1..], idOf);
          assert x != a[0] && x in a;
        }
      }
      SortedListDetermined(a[1..], b[1..], compare, idOf);
    }
  }

  /** A second `replaceAll` with the same models holds the same items, and,
      when ties are broken by identifier, the same list. */
  lemma ReplaceAllIdempotent<T(!new)>(s: seq<T>, models: seq<T>, idOf: T -> string, compare: (T, T) -> int,
                                equal: (T, T) -> bool)
    ensures var once := ReplaceAll(s, models, idOf, compare, equal);
            forall e :: e in ReplaceAll(once, models, idOf, compare, equal) <==> e in once
    ensures IsComparator(compare) && TiesBrokenById(compare, idOf) && Sorted(s, compare) && UniqueIds(s, idOf)
            ==> var once := ReplaceAll(s, models, idOf, compare, equal);
                ReplaceAll(once, models, idOf, compare, equal) == once
  {
    var once := ReplaceAll(s, models, idOf, compare, equal);
    var twice := ReplaceAll(once, models, idOf, compare, equal);
    if IsComparator(compare) && TiesBrokenById(compare, idOf) && Sorted(s, compare) && UniqueIds(s, idOf) {
      ReplaceAllKeepsInvariant(s, models, idOf, compare, equal);
      ReplaceAllKeepsInvariant(once, models, idOf, compare, equal);
      SortedListDetermined(twice, once, compare, idOf);
    }
  }
}
