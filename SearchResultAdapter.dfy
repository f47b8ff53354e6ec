/** The search-result adapter: it owns the sorted list of locations shown in
    the result view and changes it in place. The item type is left open: the
    adapter is told at construction how to order two items (its comparator),
    what identifies an item (`areItemsTheSame` compares identifiers) and when
    two items are equal (the items' `equals`, used by `List.contains`). */
module SearchResultAdapters {
  import opened SortedLists

  class SearchResultAdapter<T(==,!new)> {
    const compare: (T, T) -> int
    const idOf: T -> string
    const equal: (T, T) -> bool
    /** The contents of the sorted list, in display order. */
    var items: seq<T>

    /** The list is sorted by the comparator and holds one item per identifier. */
    ghost predicate Valid()
      reads this
    {
      IsComparator(compare) && Sorted(items, compare) && UniqueIds(items, idOf)
    }

    constructor (compare: (T, T) -> int, idOf: T -> string, equal: (T, T) -> bool)
      requires IsComparator(compare)
      ensures Valid() && items == []
      ensures this.compare == compare && this.idOf == idOf && this.equal == equal
    {
      this.compare, this.idOf, this.equal := compare, idOf, equal;
      items := [];
    }

    /** `add(model)`: the held item with the model's identifier, if any, is
        replaced, and the model takes its sorted place. */
    method Add(model: T)
      requires Valid()
      modifies this
      ensures Valid()
      ensures items == Added(old(items), model, idOf, compare)
    {
      AddedKeepsInvariant(items, model, idOf, compare);
      items := Added(items, model, idOf, compare);
    }

    /** `remove(model)`: the held item with the model's identifier, if any, goes. */
    method Remove(model: T)
      requires Valid()
      modifies this
      ensures Valid()
      ensures items == WithoutIds(old(items), idOf, {idOf(model)})
    {
      FilterKeepsSorted(items, IdNotIn(idOf, {idOf(model)}), compare);
      FilterKeepsUniqueIds(items, IdNotIn(idOf, {idOf(model)}), idOf);
      items := WithoutIds(items, idOf, {idOf(model)});
    }

    /** `add(List)`: the list's `addAll`. */
    method AddList(models: seq<T>)
      requires Valid()
      modifies this
      ensures Valid()
      ensures items == AddAll(old(items), models, idOf, compare)
    {
      AddAllKeepsInvariant(items, models, idOf, compare);
      items := AddAll(items, models, idOf, compare);
    }

    /** `remove(List)`: each model removed in turn; the result is the held list
        without the identifiers of `models`, in the same order. */
    method RemoveList(models: seq<T>)
      requires Valid()
      modifies this
      ensures Valid()
      ensures items == WithoutIds(old(items), idOf, Ids(models, idOf))
    {
      for k := 0 to |models|
        invariant Valid()
        invariant items == RemoveEach(old(items), models[..k], idOf)
      {
        Remove(models[k]);
        assert models[..k + 1][..k] == models[..k];
      }
      assert models[..|models|] == models;
      RemoveEachIsWithoutIds(old(items), models, idOf);
    }

    /** `replaceAll(models)`: walking the indices from the last down to the
        first, every held item that `models` does not contain is removed; then
        all of `models` is added. */
    method ReplaceAll(models: seq<T>)
      requires Valid()
      modifies this
      ensures Valid()
      ensures items == SortedLists.ReplaceAll(old(items), models, idOf, compare, equal)
    {
      ghost var start := items;
      ghost var keep := ContainedIn(models, equal);
      var i := |items| - 1;
      while i >= 0
        invariant -1 <= i < |start|
        invariant Valid()
        invariant items == start[..i + 1] + Filter(start[i + 1..], keep)
      {
        var model := items[i];
        assert model == start[i];
        if !Contains(models, model, equal) {
          EvictionRemoves(start, i, keep, items, idOf);
          Remove(model);
        } else {
          EvictionKeeps(start, i, keep, items);
        }
        i := i - 1;
      }
      assert items == Filter(start, keep) by {
        assert start[0..] == start;
      }
      AddList(models);
    }

    /** `getItemCount()`: the number of held items. */
    method GetItemCount() returns (n: int)
      ensures n == |items|
    {
      n := |items|;
    }
  }
}
