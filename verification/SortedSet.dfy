/** The sorted set: a hash map for membership and a sorted slice for the order, kept in agreement. */
module SortedSets {
  import opened Orders
  import opened SetSpec

  /** `x` is appended, and the elements from `p` on are moved one place up to make room for it. */
  method MoveIn<T>(s: seq<T>, x: T, p: nat) returns (r: seq<T>)
    requires p <= |s|
    ensures r == s[..p] + [x] + s[p..]
  {
    r := s + [x];
    if p < |r| - 1 {
      r := r[..p + 1] + r[p..|r| - 1];
      r := r[p := x];
    }
  }

  class SortedSet<T(==,!new)> {
    const less: (T, T) -> bool
    var items: set<T>
    var elements: seq<T>

    /** The slice lists the keys of the map, each once, in order. */
    ghost predicate Valid()
      reads this
    {
      StrictWeak(less) && Sorted(less, elements) && multiset(elements) == multiset(items)
    }

    constructor (less: (T, T) -> bool, xs: seq<T>)
      requires StrictWeak(less)
      ensures Valid() && this.less == less && items == Elements(xs) && elements == AddEach(less, [], xs)
    {
      this.less, items, elements := less, {}, [];
      new;
      for i := 0 to |xs|
        invariant Valid() && items == Elements(xs[..i])
        invariant AddEach(less, elements, xs[i..]) == AddEach(less, [], xs)
      {
        ElementsUpTo(xs, i);
        Member();
        var _ := Add(xs[i]);
      }
      assert xs[..|xs|] == xs;
    }

    lemma {:induction false} Member()
      requires Valid()
      ensures forall x :: x in elements <==> x in items
      ensures |elements| == |items| && Elements(elements) == items
    {
      EnumerationLength(elements, items);
      forall x ensures x in elements <==> x in items {
        assert x in elements <==> x in Elements(elements);
      }
    }

    /** Binary search for the first element that `x` is less than. */
    method Search(x: T) returns (p: nat)
      requires Valid()
      ensures Splits(less, elements, x, p)
    {
      var i, j := 0, |elements|;
      while i < j
        invariant 0 <= i <= j <= |elements|
        invariant forall k :: 0 <= k < i ==> !less(x, elements[k])
        invariant forall k :: j <= k < |elements| ==> less(x, elements[k])
      {
        var h := (i + j) / 2;
        if !less(x, elements[h]) {
          i := h + 1;
        } else {
          j := h;
        }
      }
      p := i;
    }

    /** A new element goes after everything equivalent to it. */
    method Add(x: T) returns (added: bool)
      requires Valid()
      modifies this
      ensures Valid() && items == old(items) + {x} && added == (x !in old(items))
      ensures elements == if added then Insert(less, old(elements), x) else old(elements)
    {
      if x in items {
        return false;
      }
      Member();
      var p := Search(x);
      InsertAt(less, elements, x, p);
      AddOneKeeps(less, elements, items, x);
      items := items + {x};
      elements := MoveIn(elements, x, p);
      added := true;
    }

    /** Where an element of the set is in the slice. */
    method Find(x: T) returns (p: nat)
      requires exists k :: 0 <= k < |elements| && elements[k] == x
      ensures p < |elements| && elements[p] == x
    {
      p := 0;
      while elements[p] != x
        invariant p < |elements| && forall k :: 0 <= k < p ==> elements[k] != x
        decreases |elements| - p
      {
        assert exists k :: 0 <= k < |elements| && elements[k] == x;
        p := p + 1;
      }
    }

    method Remove(x: T) returns (removed: bool)
      requires Valid()
      modifies this
      ensures Valid() && items == old(items) - {x} && removed == (x in old(items))
      ensures !removed ==> elements == old(elements)
      ensures removed ==> exists p :: 0 <= p < |old(elements)| && old(elements)[p] == x
                                      && elements == old(elements)[..p] + old(elements)[p + 1..]
    {
      if x !in items {
        return false;
      }
      Member();
      var p := Find(x);
      RemoveKeeps(less, elements, p);
      items := items - {x};
      elements := elements[..p] + elements[p + 1..];
      removed := true;
    }

    /** The slice is built again from the keys of the map. */
    method Rebuild()
      requires StrictWeak(less)
      modifies this`elements
      ensures Valid()
    {
      var all := Filter(items, _ => true);
      assert (set x | x in items) == items;
      elements := SortSlice(less, all);
    }

    /** The loop over the arguments, which leaves the slice for later. */
    method Collect(xs: seq<T>) returns (added: nat)
      modifies this`items
      ensures items == old(items) + Elements(xs) && added == |items| - |old(items)|
      ensures added == 0 ==> items == old(items)
    {
      added := 0;
      for i := 0 to |xs|
        invariant items == old(items) + Elements(xs[..i]) && added == |items| - |old(items)|
      {
        ElementsUpTo(xs, i);
        if xs[i] !in items {
          added := added + 1;
          items := items + {xs[i]};
        } else {
          assert items == items + {xs[i]};
        }
      }
      assert xs[..|xs|] == xs;
      assert items == old(items) + (items - old(items));
    }

    /** With a total order the result is that of adding one by one. */
    method AddAll(xs: seq<T>) returns (added: nat)
      requires Valid()
      modifies this
      ensures Valid() && items == old(items) + Elements(xs) && added == |items| - |old(items)|
      ensures Total(less) ==> elements == AddEach(less, old(elements), xs)
    {
      AddEachKeeps(less, elements, items, xs);
      added := Collect(xs);
      if added != 0 {
        Rebuild();
      }
      if Total(less) {
        SortedUnique(less, elements, AddEach(less, old(elements), xs));
      }
    }

    /** The count is of arguments, not of elements. */
    method RemoveAll(xs: seq<T>) returns (removed: nat)
      requires Valid()
      modifies this
      ensures Valid() && items == old(items) - Elements(xs) && removed == Occurrences(xs, old(items))
    {
      var toRemove: set<T> := {};
      removed := 0;
      for i := 0 to |xs|
        invariant items == old(items) && elements == old(elements)
        invariant toRemove == Elements(xs[..i]) * items
        invariant removed + Occurrences(xs[i..], items) == Occurrences(xs, items)
        invariant toRemove == {} <==> removed == 0
      {
        ElementsUpTo(xs, i);
        assert xs[i..][1..] == xs[i + 1..];
        if xs[i] in items {
          toRemove := toRemove + {xs[i]};
          removed := removed + 1;
        }
      }
      assert xs[..|xs|] == xs && xs[|xs|..] == [];
      assert items - toRemove == items - Elements(xs);
      if removed != 0 {
        items := items - toRemove;
        Rebuild();
      } else {
        assert items - toRemove == items;
      }
    }

    method RetainAll(xs: seq<T>) returns (removed: nat)
      requires Valid()
      modifies this
      ensures Valid() && items == old(items) * Elements(xs) && removed == |old(items)| - |items|
    {
      var retain := Elements(xs);
      var toRemove := Filter(items, x => x !in retain);
      removed := |toRemove|;
      EnumerationLength(toRemove, Elements(toRemove));
      assert items == items * retain + Elements(toRemove);
      if removed != 0 {
        items := items - Elements(toRemove);
        assert items == old(items) * retain;
        Rebuild();
      }
    }

    method Union(other: set<T>) returns (result: SortedSet<T>)
      requires Valid()
      ensures fresh(result) && result.Valid() && result.less == less && result.items == items + other
    {
      var theirs := Filter(other, _ => true);
      Member();
      assert Elements(elements + theirs) == Elements(elements) + Elements(theirs);
      assert Elements(theirs) == other;
      result := new SortedSet(less, elements + theirs);
    }

    method Intersection(other: set<T>) returns (result: SortedSet<T>)
      requires Valid()
      ensures fresh(result) && result.Valid() && result.less == less && result.items == items * other
    {
      var both := Select(elements, x => x in other);
      Member();
      result := new SortedSet(less, both);
    }

    method Difference(other: set<T>) returns (result: SortedSet<T>)
      requires Valid()
      ensures fresh(result) && result.Valid() && result.less == less && result.items == items - other
    {
      var mine := Select(elements, x => x !in other);
      Member();
      result := new SortedSet(less, mine);
    }

    method SymmetricDifference(other: set<T>) returns (result: SortedSet<T>)
      requires Valid()
      ensures fresh(result) && result.Valid() && result.less == less
      ensures result.items == (items - other) + (other - items)
    {
      var union := Union(other);
      var intersection := Intersection(other);
      result := union.Difference(intersection.items);
    }

    /** The sizes are compared first. */
    method IsSubset(other: set<T>) returns (r: bool)
      requires Valid()
      ensures r <==> items <= other
    {
      if |items| > |other| {
        SubsetSize(items, other);
        return false;
      }
      Member();
      for i := 0 to |elements|
        invariant forall k :: 0 <= k < i ==> elements[k] in other
      {
        if elements[i] !in other {
          assert elements[i] in items;
          return false;
        }
      }
      r := true;
    }

    /** Any call of the interface. */
    method Perform(op: Op<T>) returns (a: Answer)
      requires Valid()
      modifies this
      ensures Valid() && items == Do(old(items), op) && a == SortedReply(old(items), op)
    {
      match op {
        case Add(x) => var b := Add(x); a := Flag(b);
        case Remove(x) => var b := Remove(x); a := Flag(b);
        case AddAll(xs) => var n := AddAll(xs); a := Count(n);
        case RemoveAll(xs) => var n := RemoveAll(xs); a := Count(n);
        case RetainAll(xs) => var n := RetainAll(xs); a := Count(n);
        case Contains(x) => a := Flag(x in items);
        case Size => a := Count(|items|);
        case IsSubset(other) => var b := IsSubset(other); a := Flag(b);
      }
    }
  }
}
