/** The plain set: a hash map whose keys are the elements. */
module HashSets {
  import opened Orders
  import opened SetSpec

  class HashSet<T(==)> {
    var items: set<T>

    constructor (xs: seq<T>)
      ensures items == Elements(xs)
    {
      items := {};
      new;
      var _ := AddAll(xs);
    }

    method Add(x: T) returns (added: bool)
      modifies this
      ensures items == old(items) + {x} && added == (x !in old(items))
    {
      if x in items {
        return false;
      }
      items := items + {x};
      added := true;
    }

    method Remove(x: T) returns (removed: bool)
      modifies this
      ensures items == old(items) - {x} && removed == (x in old(items))
    {
      if x !in items {
        return false;
      }
      items := items - {x};
      removed := true;
    }

    method AddAll(xs: seq<T>) returns (added: nat)
      modifies this
      ensures items == old(items) + Elements(xs) && added == |items| - |old(items)|
    {
      added := 0;
      for i := 0 to |xs|
        invariant items == old(items) + Elements(xs[..i]) && added == |items| - |old(items)|
      {
        ElementsUpTo(xs, i);
        ghost var before := items;
        var grew := Add(xs[i]);
        assert !grew ==> items == before;
        if grew {
          added := added + 1;
        }
      }
      assert xs[..|xs|] == xs;
    }

    method RemoveAll(xs: seq<T>) returns (removed: nat)
      modifies this
      ensures items == old(items) - Elements(xs) && removed == |old(items)| - |items|
    {
      removed := 0;
      for i := 0 to |xs|
        invariant items == old(items) - Elements(xs[..i]) && removed == |old(items)| - |items|
      {
        ElementsUpTo(xs, i);
        ghost var before := items;
        var gone := Remove(xs[i]);
        assert !gone ==> items == before;
        if gone {
          removed := removed + 1;
        }
      }
      assert xs[..|xs|] == xs;
    }

    method RetainAll(xs: seq<T>) returns (removed: nat)
      modifies this
      ensures items == old(items) * Elements(xs) && removed == |old(items)| - |items|
    {
      var retain := Elements(xs);
      var toRemove := Filter(items, x => x !in retain);
      for i := 0 to |toRemove|
        invariant items == old(items) - Elements(toRemove[..i])
      {
        ElementsUpTo(toRemove, i);
        items := items - {toRemove[i]};
      }
      assert toRemove[..|toRemove|] == toRemove;
      removed := |toRemove|;
      assert old(items) == items + Elements(toRemove);
      EnumerationLength(toRemove, Elements(toRemove));
    }

    method Union(other: set<T>) returns (result: HashSet<T>)
      ensures fresh(result) && result.items == items + other
    {
      var a := Filter(items, _ => true);
      var b := Filter(other, _ => true);
      result := new HashSet(a);
      var _ := result.AddAll(b);
    }

    method Intersection(other: set<T>) returns (result: HashSet<T>)
      ensures fresh(result) && result.items == items * other
    {
      var a := Filter(items, x => x in other);
      result := new HashSet(a);
    }

    method Difference(other: set<T>) returns (result: HashSet<T>)
      ensures fresh(result) && result.items == items - other
    {
      var a := Filter(items, x => x !in other);
      result := new HashSet(a);
    }

    method SymmetricDifference(other: set<T>) returns (result: HashSet<T>)
      ensures fresh(result) && result.items == (items - other) + (other - items)
    {
      var union := Union(other);
      var intersection := Intersection(other);
      result := union.Difference(intersection.items);
    }

    /** The sizes are compared first. */
    method IsSubset(other: set<T>) returns (r: bool)
      ensures r <==> items <= other
    {
      if |items| > |other| {
        SubsetSize(items, other);
        return false;
      }
      var rest := items;
      while rest != {}
        invariant rest <= items && items - rest <= other
      {
        var x :| x in rest;
        if x !in other {
          return false;
        }
        rest := rest - {x};
      }
      r := true;
    }

    /** Any call of the interface. */
    method Perform(op: Op<T>) returns (a: Answer)
      modifies this
      ensures items == Do(old(items), op) && a == Reply(old(items), op)
    {
      match op {
        case Add(x) => var b := Add(x); a := Flag(b);
        case Remove(x) => var b := Remove(x); a := Flag(b);
        case AddAll(xs) => var n := AddAll(xs); a := Count(n);
        case RemoveAll(xs) => var n := RemoveAll(xs); a := Count(n);
        case RetainAll(xs) => var n := RetainAll(xs); a := Count(n);
        case Contains(x) => a := Flag(x in items);
        case Size => a := Count(|items|);
        case IsSubset(other) => var b := IsSubset(other); a := Flag(b);
      }
    }
  }
}
