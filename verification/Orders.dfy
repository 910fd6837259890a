/** Comparison functions, sorted sequences, and inserting into them. */
module Orders {

  /** What a `less` function has to be for sorting to make sense. */
  ghost predicate StrictWeak<T(!new)>(less: (T, T) -> bool) {
    && (forall a, b :: less(a, b) ==> !less(b, a))
    && (forall a, b, c :: less(a, b) ==> less(a, c) || less(c, b))
  }

  /** Different elements are never equivalent. */
  ghost predicate Total<T(!new)>(less: (T, T) -> bool) {
    forall a, b :: a != b ==> less(a, b) || less(b, a)
  }

  predicate Sorted<T>(less: (T, T) -> bool, s: seq<T>) {
    forall i, j :: 0 <= i < j < |s| ==> !less(s[j], s[i])
  }

  /** `p` separates what is not after `x` from what is after it. */
  predicate Splits<T>(less: (T, T) -> bool, s: seq<T>, x: T, p: nat) {
    && p <= |s|
    && (forall i :: 0 <= i < p ==> !less(x, s[i]))
    && (forall i :: p <= i < |s| ==> less(x, s[i]))
  }

  /** `x` goes before the first element it is less than. */
  function Insert<T>(less: (T, T) -> bool, s: seq<T>, x: T): seq<T> {
    if s == [] then [x] else if less(x, s[0]) then [x] + s else [s[0]] + Insert(less, s[1..], x)
  }

  /** Insertion puts `x` where the sequence splits: after everything equivalent to it. */
  lemma {:induction false} InsertAt<T>(less: (T, T) -> bool, s: seq<T>, x: T, p: nat)
    requires Splits(less, s, x, p)
    ensures Insert(less, s, x) == s[..p] + [x] + s[p..]
  {
    if p > 0 {
      assert Splits(less, s[1..], x, p - 1);
      InsertAt(less, s[1..], x, p - 1);
      assert s == [s[0]] + s[1..];
    }
  }

  /** Every sorted sequence splits, once. */
  lemma {:induction false} SplitExists<T(!new)>(less: (T, T) -> bool, s: seq<T>, x: T) returns (p: nat)
    requires StrictWeak(less) && Sorted(less, s)
    ensures Splits(less, s, x, p)
  {
    p := 0;
    while p < |s| && !less(x, s[p])
      invariant p <= |s| && forall i :: 0 <= i < p ==> !less(x, s[i])
    {
      p := p + 1;
    }
  }

  lemma {:induction false} InsertContents<T>(less: (T, T) -> bool, s: seq<T>, x: T)
    ensures multiset(Insert(less, s, x)) == multiset(s) + multiset{x}
  {
    if s != [] && !less(x, s[0]) {
      InsertContents(less, s[1..], x);
      assert s == [s[0]] + s[1..];
    }
  }

  lemma {:induction false} InsertKeeps<T(!new)>(less: (T, T) -> bool, s: seq<T>, x: T)
    requires StrictWeak(less) && Sorted(less, s)
    ensures Sorted(less, Insert(less, s, x)) && multiset(Insert(less, s, x)) == multiset(s) + multiset{x}
  {
    var p := SplitExists(less, s, x);
    InsertAt(less, s, x, p);
    InsertContents(less, s, x);
  }

  /** Taking one element out keeps the order. */
  lemma {:induction false} RemoveKeeps<T>(less: (T, T) -> bool, s: seq<T>, p: nat)
    requires Sorted(less, s) && p < |s|
    ensures Sorted(less, s[..p] + s[p + 1..]) && multiset(s[..p] + s[p + 1..]) == multiset(s) - multiset{s[p]}
  {
    RemoveContents(s, p);
    var r := s[..p] + s[p + 1..];
    forall i, j | 0 <= i < j < |r| ensures !less(r[j], r[i]) {
      var i', j' := if i < p then i else i + 1, if j < p then j else j + 1;
      assert r[i] == s[i'] && r[j] == s[j'];
    }
  }

  lemma {:induction false} RemoveContents<T>(s: seq<T>, p: nat)
    requires p < |s|
    ensures multiset(s[..p] + s[p + 1..]) == multiset(s) - multiset{s[p]}
  {
    assert s == s[..p] + [s[p]] + s[p + 1..];
  }

  /** `s` with each of `xs` that it lacks inserted, one after the other. */
  function AddEach<T(==)>(less: (T, T) -> bool, s: seq<T>, xs: seq<T>): seq<T>
    decreases |xs|
  {
    if xs == [] then s
    else AddEach(less, if xs[0] in s then s else Insert(less, s, xs[0]), xs[1..])
  }

  /** The elements of `xs`. */
  function Elements<T(==)>(xs: seq<T>): set<T> { set x | x in xs }

  /** One step of AddEach, on a sequence that enumerates the set `items`. */
  lemma {:induction false} AddOneKeeps<T(!new)>(less: (T, T) -> bool, s: seq<T>, items: set<T>, x: T)
    requires StrictWeak(less) && Sorted(less, s) && multiset(s) == multiset(items)
    ensures var s' := if x in s then s else Insert(less, s, x);
            Sorted(less, s') && multiset(s') == multiset(items + {x})
  {
    assert x in s <==> x in multiset(s);
    if x in s {
      assert x in multiset(items);
      assert items + {x} == items;
    } else {
      InsertKeeps(less, s, x);
      assert x !in multiset(items);
      assert multiset(items + {x}) == multiset(items) + multiset{x};
    }
  }

  lemma {:induction false} AddEachKeeps<T(!new)>(less: (T, T) -> bool, s: seq<T>, items: set<T>, xs: seq<T>)
    requires StrictWeak(less) && Sorted(less, s) && multiset(s) == multiset(items)
    ensures Sorted(less, AddEach(less, s, xs))
    ensures multiset(AddEach(less, s, xs)) == multiset(items + Elements(xs))
    decreases |xs|
  {
    if xs == [] {
      assert items + Elements(xs) == items;
    } else {
      var x := xs[0];
      AddOneKeeps(less, s, items, x);
      AddEachKeeps(less, if x in s then s else Insert(less, s, x), items + {x}, xs[1..]);
      ElementsNext(xs);
      assert items + {x} + Elements(xs[1..]) == items + Elements(xs);
    }
  }

  lemma {:induction false} ElementsNext<T>(xs: seq<T>)
    requires xs != []
    ensures Elements(xs) == {xs[0]} + Elements(xs[1..])
  {
    assert xs == [xs[0]] + xs[1..];
  }

  /** For a total order, contents determine the sorted sequence. */
  lemma {:induction false} SortedUnique<T(!new)>(less: (T, T) -> bool, s: seq<T>, t: seq<T>)
    requires StrictWeak(less) && Total(less) && Sorted(less, s) && Sorted(less, t)
    requires multiset(s) == multiset(t)
    ensures s == t
  {
    assert |s| == |multiset(s)| == |multiset(t)| == |t|;
    if s != [] {
      SameFirst(less, s, t);
      TailContents(s);
      TailContents(t);
      SortedUnique(less, s[1..], t[1..]);
    }
  }

  lemma {:induction false} SameFirst<T(!new)>(less: (T, T) -> bool, s: seq<T>, t: seq<T>)
    requires Total(less) && Sorted(less, s) && Sorted(less, t) && s != [] && t != []
    requires multiset(s) == multiset(t)
    ensures s[0] == t[0]
  {
    assert s[0] in multiset(t) && t[0] in multiset(s);
    var i :| 0 <= i < |t| && t[i] == s[0];
    var j :| 0 <= j < |s| && s[j] == t[0];
  }

  lemma {:induction false} TailContents<T>(s: seq<T>)
    requires s != []
    ensures multiset(s[1..]) == multiset(s) - multiset{s[0]}
  {
    assert s == [s[0]] + s[1..];
  }

  /** Every set has exactly one sorted enumeration if and only if the order is total. */
  lemma {:induction false} UniqueIffTotal<T(!new)>(less: (T, T) -> bool)
    requires StrictWeak(less)
    ensures (forall s, t :: Sorted(less, s) && Sorted(less, t) && multiset(s) == multiset(t) ==> s == t)
            <==> Total(less)
  {
    if Total(less) {
      forall s, t | Sorted(less, s) && Sorted(less, t) && multiset(s) == multiset(t) ensures s == t {
        SortedUnique(less, s, t);
      }
    } else {
      var a, b :| a != b && !less(a, b) && !less(b, a);
      assert Sorted(less, [a, b]) && Sorted(less, [b, a]) && multiset([a, b]) == multiset([b, a]);
      assert [a, b][0] != [b, a][0];
    }
  }

  /** Sorting: some sorted arrangement of the same elements. */
  method SortSlice<T(!new)>(less: (T, T) -> bool, s: seq<T>) returns (r: seq<T>)
    requires StrictWeak(less)
    ensures Sorted(less, r) && multiset(r) == multiset(s)
  {
    r := [];
    for i := 0 to |s|
      invariant Sorted(less, r) && multiset(r) == multiset(s[..i])
    {
      InsertKeeps(less, r, s[i]);
      r := Insert(less, r, s[i]);
      assert s[..i + 1] == s[..i] + [s[i]];
    }
    assert s[..|s|] == s;
  }
}
