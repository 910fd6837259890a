/** What a set answers to a history of calls, and where SortedSet and HashSet differ. */
module SetSpec {
  import opened Orders

  datatype Op<T> =
    | Add(x: T)
    | Remove(x: T)
    | AddAll(xs: seq<T>)
    | RemoveAll(xs: seq<T>)
    | RetainAll(xs: seq<T>)
    | Contains(x: T)
    | Size
    | IsSubset(other: set<T>)

  datatype Answer = Flag(b: bool) | Count(n: int)

  /** The set after one call. */
  function Do<T(==)>(s: set<T>, op: Op<T>): set<T> {
    match op
    case Add(x) => s + {x}
    case Remove(x) => s - {x}
    case AddAll(xs) => s + Elements(xs)
    case RemoveAll(xs) => s - Elements(xs)
    case RetainAll(xs) => s * Elements(xs)
    case _ => s
  }

  /** How many of `xs`, each occurrence counted, are in `s`. */
  function Occurrences<T(==)>(xs: seq<T>, s: set<T>): nat {
    if xs == [] then 0 else (if xs[0] in s then 1 else 0) + Occurrences(xs[1..], s)
  }

  /** The answer to a call: for a change of the set, the number of elements it really adds or removes. */
  function Reply<T(==)>(s: set<T>, op: Op<T>): Answer {
    match op
    case Add(x) => Flag(x !in s)
    case Remove(x) => Flag(x in s)
    case AddAll(xs) => Count(|s + Elements(xs)| - |s|)
    case RemoveAll(xs) => Count(|s| - |s - Elements(xs)|)
    case RetainAll(xs) => Count(|s| - |s * Elements(xs)|)
    case Contains(x) => Flag(x in s)
    case Size => Count(|s|)
    case IsSubset(other) => Flag(s <= other)
  }

  /** SortedSet's answer: its RemoveAll counts arguments. */
  function SortedReply<T(==)>(s: set<T>, op: Op<T>): Answer {
    if op.RemoveAll? then Count(Occurrences(op.xs, s)) else Reply(s, op)
  }

  function Replies<T(==)>(s: set<T>, ops: seq<Op<T>>): seq<Answer>
    decreases |ops|
  {
    if ops == [] then [] else [Reply(s, ops[0])] + Replies(Do(s, ops[0]), ops[1..])
  }

  function SortedReplies<T(==)>(s: set<T>, ops: seq<Op<T>>): seq<Answer>
    decreases |ops|
  {
    if ops == [] then [] else [SortedReply(s, ops[0])] + SortedReplies(Do(s, ops[0]), ops[1..])
  }

  /** No argument that is in `s` is given twice. */
  predicate NoRepeats<T(==)>(xs: seq<T>, s: set<T>) {
    forall i, j :: 0 <= i < j < |xs| && xs[i] == xs[j] ==> xs[i] !in s
  }

  /** No RemoveAll of the history names a member twice. */
  predicate NeverRepeats<T(==)>(s: set<T>, ops: seq<Op<T>>)
    decreases |ops|
  {
    ops != [] ==> (ops[0].RemoveAll? ==> NoRepeats(ops[0].xs, s)) && NeverRepeats(Do(s, ops[0]), ops[1..])
  }

  lemma {:induction false} ElementsUpTo<T>(xs: seq<T>, i: nat)
    requires i < |xs|
    ensures Elements(xs[..i + 1]) == Elements(xs[..i]) + {xs[i]}
  {
    assert xs[..i + 1] == xs[..i] + [xs[i]];
  }

  lemma {:induction false} SubsetSize<T>(a: set<T>, b: set<T>)
    ensures a <= b ==> |a| <= |b|
  {
    if a <= b {
      assert b == a + (b - a);
    }
  }

  /** An enumeration of a set has its size. */
  lemma {:induction false} EnumerationLength<T>(s: seq<T>, items: set<T>)
    requires multiset(s) == multiset(items)
    ensures |s| == |items| && Elements(s) == items
  {
    assert |s| == |multiset(s)| == |multiset(items)| == |items|;
    forall x ensures x in Elements(s) <==> x in items {
      assert x in s <==> x in multiset(s);
    }
  }

  /** What is removed is what is both in the set and among the arguments. */
  lemma {:induction false} RemovedCount<T>(s: set<T>, xs: seq<T>)
    ensures |s| - |s - Elements(xs)| == |s * Elements(xs)|
  {
    assert s == (s - Elements(xs)) + (s * Elements(xs));
  }

  /** Counting arguments counts members, exactly when no member is named twice; otherwise it
      counts too many. */
  lemma {:induction false} CountExact<T>(s: set<T>, xs: seq<T>)
    ensures Occurrences(xs, s) >= |s * Elements(xs)|
    ensures Occurrences(xs, s) == |s * Elements(xs)| <==> NoRepeats(xs, s)
  {
    if xs == [] {
      assert s * Elements(xs) == {};
    } else {
      var x, rest := xs[0], xs[1..];
      CountExact(s, rest);
      ElementsNext(xs);
      var both := s * Elements(rest);
      if x in s {
        assert s * Elements(xs) == both + {x};
        if x in both {
          var j :| 0 <= j < |rest| && rest[j] == x;
          assert xs[0] == xs[j + 1];
        }
      } else {
        assert s * Elements(xs) == both;
      }
      RepeatsNext(s, xs);
    }
  }

  lemma {:induction false} OccurrencesAppend<T>(xs: seq<T>, x: T, s: set<T>)
    ensures Occurrences(xs + [x], s) == Occurrences(xs, s) + if x in s then 1 else 0
  {
    if xs == [] {
      assert xs + [x] == [x] && [x][1..] == [];
    } else {
      assert (xs + [x])[1..] == xs[1..] + [x];
      OccurrencesAppend(xs[1..], x, s);
    }
  }

  /** The positions of the arguments that are members. */
  function Hits<T(==)>(xs: seq<T>, n: nat, s: set<T>): set<nat>
    requires n <= |xs|
  {
    set i: nat | i < n && xs[i] in s
  }

  /** The argument count is the number of these positions. */
  lemma {:induction false} OccurrencesExact<T>(xs: seq<T>, n: nat, s: set<T>)
    requires n <= |xs|
    ensures Occurrences(xs[..n], s) == |Hits(xs, n, s)|
  {
    if n == 0 {
      assert Hits(xs, 0, s) == {};
    } else {
      OccurrencesExact(xs, n - 1, s);
      assert xs[..n] == xs[..n - 1] + [xs[n - 1]];
      OccurrencesAppend(xs[..n - 1], xs[n - 1], s);
      assert Hits(xs, n, s) == Hits(xs, n - 1, s) + if xs[n - 1] in s then {n - 1} else {};
    }
  }

  lemma {:induction false} RepeatsNext<T>(s: set<T>, xs: seq<T>)
    requires xs != []
    ensures NoRepeats(xs, s) <==> NoRepeats(xs[1..], s) && (xs[0] in s ==> xs[0] !in Elements(xs[1..]))
  {
    var rest := xs[1..];
    if NoRepeats(xs, s) {
      assert forall i, j :: 0 <= i < j < |rest| && rest[i] == rest[j] ==> xs[i + 1] == xs[j + 1];
      if xs[0] in rest {
        var j :| 0 <= j < |rest| && rest[j] == xs[0];
        assert xs[0] == xs[j + 1];
      }
    } else {
      var i, j :| 0 <= i < j < |xs| && xs[i] == xs[j] && xs[i] in s;
      assert xs[j] == rest[j - 1];
      if i > 0 {
        assert xs[i] == rest[i - 1];
      }
    }
  }

  /** SortedSet and HashSet give the same answers to a history of calls if and only if no RemoveAll
      of the history names a member of the set twice. */
  lemma {:induction false} AgreementExact<T>(s: set<T>, ops: seq<Op<T>>)
    ensures SortedReplies(s, ops) == Replies(s, ops) <==> NeverRepeats(s, ops)
    decreases |ops|
  {
    if ops != [] {
      var op, s' := ops[0], Do(s, ops[0]);
      AgreementExact(s', ops[1..]);
      var a, b := SortedReplies(s, ops), Replies(s, ops);
      assert a[1..] == SortedReplies(s', ops[1..]) && b[1..] == Replies(s', ops[1..]);
      assert a[0] == SortedReply(s, op) && b[0] == Reply(s, op);
      assert a == b <==> a[0] == b[0] && a[1..] == b[1..];
      if op.RemoveAll? {
        RemovedCount(s, op.xs);
        CountExact(s, op.xs);
      }
    }
  }

  // ----- What the answers tell -----

  /** The set after a history of calls. */
  function DoAll<T(==)>(s: set<T>, ops: seq<Op<T>>): set<T>
    decreases |ops|
  {
    if ops == [] then s else DoAll(Do(s, ops[0]), ops[1..])
  }

  lemma {:induction false} OneMore<T>(s: set<T>, ops: seq<Op<T>>, op: Op<T>)
    ensures DoAll(s, ops + [op]) == Do(DoAll(s, ops), op)
    ensures Replies(s, ops + [op]) == Replies(s, ops) + [Reply(DoAll(s, ops), op)]
    decreases |ops|
  {
    if ops == [] {
      assert [op][1..] == [] && ops + [op] == [op];
    } else {
      assert (ops + [op])[1..] == ops[1..] + [op];
      OneMore(Do(s, ops[0]), ops[1..], op);
    }
  }

  /** The last call that concerns `x` decides whether it is a member. */
  predicate Member<T(==)>(x: T, s: set<T>, ops: seq<Op<T>>)
    decreases |ops|
  {
    if ops == [] then x in s
    else
      var n := |ops| - 1;
      match ops[n]
      case Add(y) => x == y || Member(x, s, ops[..n])
      case Remove(y) => x != y && Member(x, s, ops[..n])
      case AddAll(ys) => x in ys || Member(x, s, ops[..n])
      case RemoveAll(ys) => x !in ys && Member(x, s, ops[..n])
      case RetainAll(ys) => x in ys && Member(x, s, ops[..n])
      case _ => Member(x, s, ops[..n])
  }

  /** By how much the set has grown, as the answers tell. */
  function Growth<T>(ops: seq<Op<T>>, answers: seq<Answer>): int
    requires |ops| == |answers|
    decreases |ops|
  {
    if ops == [] then 0
    else
      var n := |ops| - 1;
      var size := match answers[n] { case Flag(b) => if b then 1 else 0 case Count(k) => k };
      Growth(ops[..n], answers[..n]) +
      if ops[n].Add? || ops[n].AddAll? then size
      else if ops[n].Remove? || ops[n].RemoveAll? || ops[n].RetainAll? then 0 - size
      else 0
  }

  lemma {:induction false} RepliesLength<T>(s: set<T>, ops: seq<Op<T>>)
    ensures |Replies(s, ops)| == |ops|
    decreases |ops|
  {
    if ops != [] {
      RepliesLength(Do(s, ops[0]), ops[1..]);
    }
  }

  /** Membership follows the calls, and the size follows the answers. */
  lemma {:induction false} HistoryTells<T>(s: set<T>, ops: seq<Op<T>>)
    ensures |Replies(s, ops)| == |ops|
    ensures forall x :: x in DoAll(s, ops) <==> Member(x, s, ops)
    ensures |DoAll(s, ops)| == |s| + Growth(ops, Replies(s, ops))
    decreases |ops|
  {
    RepliesLength(s, ops);
    if ops != [] {
      var n := |ops| - 1;
      HistoryTells(s, ops[..n]);
      OneMore(s, ops[..n], ops[n]);
      assert ops == ops[..n] + [ops[n]];
      assert Replies(s, ops)[..n] == Replies(s, ops[..n]);
      GrowthOfOne(DoAll(s, ops[..n]), ops[n]);
    }
  }

  /** The answer to one call is by how much the set grows or shrinks. */
  lemma {:induction false} GrowthOfOne<T>(s: set<T>, op: Op<T>)
    ensures Growth([op], [Reply(s, op)]) == |Do(s, op)| - |s|
  {
    assert [op][..0] == [] && [Reply(s, op)][..0] == [];
    match op {
      case Add(x) => assert x in s ==> s + {x} == s;
      case Remove(x) => assert x !in s ==> s - {x} == s;
      case _ =>
    }
  }

  /** After any history: Contains and IsSubset answer for the elements that the calls have left in, Add and
      Remove report whether they change that, and Size is the sum of the changes reported so far. */
  lemma {:induction false} AnswersExact<T>(s: set<T>, ops: seq<Op<T>>, x: T, other: set<T>)
    ensures Replies(s, ops + [Op.Contains(x)]) == Replies(s, ops) + [Flag(Member(x, s, ops))]
    ensures Replies(s, ops + [Op.Add(x)]) == Replies(s, ops) + [Flag(!Member(x, s, ops))]
    ensures Replies(s, ops + [Op.Remove(x)]) == Replies(s, ops) + [Flag(Member(x, s, ops))]
    ensures |Replies(s, ops)| == |ops|
    ensures Replies(s, ops + [Op.Size]) == Replies(s, ops) + [Count(|s| + Growth(ops, Replies(s, ops)))]
    ensures Replies(s, ops + [Op.IsSubset(other)])
            == Replies(s, ops) + [Flag(forall y :: y in DoAll(s, ops) ==> y in other)]
    ensures forall y :: y in DoAll(s, ops) <==> Member(y, s, ops)
  {
    HistoryTells(s, ops);
    OneMore(s, ops, Op.Contains(x));
    OneMore(s, ops, Op.Add(x));
    OneMore(s, ops, Op.Remove(x));
    OneMore(s, ops, Op.Size);
    OneMore(s, ops, Op.IsSubset(other));
  }

  /** Iteration over the keys of a map, in no particular order. */
  method Filter<T(==)>(items: set<T>, keep: T -> bool) returns (s: seq<T>)
    ensures multiset(s) == multiset(set x | x in items && keep(x))
    ensures Elements(s) == set x | x in items && keep(x)
  {
    s := [];
    var rest := items;
    while rest != {}
      invariant rest <= items
      invariant multiset(s) == multiset(set x | x in items - rest && keep(x))
    {
      var x :| x in rest;
      ghost var before := set y | y in items - rest && keep(y);
      rest := rest - {x};
      ghost var after := set y | y in items - rest && keep(y);
      if keep(x) {
        s := s + [x];
        assert after == before + {x};
      } else {
        assert after == before;
      }
    }
    assert items - rest == items;
    EnumerationLength(s, set x | x in items && keep(x));
  }

  /** The elements of a sequence that pass a test, in order. */
  method Select<T(==)>(s: seq<T>, keep: T -> bool) returns (r: seq<T>)
    ensures Elements(r) == set x | x in Elements(s) && keep(x)
  {
    r := [];
    for i := 0 to |s|
      invariant Elements(r) == set x | x in Elements(s[..i]) && keep(x)
    {
      ElementsUpTo(s, i);
      if keep(s[i]) {
        assert Elements(r + [s[i]]) == Elements(r) + {s[i]};
        r := r + [s[i]];
      }
    }
    assert s[..|s|] == s;
  }
}
