/** The two kinds of set, side by side. */
module SetAgreement {
  import opened Orders
  import opened SetSpec
  import opened HashSets
  import opened SortedSets

  method RunHash<T(!new)>(xs: seq<T>, ops: seq<Op<T>>) returns (answers: seq<Answer>)
    ensures answers == Replies(Elements(xs), ops)
  {
    var s := new HashSet<T>(xs);
    answers := [];
    for i := 0 to |ops|
      invariant fresh(s) && answers + Replies(s.items, ops[i..]) == Replies(Elements(xs), ops)
    {
      assert ops[i..][1..] == ops[i + 1..];
      var a := s.Perform(ops[i]);
      answers := answers + [a];
    }
  }

  method RunSorted<T(!new)>(less: (T, T) -> bool, xs: seq<T>, ops: seq<Op<T>>) returns (answers: seq<Answer>)
    requires StrictWeak(less)
    ensures answers == SortedReplies(Elements(xs), ops)
  {
    var s := new SortedSet<T>(less, xs);
    answers := [];
    for i := 0 to |ops|
      invariant fresh(s) && s.Valid() && answers + SortedReplies(s.items, ops[i..]) == SortedReplies(Elements(xs), ops)
    {
      assert ops[i..][1..] == ops[i + 1..];
      var a := s.Perform(ops[i]);
      answers := answers + [a];
    }
  }

  /** One history on a new set of each kind: the answers agree if and only if no RemoveAll names a
      member twice. */
  method RunBoth<T(!new)>(less: (T, T) -> bool, xs: seq<T>, ops: seq<Op<T>>)
    returns (sorted: seq<Answer>, hash: seq<Answer>)
    requires StrictWeak(less)
    ensures sorted == hash <==> NeverRepeats(Elements(xs), ops)
  {
    sorted := RunSorted(less, xs, ops);
    hash := RunHash(xs, ops);
    AgreementExact(Elements(xs), ops);
  }
}
