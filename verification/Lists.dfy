// Recency lists: sequences without repetition, oldest first, as container/list is used here.
module Lists {

  function Members<R(==)>(s: seq<R>): set<R> {
    if s == [] then {} else {s[0]} + Members(s[1..])
  }

  // list.Remove of the element that holds `r`.
  function Without<R(==)>(s: seq<R>, r: R): (s': seq<R>)
    ensures Members(s') <= Members(s)
  {
    if s == [] then [] else if s[0] == r then s[1..] else [s[0]] + Without(s[1..], r)
  }

  function MoveToBack<R(==)>(s: seq<R>, r: R): seq<R> {
    Without(s, r) + [r]
  }

  ghost predicate Distinct<R>(s: seq<R>) {
    s == [] || (s[0] !in Members(s[1..]) && Distinct(s[1..]))
  }

  lemma {:induction false} DistinctSize<R>(s: seq<R>)
    requires Distinct(s)
    ensures |Members(s)| == |s|
  {
    if s != [] { DistinctSize(s[1..]); }
  }

  lemma {:induction false} WithoutMembers<R>(s: seq<R>, r: R)
    requires Distinct(s) && r in Members(s)
    ensures Distinct(Without(s, r)) && |Without(s, r)| == |s| - 1
    ensures Members(Without(s, r)) == Members(s) - {r}
  {
    if s[0] != r {
      WithoutMembers(s[1..], r);
      assert Without(s, r)[1..] == Without(s[1..], r);
    }
  }

  lemma {:induction false} AppendMembers<R>(s: seq<R>, r: R)
    ensures Members(s + [r]) == Members(s) + {r}
    ensures Distinct(s) && r !in Members(s) ==> Distinct(s + [r])
  {
    if s != [] {
      AppendMembers(s[1..], r);
      assert (s + [r])[1..] == s[1..] + [r];
    }
  }

  lemma MoveToBackMembers<R>(s: seq<R>, r: R)
    requires Distinct(s) && r in Members(s)
    ensures Distinct(MoveToBack(s, r)) && |MoveToBack(s, r)| == |s| && Members(MoveToBack(s, r)) == Members(s)
  {
    WithoutMembers(s, r);
    AppendMembers(Without(s, r), r);
  }

  // ---- Lists in the order of a time kept for each element.

  ghost predicate SortedBy<R>(s: seq<R>, at: map<R, int>)
    requires Members(s) <= at.Keys
  {
    s == [] || ((forall r :: r in Members(s[1..]) ==> at[s[0]] <= at[r]) && SortedBy(s[1..], at))
  }

  lemma {:induction false} SortedByFrame<R>(s: seq<R>, at: map<R, int>, at': map<R, int>)
    requires Members(s) <= at.Keys && Members(s) <= at'.Keys && SortedBy(s, at)
    requires forall r :: r in Members(s) ==> at'[r] == at[r]
    ensures SortedBy(s, at')
  {
    if s != [] { SortedByFrame(s[1..], at, at'); }
  }

  lemma {:induction false} SortedByWithout<R>(s: seq<R>, r: R, at: map<R, int>)
    requires Members(s) <= at.Keys && SortedBy(s, at)
    ensures Members(Without(s, r)) <= at.Keys && SortedBy(Without(s, r), at)
  {
    if s != [] && s[0] != r {
      SortedByWithout(s[1..], r, at);
      assert Without(s, r)[1..] == Without(s[1..], r);
    }
  }

  lemma {:induction false} SortedByAppend<R>(s: seq<R>, r: R, at: map<R, int>)
    requires Members(s) <= at.Keys && r in at && SortedBy(s, at)
    requires forall q :: q in Members(s) ==> at[q] <= at[r]
    ensures Members(s + [r]) <= at.Keys && SortedBy(s + [r], at)
  {
    AppendMembers(s, r);
    if s != [] {
      SortedByAppend(s[1..], r, at);
      AppendMembers(s[1..], r);
      assert (s + [r])[1..] == s[1..] + [r];
    }
  }
}
