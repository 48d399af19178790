/** Python's lists: slices, `sorted`, filtering. */
module Lists {

  /** `s[:k]`, for any `k`. */
  function Head<T>(s: seq<T>, k: int): seq<T> {
    if k >= |s| then s else if k >= 0 then s[..k] else if |s| + k >= 0 then s[..|s| + k] else []
  }

  /** How many hold. */
  function Count(flags: seq<bool>): nat {
    if flags == [] then 0 else Count(flags[..|flags| - 1]) + if flags[|flags| - 1] then 1 else 0
  }

  lemma {:induction false} CountAtMost(flags: seq<bool>)
    ensures Count(flags) <= |flags|
  {
    if flags != [] {
      CountAtMost(flags[..|flags| - 1]);
    }
  }

  predicate NoDuplicates<T(==)>(s: seq<T>) {
    forall i, j :: 0 <= i < j < |s| ==> s[i] != s[j]
  }

  ghost predicate TotalPreorder<T(!new)>(le: (T, T) -> bool) {
    && (forall a, b :: le(a, b) || le(b, a))
    && (forall a, b, c :: le(a, b) && le(b, c) ==> le(a, c))
  }

  ghost predicate Sorted<T>(s: seq<T>, le: (T, T) -> bool) {
    forall i, j :: 0 <= i < j < |s| ==> le(s[i], s[j])
  }

  /** `x` goes in front of whatever it does not come after. */
  function Insert<T>(x: T, sorted: seq<T>, le: (T, T) -> bool): seq<T> {
    if sorted == [] || le(x, sorted[0]) then [x] + sorted else [sorted[0]] + Insert(x, sorted[1..], le)
  }

  function Sort<T>(s: seq<T>, le: (T, T) -> bool): seq<T> {
    if s == [] then [] else Insert(s[0], Sort(s[1..], le), le)
  }

  lemma {:induction false} InsertKeeps<T>(x: T, sorted: seq<T>, le: (T, T) -> bool)
    ensures multiset(Insert(x, sorted, le)) == multiset(sorted) + multiset{x}
  {
    if !(sorted == [] || le(x, sorted[0])) {
      InsertKeeps(x, sorted[1..], le);
      assert sorted == [sorted[0]] + sorted[1..];
    }
  }

  lemma {:induction false} SortKeeps<T>(s: seq<T>, le: (T, T) -> bool)
    ensures multiset(Sort(s, le)) == multiset(s)
  {
    if s != [] {
      SortKeeps(s[1..], le);
      InsertKeeps(s[0], Sort(s[1..], le), le);
      assert s == [s[0]] + s[1..];
    }
  }

  lemma SameMembers<T>(a: seq<T>, b: seq<T>)
    requires multiset(a) == multiset(b)
    ensures forall x :: x in a <==> x in b
    ensures |a| == |b|
  {
    assert forall x :: x in a <==> x in multiset(a);
    assert forall x :: x in b <==> x in multiset(b);
    assert |multiset(a)| == |a| && |multiset(b)| == |b|;
  }

  lemma {:induction false} InsertSorts<T(!new)>(x: T, sorted: seq<T>, le: (T, T) -> bool)
    requires TotalPreorder(le) && Sorted(sorted, le)
    ensures Sorted(Insert(x, sorted, le), le)
  {
    if sorted != [] && !le(x, sorted[0]) {
      var rest := Insert(x, sorted[1..], le);
      InsertSorts(x, sorted[1..], le);
      InsertKeeps(x, sorted[1..], le);
      SameMembers(rest, sorted[1..] + [x]);
      forall y | y in rest
        ensures le(sorted[0], y)
      {
        assert y in sorted[1..] + [x];
      }
    }
  }

  lemma {:induction false} SortSorts<T(!new)>(s: seq<T>, le: (T, T) -> bool)
    requires TotalPreorder(le)
    ensures Sorted(Sort(s, le), le)
  {
    if s != [] {
      SortSorts(s[1..], le);
      InsertSorts(s[0], Sort(s[1..], le), le);
    }
  }

  /** Equal elements keep their order: a sequence in order stays as it is. */
  lemma {:induction false} SortedStays<T>(s: seq<T>, le: (T, T) -> bool)
    requires Sorted(s, le)
    ensures Sort(s, le) == s
  {
    if s != [] {
      SortedStays(s[1..], le);
      assert |s| > 1 ==> s[1..][0] == s[1] && le(s[0], s[1]);
    }
  }

  /** The elements of `s` that `keep` holds of, in order. */
  function Pick<T>(s: seq<T>, keep: T -> bool): seq<T> {
    if s == [] then []
    else
      var rest := Pick(s[..|s| - 1], keep);
      if keep(s[|s| - 1]) then rest + [s[|s| - 1]] else rest
  }

  lemma PickOneMore<T>(s: seq<T>, x: T, keep: T -> bool)
    ensures Pick(s + [x], keep) == if keep(x) then Pick(s, keep) + [x] else Pick(s, keep)
  {
    assert (s + [x])[..|s|] == s;
  }

  lemma {:induction false} PickAppend<T>(a: seq<T>, b: seq<T>, keep: T -> bool)
    ensures Pick(a + b, keep) == Pick(a, keep) + Pick(b, keep)
  {
    if b == [] {
      assert a + b == a;
    } else {
      var most, last := b[..|b| - 1], b[|b| - 1];
      PickAppend(a, most, keep);
      PickOneMore(a + most, last, keep);
      assert a + b == (a + most) + [last];
      PickOneMore(most, last, keep);
      assert b == most + [last];
    }
  }

  /** What is picked of a prefix is a prefix of what is picked. */
  lemma PickPrefix<T>(a: seq<T>, b: seq<T>, keep: T -> bool)
    requires a <= b
    ensures Pick(a, keep) <= Pick(b, keep)
  {
    PickAppend(a, b[|a|..], keep);
    assert a + b[|a|..] == b;
  }

  lemma {:induction false} PickTwice<T>(s: seq<T>, p: T -> bool, q: T -> bool)
    ensures Pick(Pick(s, p), q) == Pick(Pick(s, q), p)
  {
    if s != [] {
      var rest, last := s[..|s| - 1], s[|s| - 1];
      PickTwice(rest, p, q);
      PickOneMore(Pick(rest, p), last, q);
      PickOneMore(Pick(rest, q), last, p);
    }
  }

  lemma {:induction false} PickMembers<T>(s: seq<T>, keep: T -> bool, x: T)
    ensures x in Pick(s, keep) <==> x in s && keep(x)
  {
    if s != [] {
      PickMembers(s[..|s| - 1], keep, x);
      assert x in s <==> x in s[..|s| - 1] || x == s[|s| - 1];
    }
  }

  lemma {:induction false} PickAll<T>(s: seq<T>, keep: T -> bool)
    requires forall x :: x in s ==> keep(x)
    ensures Pick(s, keep) == s
  {
    if s != [] {
      PickAll(s[..|s| - 1], keep);
    }
  }

  lemma {:induction false} PickNone<T>(s: seq<T>, keep: T -> bool)
    requires forall x :: x in s ==> !keep(x)
    ensures Pick(s, keep) == []
  {
    if s != [] {
      PickNone(s[..|s| - 1], keep);
    }
  }

  lemma {:induction false} PickCounts<T>(s: seq<T>, keep: T -> bool, x: T)
    ensures multiset(Pick(s, keep))[x] == if keep(x) then multiset(s)[x] else 0
  {
    if s != [] {
      PickCounts(s[..|s| - 1], keep, x);
      assert s == s[..|s| - 1] + [s[|s| - 1]];
    }
  }

  lemma SamePick<T(!new)>(a: seq<T>, b: seq<T>, keep: T -> bool)
    requires multiset(a) == multiset(b)
    ensures forall x: T :: multiset(Pick(a, keep))[x] == multiset(Pick(b, keep))[x]
  {
    forall x: T
      ensures multiset(Pick(a, keep))[x] == multiset(Pick(b, keep))[x]
    {
      PickCounts(a, keep, x);
      PickCounts(b, keep, x);
    }
  }
}
