// Sequence helpers shared by the model: the `Array.prototype.filter` the
// components use everywhere, and order-preserving subsequences.
module Seqs {

  /** `s.filter(p)`: the elements of `s` that satisfy `p`, in their order. */
  function Filter<T>(p: T -> bool, s: seq<T>): (r: seq<T>)
    ensures |r| <= |s|
    ensures forall i :: 0 <= i < |r| ==> p(r[i])
  {
    if s == [] then [] else (if p(s[0]) then [s[0]] else []) + Filter(p, s[1..])
  }

  /** What `Filter` keeps are elements of `s`, and it keeps every element that satisfies `p`. */
  lemma {:induction false} FilterMembers<T>(p: T -> bool, s: seq<T>)
    ensures forall i :: 0 <= i < |Filter(p, s)| ==> Filter(p, s)[i] in s
    ensures forall i :: 0 <= i < |s| && p(s[i]) ==> s[i] in Filter(p, s)
  {
    if s != [] {
      FilterMembers(p, s[1..]);
      var r, rest := Filter(p, s), Filter(p, s[1..]);
      assert r == (if p(s[0]) then [s[0]] else []) + rest;
      forall i | 0 <= i < |r|
        ensures r[i] in s
      {
        if !p(s[0]) {
          assert r[i] == rest[i];
        } else if i > 0 {
          assert r[i] == rest[i - 1];
        }
      }
      forall i | 0 <= i < |s| && p(s[i])
        ensures s[i] in r
      {
        if i > 0 {
          assert s[i] == s[1..][i - 1];
        }
      }
    }
  }

  /** Putting the same element in front of two lists whose selections differ by a suffix. */
  lemma FilterConsSuffix<T>(p: T -> bool, x: T, a: seq<T>, b: seq<T>, c: seq<T>)
    requires Filter(p, a) == Filter(p, b) + Filter(p, c)
    ensures Filter(p, [x] + a) == Filter(p, [x] + b) + Filter(p, c)
  {
    FilterAppend(p, [x], a);
    FilterAppend(p, [x], b);
    ConcatAssoc(Filter(p, [x]), Filter(p, b), Filter(p, c));
  }

  lemma MultisetWithout<T>(us: seq<T>, k: nat)
    requires k < |us|
    ensures multiset(us) == multiset(us[..k] + us[k + 1..]) + multiset{us[k]}
  {
    assert us == us[..k] + [us[k]] + us[k + 1..];
  }

  /** Matching the first of `ts` with an equal element of its permutation `us`
      leaves two shorter lists that are permutations of each other. */
  lemma MatchFirst<T>(ts: seq<T>, us: seq<T>) returns (k: nat)
    requires ts != [] && multiset(ts) == multiset(us)
    ensures k < |us| && us[k] == ts[0]
    ensures multiset(ts[1..]) == multiset(us[..k] + us[k + 1..])
  {
    var x, a := ts[0], multiset(ts[1..]);
    assert multiset(ts) == a + multiset{x} by {
      assert ts == [x] + ts[1..];
    }
    assert x in multiset(us);
    k :| 0 <= k < |us| && us[k] == x;
    var b := multiset(us[..k] + us[k + 1..]);
    MultisetWithout(us, k);
    MultisetCancel(a, b, x);
  }

  lemma MultisetCancel<T>(a: multiset<T>, b: multiset<T>, x: T)
    requires a + multiset{x} == b + multiset{x}
    ensures a == b
  {
    forall o
      ensures a[o] == b[o]
    {
      assert (a + multiset{x})[o] == (b + multiset{x})[o];
    }
  }

  /** A non-empty list is its front followed by its last element. */
  lemma SplitLast<T>(s: seq<T>)
    requires s != []
    ensures s == s[..|s| - 1] + [s[|s| - 1]]
  {
  }

  lemma ConcatAssoc<T>(a: seq<T>, b: seq<T>, c: seq<T>)
    ensures a + (b + c) == (a + b) + c
  {
  }

  /** Indexing into a list made of three parts. */
  lemma IndexConcat3<T>(x: seq<T>, y: seq<T>, z: seq<T>, i: nat)
    requires i < |x + y + z|
    ensures (x + y + z)[i] == if i < |x| then x[i] else if i < |x| + |y| then y[i - |x|] else z[i - |x| - |y|]
  {
  }

  /** Indexing into the middle part of a three-part concatenation. */
  lemma IndexMiddle<T>(x: seq<T>, y: seq<T>, z: seq<T>, i: nat)
    requires i < |y|
    ensures (x + y + z)[|x| + i] == y[i]
  {
  }

  /** `a` is `b` with some elements left out, the rest kept in order. */
  ghost predicate IsSubsequence<T>(a: seq<T>, b: seq<T>)
    decreases |b|
  {
    if a == [] then true
    else if b == [] then false
    else (a[0] == b[0] && IsSubsequence(a[1..], b[1..])) || IsSubsequence(a, b[1..])
  }

  lemma {:induction false} FilterAppend<T>(p: T -> bool, a: seq<T>, b: seq<T>)
    ensures Filter(p, a + b) == Filter(p, a) + Filter(p, b)
  {
    if a == [] {
      assert a + b == b;
    } else {
      assert (a + b)[1..] == a[1..] + b;
      FilterAppend(p, a[1..], b);
    }
  }

  lemma {:induction false} FilterIsSubsequence<T>(p: T -> bool, s: seq<T>)
    ensures IsSubsequence(Filter(p, s), s)
  {
    if s != [] {
      FilterIsSubsequence(p, s[1..]);
      if p(s[0]) {
        assert Filter(p, s) == [s[0]] + Filter(p, s[1..]);
        assert Filter(p, s)[1..] == Filter(p, s[1..]);
      } else {
        assert Filter(p, s) == Filter(p, s[1..]);
        SkipHead(Filter(p, s), s);
      }
    }
  }

  lemma SkipHead<T>(a: seq<T>, b: seq<T>)
    requires b != [] && IsSubsequence(a, b[1..])
    ensures IsSubsequence(a, b)
  {
  }

  /** A predicate that holds of every element keeps every element. */
  lemma {:induction false} FilterAll<T>(p: T -> bool, s: seq<T>)
    requires forall x :: x in s ==> p(x)
    ensures Filter(p, s) == s
  {
    if s != [] {
      FilterAll(p, s[1..]);
    }
  }

  /** Two predicates that agree on the elements of `s` select the same elements. */
  lemma {:induction false} FilterAgree<T>(p: T -> bool, q: T -> bool, s: seq<T>)
    requires forall x :: x in s ==> p(x) == q(x)
    ensures Filter(p, s) == Filter(q, s)
  {
    if s != [] {
      FilterAgree(p, q, s[1..]);
    }
  }

  /** A weaker predicate selects at least as many elements. */
  lemma {:induction false} FilterWeaker<T>(p: T -> bool, q: T -> bool, s: seq<T>)
    requires forall x :: x in s && p(x) ==> q(x)
    ensures |Filter(p, s)| <= |Filter(q, s)|
  {
    if s != [] {
      FilterWeaker(p, q, s[1..]);
    }
  }

  /** Two complementary predicates split `s` into two parts that together hold all of it. */
  lemma {:induction false} FilterSplit<T>(p: T -> bool, q: T -> bool, s: seq<T>)
    requires forall i :: 0 <= i < |s| ==> q(s[i]) == !p(s[i])
    ensures |Filter(p, s)| + |Filter(q, s)| == |s|
    ensures multiset(Filter(p, s)) + multiset(Filter(q, s)) == multiset(s)
  {
    if s != [] {
      FilterSplit(p, q, s[1..]);
      assert s == [s[0]] + s[1..];
    }
  }
}
