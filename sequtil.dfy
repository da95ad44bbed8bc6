/** Order-preserving list operations that the agents build with Python list
    comprehensions (`[x for x in xs if p(x)]`, `xs[:k]`, `set(xs)`), with the
    facts about them that the agent models rely on. */
module SeqUtil {

  /** `[x for x in s if p(x)]` */
  function Filter<T>(s: seq<T>, p: T -> bool): (r: seq<T>)
    ensures |r| <= |s|
    ensures forall x :: x in r ==> x in s && p(x)
    ensures forall x :: x in s && p(x) ==> x in r
  {
    if s == [] then []
    else if p(s[0]) then [s[0]] + Filter(s[1..], p)
    else Filter(s[1..], p)
  }

  /** The complementary predicate, used for the "other half" of a partition. */
  function Not<T>(p: T -> bool): T -> bool {
    x => !p(x)
  }

  /** The two halves of a filter account for every element exactly once. */
  lemma {:induction false} FilterPartition<T>(s: seq<T>, p: T -> bool)
    ensures |Filter(s, p)| + |Filter(s, Not(p))| == |s|
    ensures multiset(Filter(s, p)) + multiset(Filter(s, Not(p))) == multiset(s)
  {
    if s != [] {
      FilterPartition(s[1..], p);
      assert s == [s[0]] + s[1..];
    }
  }

  /** Filtering distributes over concatenation, which is what lets a loop build
      a filtered list one element at a time. */
  lemma {:induction false} FilterAppend<T>(s: seq<T>, x: T, p: T -> bool)
    ensures Filter(s + [x], p) == Filter(s, p) + (if p(x) then [x] else [])
  {
    if s == [] {
      assert s + [x] == [x];
    } else {
      assert (s + [x])[1..] == s[1..] + [x];
      FilterAppend(s[1..], x, p);
    }
  }

  /** Filtering twice with the same predicate changes nothing. */
  lemma {:induction false} FilterIdempotent<T>(s: seq<T>, p: T -> bool)
    ensures Filter(Filter(s, p), p) == Filter(s, p)
  {
    if s != [] {
      FilterIdempotent(s[1..], p);
    }
  }

  /** `r` can be obtained from `s` by deleting elements: the relative order
      of what is kept is the order of the input (greedy matching decides it). */
  predicate IsSubsequence<T(==)>(r: seq<T>, s: seq<T>)
    decreases |s|
  {
    if r == [] then true
    else if s == [] then false
    else if r[0] == s[0] then IsSubsequence(r[1..], s[1..])
    else IsSubsequence(r, s[1..])
  }

  lemma {:induction false} FilterIsSubsequence<T>(s: seq<T>, p: T -> bool)
    ensures IsSubsequence(Filter(s, p), s)
  {
    if s != [] {
      FilterIsSubsequence(s[1..], p);
      if !p(s[0]) {
        SkipKeepsSubsequence(Filter(s[1..], p), s[0], s[1..]);
      }
    }
  }

  lemma {:induction false} SkipKeepsSubsequence<T>(r: seq<T>, x: T, s: seq<T>)
    requires IsSubsequence(r, s)
    ensures IsSubsequence(r, [x] + s)
    decreases |s|, 1
  {
    if r != [] && r[0] == x {
      // Matching x against r[0] must still leave room for the rest of r.
      SubsequenceDropFirst(r, s);
      assert ([x] + s)[1..] == s;
    } else {
      assert ([x] + s)[1..] == s;
    }
  }

  lemma {:induction false} SubsequenceDropFirst<T>(r: seq<T>, s: seq<T>)
    requires r != [] && IsSubsequence(r, s)
    ensures IsSubsequence(r[1..], s)
    decreases |s|, 0
  {
    if s != [] {
      if r[0] == s[0] {
        SkipKeepsSubsequence(r[1..], s[0], s[1..]);
        assert [s[0]] + s[1..] == s;
      } else {
        SubsequenceDropFirst(r, s[1..]);
        SkipKeepsSubsequence(r[1..], s[0], s[1..]);
        assert [s[0]] + s[1..] == s;
      }
    }
  }

  /** `xs[:k]` for a non-negative k. */
  function Take<T>(s: seq<T>, k: nat): (r: seq<T>)
    ensures |r| == if k < |s| then k else |s|
    ensures r == s[..|r|]
  {
    if k < |s| then s[..k] else s
  }

  /** The distinct elements of a list never outnumber its elements, and a
      non-empty list has at least one. */
  lemma {:induction false} DistinctCount<T>(s: seq<T>)
    ensures |set x | x in s| <= |s|
    ensures s != [] ==> |set x | x in s| >= 1
  {
    if s != [] {
      DistinctCount(s[1..]);
      var rest := set x | x in s[1..];
      assert (set x | x in s) == rest + {s[0]};
      assert s[0] in (set x | x in s);
    }
  }

  /** Filtering distributes over any concatenation. */
  lemma {:induction false} FilterConcat<T>(a: seq<T>, b: seq<T>, p: T -> bool)
    ensures Filter(a + b, p) == Filter(a, p) + Filter(b, p)
  {
    if a == [] {
      assert a + b == b;
    } else {
      assert (a + b)[1..] == a[1..] + b;
      FilterConcat(a[1..], b, p);
    }
  }

  /** Filtering first by a weaker predicate changes nothing for a stronger one. */
  lemma {:induction false} FilterWeaker<T>(s: seq<T>, p: T -> bool, q: T -> bool)
    requires forall x :: q(x) ==> p(x)
    ensures Filter(Filter(s, p), q) == Filter(s, q)
  {
    if s != [] {
      FilterWeaker(s[1..], p, q);
    }
  }

  /** A filter that rejects every element leaves nothing. */
  lemma {:induction false} FilterNone<T>(s: seq<T>, p: T -> bool)
    requires forall i :: 0 <= i < |s| ==> !p(s[i])
    ensures Filter(s, p) == []
  {
    if s != [] {
      FilterNone(s[1..], p);
    }
  }

  /** Cutting off a suffix the filter rejects changes nothing. */
  lemma FilterDropSuffix<T>(c: seq<T>, b: nat, p: T -> bool)
    requires b <= |c|
    requires forall i :: b <= i < |c| ==> !p(c[i])
    ensures Filter(c[..b], p) == Filter(c, p)
  {
    var z := c[b..];
    assert forall i :: 0 <= i < |z| ==> !p(z[i]) by {
      forall i | 0 <= i < |z| ensures !p(z[i]) { assert z[i] == c[b + i]; }
    }
    FilterNone(z, p);
    assert c == c[..b] + z;
    FilterConcat(c[..b], z, p);
  }

  /** Cutting off ends the filter rejects anyway changes nothing. */
  lemma {:induction false} FilterSlice<T>(c: seq<T>, a: nat, b: nat, p: T -> bool)
    requires a <= b <= |c|
    requires forall i :: 0 <= i < a ==> !p(c[i])
    requires forall i :: b <= i < |c| ==> !p(c[i])
    ensures Filter(c[a..b], p) == Filter(c, p)
    decreases a
  {
    if a == 0 {
      assert c[0..b] == c[..b];
      FilterDropSuffix(c, b, p);
    } else {
      assert !p(c[0]);
      assert c[1..][a - 1..b - 1] == c[a..b];
      FilterSlice(c[1..], a - 1, b - 1, p);
    }
  }

  /** A filter that accepts every element keeps the list whole. */
  lemma {:induction false} FilterAll<T>(s: seq<T>, p: T -> bool)
    requires forall i :: 0 <= i < |s| ==> p(s[i])
    ensures Filter(s, p) == s
  {
    if s != [] {
      FilterAll(s[1..], p);
    }
  }

  /** Two predicates that agree on every element filter alike. */
  lemma {:induction false} FilterCongruent<T>(s: seq<T>, p: T -> bool, q: T -> bool)
    requires forall i :: 0 <= i < |s| ==> p(s[i]) == q(s[i])
    ensures Filter(s, p) == Filter(s, q)
  {
    if s != [] {
      FilterCongruent(s[1..], p, q);
    }
  }

  /** Appending the same element to both sides keeps a subsequence, and
      so does appending to the longer side only. */
  lemma {:induction false} SubsequenceSnoc<T>(r: seq<T>, s: seq<T>, x: T)
    requires IsSubsequence(r, s)
    ensures IsSubsequence(r, s + [x])
    ensures IsSubsequence(r + [x], s + [x])
    decreases |s|
  {
    if s == [] {
      assert r == [];
      assert ([x] + [x])[1..] == [x] && ([] + [x]) == [x];
      SingletonSubsequence(x, [x]);
    } else {
      assert (s + [x])[1..] == s[1..] + [x];
      if r == [] {
        assert r + [x] == [x];
        SingletonSubsequence(x, s + [x]);
      } else if r[0] == s[0] {
        SubsequenceSnoc(r[1..], s[1..], x);
        assert (r + [x])[1..] == r[1..] + [x];
      } else {
        SubsequenceSnoc(r, s[1..], x);
      }
    }
  }

  lemma {:induction false} SingletonSubsequence<T>(x: T, s: seq<T>)
    requires s != [] && s[|s| - 1] == x
    ensures IsSubsequence([x], s)
    decreases |s|
  {
    if s[0] != x {
      SingletonSubsequence(x, s[1..]);
    } else {
      assert [x][1..] == [];
    }
  }

  /** `[s[i] for i in range(len(s)) if keep(i)]`: a filter that decides by
      position (a random draw per element, say) rather than by value. */
  function Kept<T>(s: seq<T>, keep: nat -> bool): (r: seq<T>)
    ensures |r| <= |s|
    decreases |s|
  {
    if s == [] then []
    else Kept(s[..|s| - 1], keep) + (if keep(|s| - 1) then [s[|s| - 1]] else [])
  }

  function NotAt(keep: nat -> bool): nat -> bool {
    (i: nat) => !keep(i)
  }

  /** The kept and the dropped elements together are the input, each element
      once. */
  lemma {:induction false} KeptPartition<T>(s: seq<T>, keep: nat -> bool)
    ensures |Kept(s, keep)| + |Kept(s, NotAt(keep))| == |s|
    ensures multiset(Kept(s, keep)) + multiset(Kept(s, NotAt(keep))) == multiset(s)
    decreases |s|
  {
    if s != [] {
      var init := s[..|s| - 1];
      var x := s[|s| - 1];
      KeptPartition(init, keep);
      assert s == init + [x];
      assert NotAt(keep)(|s| - 1) == !keep(|s| - 1);
    }
  }

  /** What is kept keeps the input order. */
  lemma {:induction false} KeptInOrder<T>(s: seq<T>, keep: nat -> bool)
    ensures IsSubsequence(Kept(s, keep), s)
    decreases |s|
  {
    if s != [] {
      var init, x := s[..|s| - 1], s[|s| - 1];
      KeptInOrder(init, keep);
      assert s == init + [x];
      SubsequenceSnoc(Kept(init, keep), init, x);
      if keep(|s| - 1) {
        assert Kept(s, keep) == Kept(init, keep) + [x];
      } else {
        assert Kept(s, keep) == Kept(init, keep);
      }
    }
  }

  /** Element `s[i]` is kept exactly when `keep(i)`: as a count, the kept
      list has one entry per accepted position. */
  lemma {:induction false} KeptAll<T>(s: seq<T>, keep: nat -> bool)
    requires forall i :: 0 <= i < |s| ==> keep(i)
    ensures Kept(s, keep) == s
    decreases |s|
  {
    if s != [] {
      KeptAll(s[..|s| - 1], keep);
      assert s == s[..|s| - 1] + [s[|s| - 1]];
    }
  }

  /** A position filter that accepts nothing keeps nothing. */
  lemma {:induction false} KeptNone<T>(s: seq<T>, keep: nat -> bool)
    requires forall i :: 0 <= i < |s| ==> !keep(i)
    ensures Kept(s, keep) == []
    decreases |s|
  {
    if s != [] {
      KeptNone(s[..|s| - 1], keep);
    }
  }

  /** Two position filters that never accept the same position keep,
      together, what their union keeps. */
  lemma {:induction false} KeptUnion<T>(s: seq<T>, p: nat -> bool, q: nat -> bool, r: nat -> bool)
    requires forall i: nat :: i < |s| ==> (r(i) <==> p(i) || q(i)) && !(p(i) && q(i))
    ensures multiset(Kept(s, p)) + multiset(Kept(s, q)) == multiset(Kept(s, r))
    decreases |s|
  {
    if s != [] {
      KeptUnion(s[..|s| - 1], p, q, r);
    }
  }

  /** `[f(x) for x in s]` */
  function Map<T, U>(s: seq<T>, f: T -> U): (r: seq<U>)
    ensures |r| == |s|
    ensures forall i :: 0 <= i < |s| ==> r[i] == f(s[i])
  {
    seq(|s|, i requires 0 <= i < |s| => f(s[i]))
  }
}
