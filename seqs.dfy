/** Generic sequence operations that the pages use through JavaScript's array
    methods: `filter`, `map`, `reduce` (summing), a stable `sort` with a
    comparator, and `slice(0, n)`. Each is defined from the right (last element
    peeled off), so that a loop that walks a sequence from the front can state
    its progress as "the function applied to the prefix seen so far". */
module Seqs {

  /** `s.filter(p)`: the elements of `s` that satisfy `p`, in their order. */
  function Filter<T(!new)>(s: seq<T>, p: T -> bool): (r: seq<T>)
    ensures |r| <= |s|
    ensures forall x :: multiset(r)[x] == if p(x) then multiset(s)[x] else 0
    ensures forall x :: x in r <==> x in s && p(x)
    decreases |s|
  {
    if s == [] then []
    else
      var init := Filter(s[..|s| - 1], p);
      assert s == s[..|s| - 1] + [s[|s| - 1]];
      if p(s[|s| - 1]) then init + [s[|s| - 1]] else init
  }

  /** `s.map(f)`. */
  function MapSeq<A, B>(s: seq<A>, f: A -> B): (r: seq<B>)
    ensures |r| == |s|
    ensures forall k :: 0 <= k < |s| ==> r[k] == f(s[k])
    decreases |s|
  {
    if s == [] then [] else MapSeq(s[..|s| - 1], f) + [f(s[|s| - 1])]
  }

  /** `s.reduce((sum, x) => sum + f(x), 0)`, over exact reals. */
  function SumOf<T>(s: seq<T>, f: T -> real): real
    decreases |s|
  {
    if s == [] then 0.0 else SumOf(s[..|s| - 1], f) + f(s[|s| - 1])
  }

  /** `r` occurs in `s` as a (not necessarily contiguous) subsequence. */
  predicate SubseqOf<T(==)>(r: seq<T>, s: seq<T>)
    decreases |s|
  {
    if r == [] then true
    else if s == [] then false
    else if r[|r| - 1] == s[|s| - 1] then SubseqOf(r[..|r| - 1], s[..|s| - 1])
    else SubseqOf(r, s[..|s| - 1])
  }

  /** `s.slice(0, n)`: the first `n` elements, or all of them when there are fewer. */
  function Prefix<T>(s: seq<T>, n: nat): (r: seq<T>)
    ensures |r| == if |s| < n then |s| else n
    ensures forall k :: 0 <= k < |r| ==> r[k] == s[k]
  {
    if |s| <= n then s else s[..n]
  }

  /** A comparator `le` ("may come before") that a stable sort can use: total and transitive. */
  ghost predicate TotalPreorder<T(!new)>(le: (T, T) -> bool)
  {
    && (forall a, b :: le(a, b) || le(b, a))
    && (forall a, b, c :: le(a, b) && le(b, c) ==> le(a, c))
  }

  predicate SortedBy<T>(s: seq<T>, le: (T, T) -> bool)
  {
    forall i, j :: 0 <= i < j < |s| ==> le(s[i], s[j])
  }

  /** Inserts `x` in front of the first element it may precede; elements that
      compare equal to `x` stay after it. */
  function Insert<T(!new)>(x: T, s: seq<T>, le: (T, T) -> bool): (r: seq<T>)
    requires TotalPreorder(le) && SortedBy(s, le)
    ensures |r| == |s| + 1
    ensures multiset(r) == multiset(s) + multiset{x}
    ensures SortedBy(r, le)
    decreases |s|
  {
    if s == [] || le(x, s[0]) then
      assert forall j :: 0 < j < |s| ==> le(s[0], s[j]);
      [x] + s
    else
      var rest := Insert(x, s[1..], le);
      assert s == [s[0]] + s[1..];
      assert forall k :: 0 <= k < |rest| ==> le(s[0], rest[k]) by {
        forall k | 0 <= k < |rest| ensures le(s[0], rest[k]) {
          assert rest[k] in multiset(rest);
          if rest[k] != x {
            assert rest[k] in multiset(s[1..]);
            var j :| 0 <= j < |s[1..]| && s[1..][j] == rest[k];
            assert le(s[0], s[j + 1]);
          }
        }
      }
      [s[0]] + rest
  }

  /** `s.sort(cmp)` for a comparator whose "not after" relation is `le`.
      The result is sorted and a permutation of `s`; like JavaScript's sort it
      keeps equal elements in their input order. */
  function SortBy<T(!new)>(s: seq<T>, le: (T, T) -> bool): (r: seq<T>)
    requires TotalPreorder(le)
    ensures |r| == |s|
    ensures multiset(r) == multiset(s)
    ensures SortedBy(r, le)
    decreases |s|
  {
    if s == [] then []
    else
      assert s == [s[0]] + s[1..];
      Insert(s[0], SortBy(s[1..], le), le)
  }

  // ---------------------------------------------------------------------
  // Lemmas about these operations
  // ---------------------------------------------------------------------

  lemma {:induction false} SumOfAppend<T>(a: seq<T>, b: seq<T>, f: T -> real)
    ensures SumOf(a + b, f) == SumOf(a, f) + SumOf(b, f)
    decreases |b|
  {
    if b == [] {
      assert a + b == a;
    } else {
      var b' := b[..|b| - 1];
      assert (a + b)[..|a + b| - 1] == a + b';
      SumOfAppend(a, b', f);
    }
  }

  /** Taking one element out of a sum. */
  lemma SumOfRemove<T>(b: seq<T>, k: nat, f: T -> real)
    requires k < |b|
    ensures SumOf(b, f) == SumOf(b[..k] + b[k + 1..], f) + f(b[k])
  {
    var left, x, right := b[..k], b[k], b[k + 1..];
    assert b == left + ([x] + right);
    SumOfAppend(left, [x] + right, f);
    SumOfAppend([x], right, f);
    SumOfAppend(left, right, f);
    SumOfSingleton(x, f);
  }

  /** Replacing one element changes the sum by the difference of its terms. */
  lemma SumOfUpdate<T>(s: seq<T>, k: nat, y: T, f: T -> real)
    requires k < |s|
    ensures SumOf(s[k := y], f) == SumOf(s, f) - f(s[k]) + f(y)
  {
    SumOfRemove(s, k, f);
    SumOfRemove(s[k := y], k, f);
    assert s[k := y][..k] + s[k := y][k + 1..] == s[..k] + s[k + 1..];
  }

  lemma SumOfSingleton<T>(x: T, f: T -> real)
    ensures SumOf([x], f) == f(x)
  {
    assert [x][..0] == [];
  }

  /** A sum over a sequence does not depend on the order of its elements. */
  lemma {:induction false} SumOfPermutation<T>(a: seq<T>, b: seq<T>, f: T -> real)
    requires multiset(a) == multiset(b)
    ensures SumOf(a, f) == SumOf(b, f)
    decreases |a|
  {
    if a == [] {
      assert |b| == |multiset(b)| == 0;
    } else {
      var x := a[|a| - 1];
      var a' := a[..|a| - 1];
      assert a == a' + [x];
      assert x in multiset(b);
      var k :| 0 <= k < |b| && b[k] == x;
      var b' := b[..k] + b[k + 1..];
      assert multiset(b') == multiset(b) - multiset{x} by {
        assert b == b[..k] + [x] + b[k + 1..];
      }
      assert multiset(a') == multiset(a) - multiset{x};
      SumOfPermutation(a', b', f);
      SumOfRemove(b, k, f);
    }
  }

  /** Dropping elements on which `f` is zero does not change the sum. */
  lemma {:induction false} SumOfFilterDropsZeros<T(!new)>(s: seq<T>, p: T -> bool, f: T -> real)
    requires forall x :: x in s && !p(x) ==> f(x) == 0.0
    ensures SumOf(Filter(s, p), f) == SumOf(s, f)
    decreases |s|
  {
    if s != [] {
      var init := s[..|s| - 1];
      SumOfFilterDropsZeros(init, p, f);
      if p(s[|s| - 1]) {
        var fi := Filter(init, p);
        assert (fi + [s[|s| - 1]])[..|fi|] == fi;
      }
    }
  }

  /** With non-negative terms, a filtered sum is at most the full sum. */
  lemma {:induction false} SumOfFilterAtMost<T(!new)>(s: seq<T>, p: T -> bool, f: T -> real)
    requires forall x :: x in s ==> f(x) >= 0.0
    ensures SumOf(Filter(s, p), f) <= SumOf(s, f)
    decreases |s|
  {
    if s != [] {
      var init := s[..|s| - 1];
      assert s[|s| - 1] in s;
      SumOfFilterAtMost(init, p, f);
      if p(s[|s| - 1]) {
        var fi := Filter(init, p);
        assert (fi + [s[|s| - 1]])[..|fi|] == fi;
      }
    }
  }

  /** Summing over a mapped sequence is summing the composed function. */
  lemma {:induction false} SumOfMapSeq<A, B>(s: seq<A>, g: A -> B, f: B -> real, h: A -> real)
    requires forall x :: x in s ==> h(x) == f(g(x))
    ensures SumOf(MapSeq(s, g), f) == SumOf(s, h)
    decreases |s|
  {
    if s != [] {
      var init := s[..|s| - 1];
      SumOfMapSeq(init, g, f, h);
      var m := MapSeq(init, g);
      assert (m + [g(s[|s| - 1])])[..|m|] == m;
    }
  }

  lemma {:induction false} SumOfNonNegative<T>(s: seq<T>, f: T -> real)
    requires forall x :: x in s ==> f(x) >= 0.0
    ensures SumOf(s, f) >= 0.0
    decreases |s|
  {
    if s != [] {
      SumOfNonNegative(s[..|s| - 1], f);
    }
  }

  lemma {:induction false} SubseqOfSelf<T>(s: seq<T>)
    ensures SubseqOf(s, s)
    decreases |s|
  {
    if s != [] {
      SubseqOfSelf(s[..|s| - 1]);
    }
  }

  /** `filter` keeps the order of what it keeps. */
  lemma {:induction false} FilterIsSubsequence<T(!new)>(s: seq<T>, p: T -> bool)
    ensures SubseqOf(Filter(s, p), s)
    decreases |s|
  {
    if s != [] {
      var init := s[..|s| - 1];
      var x := s[|s| - 1];
      FilterIsSubsequence(init, p);
      var fi := Filter(init, p);
      if p(x) {
        assert (fi + [x])[..|fi|] == fi;
      } else if fi != [] {
        assert fi[|fi| - 1] in fi;
      }
    }
  }

  /** The elements at two positions of a subsequence come, in order, from two
      positions of the whole sequence. */
  lemma {:induction false} SubseqIndices<T>(r: seq<T>, s: seq<T>, i: nat, j: nat)
    requires SubseqOf(r, s) && i < j < |r|
    ensures exists a, b :: 0 <= a < b < |s| && s[a] == r[i] && s[b] == r[j]
    decreases |s|
  {
    var n := |s| - 1;
    if r[|r| - 1] == s[n] {
      if j == |r| - 1 {
        assert SubseqOf(r[..|r| - 1], s[..n]);
        SubseqMember(r[..|r| - 1], s[..n], i);
        var a :| 0 <= a < n && s[..n][a] == r[i];
        assert s[a] == r[i] && s[n] == r[j];
      } else {
        SubseqIndices(r[..|r| - 1], s[..n], i, j);
        var a, b :| 0 <= a < b < n && s[..n][a] == r[i] && s[..n][b] == r[j];
        assert s[a] == r[i] && s[b] == r[j];
      }
    } else {
      SubseqIndices(r, s[..n], i, j);
      var a, b :| 0 <= a < b < n && s[..n][a] == r[i] && s[..n][b] == r[j];
      assert s[a] == r[i] && s[b] == r[j];
    }
  }

  lemma {:induction false} SubseqMember<T>(r: seq<T>, s: seq<T>, i: nat)
    requires SubseqOf(r, s) && i < |r|
    ensures exists a :: 0 <= a < |s| && s[a] == r[i]
    decreases |s|
  {
    var n := |s| - 1;
    if r[|r| - 1] == s[n] && i == |r| - 1 {
    } else if r[|r| - 1] == s[n] {
      SubseqMember(r[..|r| - 1], s[..n], i);
      var a :| 0 <= a < n && s[..n][a] == r[i];
      assert s[a] == r[i];
    } else {
      SubseqMember(r, s[..n], i);
      var a :| 0 <= a < n && s[..n][a] == r[i];
      assert s[a] == r[i];
    }
  }

  /** What a filter keeps and what it drops account for every element. */
  lemma {:induction false} FilterSplitsLength<T(!new)>(s: seq<T>, p: T -> bool, q: T -> bool)
    requires forall x :: q(x) == !p(x)
    ensures |Filter(s, p)| + |Filter(s, q)| == |s|
    decreases |s|
  {
    if s != [] {
      FilterSplitsLength(s[..|s| - 1], p, q);
    }
  }

  /** Every element of a filtered sequence that fails the test is dropped, so a
      test no element can pass leaves nothing. */
  lemma FilterNone<T(!new)>(s: seq<T>, p: T -> bool)
    requires forall x :: x in s ==> !p(x)
    ensures Filter(s, p) == []
  {
    if Filter(s, p) != [] {
      assert Filter(s, p)[0] in Filter(s, p);
    }
  }

  lemma {:induction false} FilterAll<T(!new)>(s: seq<T>, p: T -> bool)
    requires forall x :: x in s ==> p(x)
    ensures Filter(s, p) == s
    decreases |s|
  {
    if s != [] {
      var init, last := s[..|s| - 1], s[|s| - 1];
      assert s == init + [last];
      assert forall x :: x in init ==> x in s;
      FilterAll(init, p);
      assert last in s && p(last);
      assert Filter(s, p) == Filter(init, p) + [last];
    }
  }

  lemma ProductNonNegative(a: real, b: real)
    requires a >= 0.0 && b >= 0.0
    ensures a * b >= 0.0
  {
  }

  /** No element occurs twice. */
  predicate Distinct<T(==)>(s: seq<T>)
  {
    forall i, j :: 0 <= i < j < |s| ==> s[i] != s[j]
  }

  /** An element found at two positions is counted at least twice. */
  lemma TwiceCounted<T>(s: seq<T>, i: nat, j: nat)
    requires i < j < |s| && s[i] == s[j]
    ensures multiset(s)[s[i]] >= 2
  {
    assert s == s[..j] + [s[j]] + s[j + 1..];
    assert multiset(s) == multiset(s[..j]) + multiset([s[j]]) + multiset(s[j + 1..]);
    assert s[..j][i] == s[i];
  }

  /** An element counted at least twice is found at two positions. */
  lemma {:induction false} CountedTwice<T>(s: seq<T>, x: T)
    requires multiset(s)[x] >= 2
    ensures exists i, j :: 0 <= i < j < |s| && s[i] == x && s[j] == x
    decreases |s|
  {
    assert s != [];
    assert s == [s[0]] + s[1..];
    assert multiset(s) == multiset([s[0]]) + multiset(s[1..]);
    if s[0] == x {
      assert x in multiset(s[1..]);
      var k :| 0 <= k < |s[1..]| && s[1..][k] == x;
      assert s[0] == x && s[k + 1] == x;
    } else {
      CountedTwice(s[1..], x);
      var i, j :| 0 <= i < j < |s[1..]| && s[1..][i] == x && s[1..][j] == x;
      assert s[i + 1] == x && s[j + 1] == x;
    }
  }

  /** Reordering a sequence without repetitions gives one without repetitions. */
  lemma PermutationKeepsDistinct<T>(a: seq<T>, b: seq<T>)
    requires multiset(a) == multiset(b) && Distinct(b)
    ensures Distinct(a)
  {
    forall i, j | 0 <= i < j < |a| ensures a[i] != a[j] {
      if a[i] == a[j] {
        TwiceCounted(a, i, j);
        CountedTwice(b, a[i]);
        assert false;
      }
    }
  }

  /** Two permutations of each other hold the same elements. */
  lemma SameElements<T>(a: seq<T>, b: seq<T>)
    requires multiset(a) == multiset(b)
    ensures forall x :: x in a <==> x in b
  {
    forall x ensures x in a <==> x in b {
      assert x in a <==> x in multiset(a);
      assert x in b <==> x in multiset(b);
    }
  }

  /** A subsequence of a sorted sequence is sorted by the same order. */
  lemma SubseqKeepsSorted<T>(r: seq<T>, s: seq<T>, le: (T, T) -> bool)
    requires SubseqOf(r, s)
    ensures SortedBy(s, le) ==> SortedBy(r, le)
  {
    if SortedBy(s, le) {
      forall i, j | 0 <= i < j < |r| ensures le(r[i], r[j]) {
        SubseqIndices(r, s, i, j);
        var a, b :| 0 <= a < b < |s| && s[a] == r[i] && s[b] == r[j];
      }
    }
  }
}
