/** `Array.prototype.filter`, de-duplication in first-occurrence order (the key
    order of a JavaScript object built by insertion) and counting. */
module Seqs {

  /** `r` occurs in `s` in the same order, possibly with gaps (greedy matching). */
  predicate IsSubsequence<T(==)>(r: seq<T>, s: seq<T>)
    decreases |s|
  {
    |r| == 0 || (|s| > 0 && if r[0] == s[0] then IsSubsequence(r[1..], s[1..]) else IsSubsequence(r, s[1..]))
  }

  /** `r` is what filtering `s` by `keep` must give: only kept elements, every kept
      occurrence of `s` exactly once, in the order of `s`. */
  ghost predicate Selects<T(!new)>(r: seq<T>, s: seq<T>, keep: T -> bool) {
    && (forall i :: 0 <= i < |r| ==> keep(r[i]))
    && (forall x :: multiset(r)[x] == if keep(x) then multiset(s)[x] else 0)
    && IsSubsequence(r, s)
  }

  /** `s.filter(keep)`. */
  function Filter<T(==,!new)>(s: seq<T>, keep: T -> bool): (r: seq<T>)
    ensures Selects(r, s, keep)
    decreases |s|
  {
    if |s| == 0 then []
    else
      assert s == [s[0]] + s[1..];
      if keep(s[0]) then
        var r := [s[0]] + Filter(s[1..], keep);
        assert r[1..] == Filter(s[1..], keep);
        r
      else Filter(s[1..], keep)
  }

  lemma {:induction false} SubsequenceMultiset<T(!new)>(r: seq<T>, s: seq<T>)
    requires IsSubsequence(r, s)
    ensures multiset(r) <= multiset(s)
    decreases |s|
  {
    if |r| > 0 {
      assert s == [s[0]] + s[1..];
      if r[0] == s[0] {
        assert r == [r[0]] + r[1..];
        SubsequenceMultiset(r[1..], s[1..]);
      } else {
        SubsequenceMultiset(r, s[1..]);
      }
    }
  }

  /** The contract of `Filter` determines its result: there is only one sequence
      that `Selects` from `s` by `keep`. */
  lemma {:induction false} SelectsUnique<T(!new)>(r1: seq<T>, r2: seq<T>, s: seq<T>, keep: T -> bool)
    requires Selects(r1, s, keep) && Selects(r2, s, keep)
    ensures r1 == r2
    decreases |s|
  {
    if |s| == 0 {
      assert multiset(r1) == multiset{} && multiset(r2) == multiset{} by {
        forall x ensures multiset(r1)[x] == 0 && multiset(r2)[x] == 0 { }
      }
    } else {
      assert s == [s[0]] + s[1..];
      var a := s[0];
      SelectsTail(r1, s, keep);
      SelectsTail(r2, s, keep);
      if keep(a) {
        SelectsUnique(r1[1..], r2[1..], s[1..], keep);
        assert r1 == [r1[0]] + r1[1..] && r2 == [r2[0]] + r2[1..];
      } else {
        SelectsUnique(r1, r2, s[1..], keep);
      }
    }
  }

  /** Peeling the first element of `s` off a selection. */
  lemma {:induction false} SelectsTail<T(!new)>(r: seq<T>, s: seq<T>, keep: T -> bool)
    requires |s| > 0 && Selects(r, s, keep)
    ensures keep(s[0]) ==> |r| > 0 && r[0] == s[0] && Selects(r[1..], s[1..], keep)
    ensures !keep(s[0]) ==> Selects(r, s[1..], keep)
  {
    var a := s[0];
    assert s == [a] + s[1..];
    if keep(a) {
      assert multiset(r)[a] == multiset(s)[a] > 0;
      assert |r| > 0;
      if r[0] != a {
        SubsequenceMultiset(r, s[1..]);
        assert false;
      }
      assert r == [r[0]] + r[1..];
      forall x ensures multiset(r[1..])[x] == if keep(x) then multiset(s[1..])[x] else 0 {
        assert multiset(r)[x] == multiset{a}[x] + multiset(r[1..])[x];
      }
    } else {
      assert |r| > 0 ==> r[0] != a;
    }
  }

  /** Filtering distributes over concatenation. */
  lemma {:induction false} FilterConcat<T(!new)>(a: seq<T>, b: seq<T>, keep: T -> bool)
    ensures Filter(a + b, keep) == Filter(a, keep) + Filter(b, keep)
    decreases |a|
  {
    if |a| > 0 {
      assert (a + b)[1..] == a[1..] + b;
      FilterConcat(a[1..], b, keep);
    } else {
      assert a + b == b;
    }
  }

  /** Filtering one more element appends it exactly when it is kept. */
  lemma {:induction false} FilterSnoc<T(!new)>(p: seq<T>, x: T, keep: T -> bool)
    ensures Filter(p + [x], keep) == Filter(p, keep) + (if keep(x) then [x] else [])
  {
    FilterConcat(p, [x], keep);
    assert [x][1..] == [];
  }

  /** A prefix one longer is the shorter prefix and the next element. */
  lemma {:induction false} PrefixSnoc<T>(s: seq<T>, i: nat)
    requires 1 <= i <= |s|
    ensures s[..i] == s[..i - 1] + [s[i - 1]]
  {
  }

  /** A filter that keeps every element returns its input unchanged. */
  lemma {:induction false} FilterKeepsAll<T(!new)>(s: seq<T>, keep: T -> bool)
    requires forall i :: 0 <= i < |s| ==> keep(s[i])
    ensures Filter(s, keep) == s
    decreases |s|
  {
    if |s| > 0 {
      FilterKeepsAll(s[1..], keep);
      assert s == [s[0]] + s[1..];
    }
  }

  /** A filter that keeps no element returns the empty sequence. */
  lemma {:induction false} FilterKeepsNone<T(!new)>(s: seq<T>, keep: T -> bool)
    requires forall i :: 0 <= i < |s| ==> !keep(s[i])
    ensures Filter(s, keep) == []
    decreases |s|
  {
    if |s| > 0 {
      FilterKeepsNone(s[1..], keep);
    }
  }

  /** Two predicates that agree on every element filter alike. */
  lemma {:induction false} FilterExtensional<T(!new)>(s: seq<T>, k1: T -> bool, k2: T -> bool)
    requires forall i :: 0 <= i < |s| ==> k1(s[i]) == k2(s[i])
    ensures Filter(s, k1) == Filter(s, k2)
    decreases |s|
  {
    if |s| > 0 {
      FilterExtensional(s[1..], k1, k2);
    }
  }

  /** Filtering twice with the same predicate is filtering once. */
  lemma {:induction false} FilterIdempotent<T(!new)>(s: seq<T>, keep: T -> bool)
    ensures Filter(Filter(s, keep), keep) == Filter(s, keep)
  {
    FilterKeepsAll(Filter(s, keep), keep);
  }

  /** No element occurs twice. */
  predicate Distinct<T(==)>(s: seq<T>) {
    forall i, j :: 0 <= i < j < |s| ==> s[i] != s[j]
  }

  /** The elements of `s` in order of first occurrence: the key order of a
      JavaScript object whose keys are inserted in the order of `s`. */
  function Dedup<T(==,!new)>(s: seq<T>): (r: seq<T>)
    ensures Distinct(r)
    ensures forall x :: x in r <==> x in s
    decreases |s|
  {
    if |s| == 0 then []
    else
      var p := s[..|s| - 1];
      var x := s[|s| - 1];
      assert s == p + [x];
      if x in p then Dedup(p) else Dedup(p) + [x]
  }

  /** Appending an element extends the de-duplicated sequence exactly when the
      element is new. */
  lemma {:induction false} DedupSnoc<T(!new)>(r: seq<T>, s: seq<T>, x: T)
    requires r == Dedup(s)
    ensures x in s ==> Dedup(s + [x]) == r
    ensures x !in s ==> Dedup(s + [x]) == r + [x]
  {
    assert (s + [x])[..|s|] == s;
  }

  /** In a sequence without repetitions every element occurs once. */
  lemma {:induction false} DistinctMultiplicity<T(!new)>(r: seq<T>, x: T)
    requires Distinct(r)
    ensures multiset(r)[x] == if x in r then 1 else 0
    decreases |r|
  {
    if |r| > 0 {
      assert r == [r[0]] + r[1..];
      DistinctMultiplicity(r[1..], x);
      assert forall j :: 0 <= j < |r[1..]| ==> r[1..][j] == r[j + 1] != r[0];
      assert r[0] !in r[1..];
    }
  }

  /** The sum, over `keys`, of how often each key occurs in `s`. */
  function SumMultiplicities<T(==)>(keys: seq<T>, s: seq<T>): nat
    decreases |keys|
  {
    if |keys| == 0 then 0 else multiset(s)[keys[0]] + SumMultiplicities(keys[1..], s)
  }

  lemma {:induction false} SumMultiplicitiesSnoc<T(!new)>(keys: seq<T>, s: seq<T>, x: T)
    ensures SumMultiplicities(keys, s + [x]) == SumMultiplicities(keys, s) + multiset(keys)[x]
    decreases |keys|
  {
    if |keys| > 0 {
      assert keys == [keys[0]] + keys[1..];
      SumMultiplicitiesSnoc(keys[1..], s, x);
    }
  }

  lemma {:induction false} SumMultiplicitiesExtraKey<T(!new)>(keys: seq<T>, s: seq<T>, y: T)
    ensures SumMultiplicities(keys + [y], s) == SumMultiplicities(keys, s) + multiset(s)[y]
    decreases |keys|
  {
    if |keys| == 0 {
      assert keys + [y] == [y];
    } else {
      assert (keys + [y])[1..] == keys[1..] + [y];
      SumMultiplicitiesExtraKey(keys[1..], s, y);
    }
  }

  /** Counting every distinct element of `s` by its multiplicity counts `s`:
      the per-key tallies of a grouping add up to the number of grouped items. */
  lemma {:induction false} TalliesSumToLength<T(!new)>(s: seq<T>)
    ensures SumMultiplicities(Dedup(s), s) == |s|
    decreases |s|
  {
    if |s| > 0 {
      var p := s[..|s| - 1];
      var x := s[|s| - 1];
      assert s == p + [x];
      TalliesSumToLength(p);
      SumMultiplicitiesSnoc(Dedup(p), p, x);
      DistinctMultiplicity(Dedup(p), x);
      if x !in p {
        SumMultiplicitiesExtraKey(Dedup(p), s, x);
      }
    }
  }

  /** How often `x` occurs among the first `n` elements of `s`. */
  function CountUpTo<T(==)>(s: seq<T>, x: T, n: nat): nat
    requires n <= |s|
  {
    if n == 0 then 0 else CountUpTo(s, x, n - 1) + (if s[n - 1] == x then 1 else 0)
  }

  /** The first `n` elements of `s` in order of first occurrence. */
  function FirstUpTo<T(==)>(s: seq<T>, n: nat): seq<T>
    requires n <= |s|
  {
    if n == 0 then []
    else
      var p := FirstUpTo(s, n - 1);
      if s[n - 1] in p then p else p + [s[n - 1]]
  }

  lemma {:induction false} CountUpToMultiset<T(!new)>(s: seq<T>, x: T, n: nat)
    requires n <= |s|
    ensures CountUpTo(s, x, n) == multiset(s[..n])[x]
  {
    if n > 0 {
      CountUpToMultiset(s, x, n - 1);
      assert s[..n] == s[..n - 1] + [s[n - 1]];
    }
  }

  lemma {:induction false} FirstUpToDedup<T(!new)>(s: seq<T>, n: nat)
    requires n <= |s|
    ensures FirstUpTo(s, n) == Dedup(s[..n])
  {
    if n > 0 {
      var p, x := s[..n - 1], s[n - 1];
      FirstUpToDedup(s, n - 1);
      assert s[..n] == p + [x];
      DedupSnoc(Dedup(p), p, x);
      assert x in FirstUpTo(s, n - 1) <==> x in p;
      if x in p {
        assert FirstUpTo(s, n) == Dedup(p);
      } else {
        assert FirstUpTo(s, n) == Dedup(p) + [x];
      }
    }
  }

  lemma {:induction false} FirstUpToMembers<T(!new)>(s: seq<T>, x: T, n: nat)
    requires n <= |s|
    ensures x in FirstUpTo(s, n) <==> CountUpTo(s, x, n) > 0
  {
    if n > 0 {
      FirstUpToMembers(s, x, n - 1);
    }
  }
}
