/** The few `Array.prototype` methods the storefront's stores are written with,
    as pure functions over sequences, together with the facts about them that
    the cart proofs need. */
module JsArray {
  import opened Wrappers

  /** `s.map(f)`: the element at every position is replaced by its image. */
  function Map<A, B>(s: seq<A>, f: A -> B): (r: seq<B>)
    ensures |r| == |s|
    ensures forall i :: 0 <= i < |s| ==> r[i] == f(s[i])
  {
    if |s| == 0 then [] else [f(s[0])] + Map(s[1..], f)
  }

  /** `s.filter(p)`: the elements satisfying `p`, in their original order. */
  function Filter<A>(s: seq<A>, p: A -> bool): (r: seq<A>)
    ensures forall i :: 0 <= i < |r| ==> p(r[i])
    ensures multiset(r) <= multiset(s)
  {
    if |s| == 0 then []
    else
      assert s == [s[0]] + s[1..];
      (if p(s[0]) then [s[0]] else []) + Filter(s[1..], p)
  }

  /** Nothing that satisfies `p` is filtered out. */
  lemma {:induction false} FilterKeepsMatches<A>(s: seq<A>, p: A -> bool)
    ensures forall i :: 0 <= i < |s| && p(s[i]) ==> s[i] in Filter(s, p)
  {
    if |s| > 0 {
      FilterKeepsMatches(s[1..], p);
      assert forall i :: 1 <= i < |s| ==> s[i] == s[1..][i - 1];
    }
  }

  /** `s.find(p)`: the first element satisfying `p`, or nothing. */
  function Find<A>(s: seq<A>, p: A -> bool): (r: Option<A>)
    ensures r.Some? <==> exists i :: 0 <= i < |s| && p(s[i])
    ensures r.Some? ==> r.value in s && p(r.value)
  {
    if |s| == 0 then None
    else if p(s[0]) then Some(s[0])
    else Find(s[1..], p)
  }

  /** `find` returns the first match: the element at the lowest matching position. */
  lemma {:induction false} FindIsFirst<A>(s: seq<A>, p: A -> bool)
    ensures forall i :: 0 <= i < |s| && p(s[i]) && (forall j :: 0 <= j < i ==> !p(s[j]))
              ==> Find(s, p) == Some(s[i])
  {
    if |s| > 0 && !p(s[0]) {
      FindIsFirst(s[1..], p);
      forall i | 0 <= i < |s| && p(s[i]) && (forall j :: 0 <= j < i ==> !p(s[j]))
        ensures Find(s, p) == Some(s[i])
      {
        assert i != 0;
        forall j | 0 <= j < i - 1 ensures !p(s[1..][j]) {
          assert s[1..][j] == s[j + 1];
        }
        assert s[1..][i - 1] == s[i];
      }
    }
  }

  /** `s.reduce(f, acc)`: a left fold, combining the accumulator with each
      element from the first to the last. */
  function Reduce<A, B>(s: seq<A>, f: (B, A) -> B, acc: B): B
  {
    if |s| == 0 then acc else Reduce(s[1..], f, f(acc, s[0]))
  }

  /** The reducer `(acc, x) => acc + w(x)`. */
  function Adder<A>(w: A -> int): (int, A) -> int
  {
    (acc: int, x: A) => acc + w(x)
  }

  /** The mathematical sum of `w` over `s`: the reference the folds are proved against. */
  function SumOf<A>(s: seq<A>, w: A -> int): int
  {
    if |s| == 0 then 0 else w(s[0]) + SumOf(s[1..], w)
  }

  /** Folding with an adder from `acc` yields `acc` plus the sum. */
  lemma {:induction false} ReduceAdderIsSum<A>(s: seq<A>, w: A -> int, acc: int)
    ensures Reduce(s, Adder(w), acc) == acc + SumOf(s, w)
  {
    if |s| > 0 {
      assert Adder(w)(acc, s[0]) == acc + w(s[0]);
      ReduceAdderIsSum(s[1..], w, acc + w(s[0]));
    }
  }

  lemma {:induction false} SumOfConcat<A>(a: seq<A>, b: seq<A>, w: A -> int)
    ensures SumOf(a + b, w) == SumOf(a, w) + SumOf(b, w)
  {
    if |a| == 0 {
      assert a + b == b;
    } else {
      assert (a + b)[1..] == a[1..] + b;
      SumOfConcat(a[1..], b, w);
    }
  }

  /** A sequence is its prefix before `k`, the element at `k`, and the rest. */
  lemma SplitAt<A>(s: seq<A>, k: int)
    requires 0 <= k < |s|
    ensures s == s[..k] + ([s[k]] + s[k+1..])
  {
    assert s[k..] == [s[k]] + s[k+1..];
    assert s == s[..k] + s[k..];
  }

  /** Replacing one element changes the sum by the difference of the two weights. */
  lemma SumOfUpdate<A>(s: seq<A>, k: int, x: A, w: A -> int)
    requires 0 <= k < |s|
    ensures SumOf(s[k := x], w) == SumOf(s, w) - w(s[k]) + w(x)
  {
    var front, back := s[..k], s[k+1..];
    SplitAt(s, k);
    SplitAt(s[k := x], k);
    assert s[k := x][..k] == front && s[k := x][k+1..] == back;
    SumOfConcat(front, [s[k]] + back, w);
    SumOfConcat(front, [x] + back, w);
    SumOfCons(s[k], back, w);
    SumOfCons(x, back, w);
  }

  /** Deleting one element lowers the sum by its weight. */
  lemma SumOfDelete<A>(s: seq<A>, k: int, w: A -> int)
    requires 0 <= k < |s|
    ensures SumOf(s[..k] + s[k+1..], w) == SumOf(s, w) - w(s[k])
  {
    SplitAt(s, k);
    SumOfConcat(s[..k], [s[k]] + s[k+1..], w);
    SumOfConcat(s[..k], s[k+1..], w);
    SumOfCons(s[k], s[k+1..], w);
  }

  lemma SumOfCons<A>(x: A, s: seq<A>, w: A -> int)
    ensures SumOf([x] + s, w) == w(x) + SumOf(s, w)
  {
    assert ([x] + s)[1..] == s;
  }

  /** A sum of weights that are all at least one is at least the length. */
  lemma {:induction false} SumOfAtLeastLength<A>(s: seq<A>, w: A -> int)
    requires forall i :: 0 <= i < |s| ==> w(s[i]) >= 1
    ensures SumOf(s, w) >= |s|
  {
    if |s| > 0 {
      assert forall i :: 0 <= i < |s| - 1 ==> s[1..][i] == s[i + 1];
      SumOfAtLeastLength(s[1..], w);
    }
  }

  /** Filtering distributes over concatenation, so it keeps relative order. */
  lemma {:induction false} FilterConcat<A>(a: seq<A>, b: seq<A>, p: A -> bool)
    ensures Filter(a + b, p) == Filter(a, p) + Filter(b, p)
  {
    if |a| == 0 {
      assert a + b == b;
    } else {
      assert (a + b)[1..] == a[1..] + b;
      FilterConcat(a[1..], b, p);
    }
  }

  /** Every value keeps all its occurrences when it satisfies `p` and loses
      them all otherwise. */
  lemma {:induction false} FilterCount<A>(s: seq<A>, p: A -> bool, x: A)
    ensures multiset(Filter(s, p))[x] == if p(x) then multiset(s)[x] else 0
  {
    if |s| > 0 {
      assert s == [s[0]] + s[1..];
      FilterCount(s[1..], p, x);
    }
  }

  lemma FilterCons<A>(x: A, s: seq<A>, p: A -> bool)
    ensures Filter([x] + s, p) == (if p(x) then [x] else []) + Filter(s, p)
  {
    assert ([x] + s)[1..] == s;
  }

  /** A filter that rejects exactly one position deletes that position. */
  lemma FilterDropsOne<A>(s: seq<A>, k: int, p: A -> bool)
    requires 0 <= k < |s| && !p(s[k])
    requires forall i :: 0 <= i < |s| && i != k ==> p(s[i])
    ensures Filter(s, p) == s[..k] + s[k+1..]
  {
    FilterAround(s, k, p);
    KeepAllBefore(s, k, p);
    KeepAllAfter(s, k, p);
  }

  lemma FilterAround<A>(s: seq<A>, k: int, p: A -> bool)
    requires 0 <= k < |s| && !p(s[k])
    ensures Filter(s, p) == Filter(s[..k], p) + Filter(s[k+1..], p)
  {
    SplitAt(s, k);
    FilterConcat(s[..k], [s[k]] + s[k+1..], p);
    FilterCons(s[k], s[k+1..], p);
  }

  lemma KeepAllBefore<A>(s: seq<A>, k: int, p: A -> bool)
    requires 0 <= k <= |s|
    requires forall i :: 0 <= i < k ==> p(s[i])
    ensures Filter(s[..k], p) == s[..k]
  {
    assert forall i :: 0 <= i < k ==> s[..k][i] == s[i];
    FilterKeepsAll(s[..k], p);
  }

  lemma KeepAllAfter<A>(s: seq<A>, k: int, p: A -> bool)
    requires 0 <= k < |s|
    requires forall i :: k < i < |s| ==> p(s[i])
    ensures Filter(s[k+1..], p) == s[k+1..]
  {
    var back := s[k+1..];
    forall i | 0 <= i < |back| ensures p(back[i]) {
      assert back[i] == s[k + 1 + i];
    }
    FilterKeepsAll(back, p);
  }

  /** A filter that rejects nothing is the identity. */
  lemma {:induction false} FilterKeepsAll<A>(s: seq<A>, p: A -> bool)
    requires forall i :: 0 <= i < |s| ==> p(s[i])
    ensures Filter(s, p) == s
  {
    if |s| > 0 {
      var tail := s[1..];
      forall i | 0 <= i < |tail| ensures p(tail[i]) {
        assert tail[i] == s[i + 1];
      }
      FilterKeepsAll(tail, p);
    }
  }
}
