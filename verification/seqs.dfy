/** Sequences without repeated elements, and JavaScript's `[...new Set(s)]`. */
module Seqs {

  predicate NoDup<T(==)>(s: seq<T>)
  {
    forall i, j | 0 <= i < j < |s| :: s[i] != s[j]
  }

  /**
   * `[...new Set(s)]`: a Set remembers the order in which its elements were
   * first added, so this keeps the first occurrence of every element.
   */
  function Dedup<T(==)>(s: seq<T>): (r: seq<T>)
    ensures NoDup(r)
    ensures forall k | 0 <= k < |r| :: r[k] in s
    ensures forall k | 0 <= k < |s| :: s[k] in r
    ensures |r| <= |s|
  {
    if s == [] then []
    else
      var r := Dedup(s[..|s| - 1]);
      assert s == s[..|s| - 1] + [s[|s| - 1]];
      if s[|s| - 1] in r then r else r + [s[|s| - 1]]
  }

  /** Adding one element to a Set appends it if it is new and changes nothing otherwise. */
  lemma DedupSnoc<T>(s: seq<T>, x: T)
    ensures Dedup(s + [x]) == if x in s then Dedup(s) else Dedup(s) + [x]
  {
    assert (s + [x])[..|s + [x]| - 1] == s;
  }

  /** A sequence without repetitions is its own Set. */
  lemma {:induction false} DedupOfNoDup<T>(s: seq<T>)
    requires NoDup(s)
    ensures Dedup(s) == s
  {
    if s != [] {
      var init := s[..|s| - 1];
      DedupOfNoDup(init);
      assert s == init + [s[|s| - 1]];
      DedupSnoc(init, s[|s| - 1]);
    }
  }

  /** The Set of `s + t` starts with the Set of `s`: later elements never reorder earlier ones. */
  lemma {:induction false} DedupPrefix<T>(s: seq<T>, t: seq<T>)
    ensures Dedup(s) <= Dedup(s + t)
    decreases |t|
  {
    if t == [] {
      assert s + t == s;
    } else {
      var t', y := t[..|t| - 1], t[|t| - 1];
      DedupPrefix(s, t');
      var u := s + t';
      assert s + t == u + [y];
      DedupSnoc(u, y);
    }
  }

  /** Adding the same element twice to a Set is the same as adding it once. */
  lemma DedupSnocIdempotent<T>(s: seq<T>, x: T)
    ensures Dedup(Dedup(s + [x]) + [x]) == Dedup(s + [x])
  {
    var r := Dedup(s + [x]);
    DedupSnoc(r, x);
    DedupOfNoDup(r);
  }

  /** `s.map(f)`. */
  function Map<A, B>(f: A -> B, s: seq<A>): (r: seq<B>)
    ensures |r| == |s|
    ensures forall i | 0 <= i < |s| :: r[i] == f(s[i])
  {
    if s == [] then [] else Map(f, s[..|s| - 1]) + [f(s[|s| - 1])]
  }

  lemma MapAppend<A, B>(f: A -> B, a: seq<A>, b: seq<A>)
    ensures Map(f, a + b) == Map(f, a) + Map(f, b)
  {
  }

  /** A list is what comes before its `j`-th element, that element, and what comes after. */
  lemma SplitAround<T>(s: seq<T>, j: nat)
    requires j < |s|
    ensures s == s[..j] + ([s[j]] + s[j + 1..])
  {
  }

  /** The last element of a list is somewhere in any rearrangement of it; taking it out of both leaves rearrangements. */
  lemma FindLast<T>(a: seq<T>, b: seq<T>) returns (j: nat)
    requires a != [] && multiset(a) == multiset(b)
    ensures j < |b| && b[j] == a[|a| - 1] && b == b[..j] + [b[j]] + b[j + 1..]
    ensures multiset(a[..|a| - 1]) == multiset(b[..j] + b[j + 1..])
  {
    var init, x := a[..|a| - 1], a[|a| - 1];
    assert a == init + [x];
    assert x in multiset(b);
    j :| 0 <= j < |b| && b[j] == x;
    var pre, post := b[..j], b[j + 1..];
    assert b == pre + [x] + post;
    assert multiset(init) == multiset(a) - multiset{x};
    assert multiset(pre + post) == multiset(b) - multiset{x};
  }

  /** Mapping two rearrangements of one list gives two rearrangements of one list. */
  lemma {:induction false} MapPermutation<A, B>(f: A -> B, a: seq<A>, b: seq<A>)
    requires multiset(a) == multiset(b)
    ensures multiset(Map(f, a)) == multiset(Map(f, b))
    decreases |a|
  {
    if a != [] {
      var init, x := a[..|a| - 1], a[|a| - 1];
      var j := FindLast(a, b);
      var pre, post := b[..j], b[j + 1..];
      MapPermutation(f, init, pre + post);
      assert Map(f, a) == Map(f, init) + [f(x)];
      MapMiddle(f, pre, x, post);
    }
  }

  /** Taking one element out of a list takes its image out of the mapped list. */
  lemma MapMiddle<A, B>(f: A -> B, pre: seq<A>, x: A, post: seq<A>)
    ensures multiset(Map(f, pre + [x] + post)) == multiset(Map(f, pre + post)) + multiset{f(x)}
  {
    MapAppend(f, pre + [x], post);
    MapAppend(f, pre, [x]);
    MapAppend(f, pre, post);
    assert Map(f, [x]) == [f(x)];
  }
}
