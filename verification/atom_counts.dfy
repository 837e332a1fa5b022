/**
 * The `AtomCount` records of the chemistry utilities: plain JavaScript objects
 * used as dictionaries from element symbol to count. Such an object has its own
 * keys in insertion order (element symbols are never integer-like, so that is
 * the order `Object.keys` and `Object.entries` report), and a value per key.
 */
module AtomCounts {
  import opened Seqs

  datatype AtomCount = AtomCount(keys: seq<string>, count: map<string, int>)

  /** The keys listed are exactly the keys with a value, each listed once. */
  ghost predicate Valid(d: AtomCount)
  {
    && NoDup(d.keys)
    && (forall k | 0 <= k < |d.keys| :: d.keys[k] in d.count)
    && (forall e | e in d.count :: e in d.keys)
  }

  /** The object literal `{}`. */
  const Empty := AtomCount([], map[])

  /** Counts without key order: what two atom counts are compared by. */
  type Tally = map<string, int>

  /** `t[e] || 0`: an absent element counts as 0. */
  function At(t: Tally, e: string): int
  {
    if e in t then t[e] else 0
  }

  function Get(a: AtomCount, e: string): int
  {
    At(a.count, e)
  }

  /** Element-wise sum of two tallies; a key present in either is present in the sum. */
  function Plus(t: Tally, u: Tally): (r: Tally)
    ensures r.Keys == t.Keys + u.Keys
    ensures forall e :: At(r, e) == At(t, e) + At(u, e)
  {
    map e | e in t.Keys + u.Keys :: At(t, e) + At(u, e)
  }

  /** Every count multiplied by `k`; keys are kept even when `k` is 0. */
  function Scale(t: Tally, k: int): (r: Tally)
    ensures r.Keys == t.Keys
    ensures forall e :: At(r, e) == At(t, e) * k
  {
    map e | e in t :: t[e] * k
  }

  /** Two tallies with the same keys and the same counts are equal. */
  lemma TallyEq(t: Tally, u: Tally)
    requires t.Keys == u.Keys
    requires forall e | e in t :: At(t, e) == At(u, e)
    ensures t == u
  {
  }

  /** `a[e] = v`: a new key goes to the end of the key order, an existing key keeps its place. */
  function Put(a: AtomCount, e: string, v: int): AtomCount
  {
    if e in a.count then AtomCount(a.keys, a.count[e := v]) else AtomCount(a.keys + [e], a.count[e := v])
  }

  lemma PutValid(a: AtomCount, e: string, v: int)
    requires Valid(a)
    ensures Valid(Put(a, e, v))
  {
  }

  /** `a[e] = (a[e] || 0) + n` */
  function Bump(a: AtomCount, e: string, n: int): AtomCount
  {
    Put(a, e, Get(a, e) + n)
  }

  lemma BumpCount(a: AtomCount, e: string, n: int)
    ensures Bump(a, e, n).count == a.count[e := At(a.count, e) + n]
  {
  }

  /**
   * The state of `a` after the first `n` rounds of
   * `for (const [e, c] of Object.entries(g)) a[e] = (a[e] || 0) + c * mult`.
   */
  function AddScaledPrefix(a: AtomCount, g: AtomCount, mult: int, n: nat): AtomCount
    requires n <= |g.keys|
  {
    if n == 0 then a
    else
      var e := g.keys[n - 1];
      Bump(AddScaledPrefix(a, g, mult, n - 1), e, Get(g, e) * mult)
  }

  /** Every entry of `g`, multiplied by `mult`, added into `a` in `g`'s key order. */
  function AddScaled(a: AtomCount, g: AtomCount, mult: int): AtomCount
  {
    AddScaledPrefix(a, g, mult, |g.keys|)
  }

  lemma {:induction false} AddScaledPrefixValid(a: AtomCount, g: AtomCount, mult: int, n: nat)
    requires n <= |g.keys| && Valid(a)
    ensures Valid(AddScaledPrefix(a, g, mult, n))
  {
    if n > 0 {
      AddScaledPrefixValid(a, g, mult, n - 1);
      PutValid(AddScaledPrefix(a, g, mult, n - 1), g.keys[n - 1], Get(AddScaledPrefix(a, g, mult, n - 1), g.keys[n - 1]) + Get(g, g.keys[n - 1]) * mult);
    }
  }

  /** The entries of `g` under its first `n` keys. */
  function Partial(g: AtomCount, n: nat): Tally
    requires n <= |g.keys|
  {
    if n == 0 then map[] else Partial(g, n - 1)[g.keys[n - 1] := Get(g, g.keys[n - 1])]
  }

  lemma {:induction false} PartialOmits(g: AtomCount, n: nat, k: nat)
    requires NoDup(g.keys) && n <= k < |g.keys|
    ensures g.keys[k] !in Partial(g, n)
  {
    if n > 0 {
      PartialOmits(g, n - 1, k);
    }
  }

  lemma {:induction false} PartialOfValid(g: AtomCount, n: nat)
    requires Valid(g) && n <= |g.keys|
    ensures forall k | 0 <= k < n :: g.keys[k] in Partial(g, n)
    ensures forall x | x in Partial(g, n) :: x in g.count && Partial(g, n)[x] == g.count[x]
  {
    if n > 0 {
      PartialOfValid(g, n - 1);
    }
  }

  /** Adding one new entry to the merged group adds its scaled count under its key. */
  lemma PlusScaleExtend(t: Tally, u: Tally, e: string, c: int, mult: int, before: Tally)
    requires e !in u && before == Plus(t, Scale(u, mult))
    ensures before[e := At(before, e) + c * mult] == Plus(t, Scale(u[e := c], mult))
  {
    TallyEq(before[e := At(before, e) + c * mult], Plus(t, Scale(u[e := c], mult)));
  }

  lemma {:induction false} AddScaledPrefixCount(a: AtomCount, g: AtomCount, mult: int, n: nat)
    requires n <= |g.keys| && NoDup(g.keys)
    ensures AddScaledPrefix(a, g, mult, n).count == Plus(a.count, Scale(Partial(g, n), mult))
  {
    if n > 0 {
      AddScaledPrefixCount(a, g, mult, n - 1);
      PartialOmits(g, n - 1, n - 1);
      BumpStep(AddScaledPrefix(a, g, mult, n - 1), a.count, Partial(g, n - 1), g.keys[n - 1], Get(g, g.keys[n - 1]), mult);
    } else {
      TallyEq(a.count, Plus(a.count, Scale(Partial(g, n), mult)));
    }
  }

  /** One round of the merge, on counts. */
  lemma BumpStep(p: AtomCount, t: Tally, u: Tally, e: string, c: int, mult: int)
    requires e !in u && p.count == Plus(t, Scale(u, mult))
    ensures Bump(p, e, c * mult).count == Plus(t, Scale(u[e := c], mult))
  {
    BumpCount(p, e, c * mult);
    PlusScaleExtend(t, u, e, c, mult, p.count);
  }

  /** Merging `g` scaled by `mult` into `a` adds `mult` times each of `g`'s counts, key by key. */
  lemma AddScaledCount(a: AtomCount, g: AtomCount, mult: int)
    requires Valid(g)
    ensures AddScaled(a, g, mult).count == Plus(a.count, Scale(g.count, mult))
  {
    AddScaledPrefixCount(a, g, mult, |g.keys|);
    PartialOfValid(g, |g.keys|);
    TallyEq(Partial(g, |g.keys|), g.count);
  }

  /** Every count is at least 1. */
  predicate Positive(t: Tally)
  {
    forall e | e in t :: t[e] >= 1
  }

  lemma PlusPositive(t: Tally, u: Tally)
    requires Positive(t) && Positive(u)
    ensures Positive(Plus(t, u))
  {
  }

  lemma ScalePositive(t: Tally, k: int)
    requires Positive(t) && k >= 1
    ensures Positive(Scale(t, k))
  {
    forall e | e in Scale(t, k) ensures Scale(t, k)[e] >= 1 {
      assert t[e] * k >= t[e];
    }
  }

  lemma PlusAssociative(t: Tally, u: Tally, v: Tally)
    ensures Plus(Plus(t, u), v) == Plus(t, Plus(u, v))
  {
  }

  lemma PlusCommutative(t: Tally, u: Tally)
    ensures Plus(t, u) == Plus(u, t)
  {
  }

  lemma PlusEmpty(t: Tally)
    ensures Plus(map[], t) == t && Plus(t, map[]) == t
  {
  }

  /** The sum of a list of tallies. */
  function Total(ts: seq<Tally>): Tally
  {
    if ts == [] then map[] else Plus(Total(ts[..|ts| - 1]), ts[|ts| - 1])
  }

  lemma {:induction false} TotalAppend(ts: seq<Tally>, us: seq<Tally>)
    ensures Total(ts + us) == Plus(Total(ts), Total(us))
    decreases |us|
  {
    if us == [] {
      assert ts + us == ts;
      PlusEmpty(Total(ts));
    } else {
      var init := us[..|us| - 1];
      assert (ts + us)[..|ts + us| - 1] == ts + init;
      TotalAppend(ts, init);
      PlusAssociative(Total(ts), Total(init), us[|us| - 1]);
    }
  }

  lemma TotalSingle(x: Tally)
    ensures Total([x]) == x
  {
    assert [x][..0] == [];
    PlusEmpty(x);
  }

  /** A sum is the sum without its `j`-th term plus that term. */
  lemma TotalRemove(us: seq<Tally>, j: nat)
    requires j < |us|
    ensures Total(us) == Plus(Total(us[..j] + us[j + 1..]), us[j])
  {
    var pre, x, post := us[..j], us[j], us[j + 1..];
    SplitAround(us, j);
    calc {
      Total(us);
      { TotalAppend(pre, [x] + post); }
      Plus(Total(pre), Total([x] + post));
      { TotalCons(x, post); PlusCommutative(x, Total(post)); }
      Plus(Total(pre), Plus(Total(post), x));
      { PlusAssociative(Total(pre), Total(post), x); }
      Plus(Plus(Total(pre), Total(post)), x);
      { TotalAppend(pre, post); }
      Plus(Total(pre + post), x);
    }
  }

  /** A sum does not depend on the order of its terms. */
  lemma {:induction false} TotalPermutation(ts: seq<Tally>, us: seq<Tally>)
    requires multiset(ts) == multiset(us)
    ensures Total(ts) == Total(us)
    decreases |ts|
  {
    if ts != [] {
      var init, x := ts[..|ts| - 1], ts[|ts| - 1];
      var j := FindLast(ts, us);
      TotalPermutation(init, us[..j] + us[j + 1..]);
      TotalRemove(us, j);
    }
  }

  lemma TotalCons(x: Tally, ts: seq<Tally>)
    ensures Total([x] + ts) == Plus(x, Total(ts))
  {
    TotalAppend([x], ts);
    TotalSingle(x);
  }

  lemma ScalePlus(t: Tally, u: Tally, k: int)
    ensures Scale(Plus(t, u), k) == Plus(Scale(t, k), Scale(u, k))
  {
    forall e ensures At(Scale(Plus(t, u), k), e) == At(Plus(Scale(t, k), Scale(u, k)), e) {
      calc {
        At(Scale(Plus(t, u), k), e);
        (At(t, e) + At(u, e)) * k;
        At(t, e) * k + At(u, e) * k;
      }
    }
    TallyEq(Scale(Plus(t, u), k), Plus(Scale(t, k), Scale(u, k)));
  }

  /** Scaling by two multipliers and adding is scaling by their sum. */
  lemma ScaleSum(t: Tally, a: int, b: int)
    ensures Plus(Scale(t, a), Scale(t, b)) == Scale(t, a + b)
  {
    forall e | e in t ensures At(Plus(Scale(t, a), Scale(t, b)), e) == At(Scale(t, a + b), e) {
      calc {
        At(Plus(Scale(t, a), Scale(t, b)), e);
        At(t, e) * a + At(t, e) * b;
        At(t, e) * (a + b);
      }
    }
    TallyEq(Plus(Scale(t, a), Scale(t, b)), Scale(t, a + b));
  }
}
