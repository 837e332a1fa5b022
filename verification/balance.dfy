/**
 * The balance checker of the chemistry utilities: `countAtomsWithCoefficients`
 * totals the atoms of a side of an equation, `areAtomCountsEqual` compares two
 * totals with a missing element counting as 0, and `isEquationBalanced` and
 * `getAtomComparison` combine the two.
 */
module Balance {
  import opened Seqs
  import opened AtomCounts
  import opened FormulaParser
  import opened ParserProperties
  import opened ChemTypes

  /** A call either returns a value or throws. */
  datatype Outcome<T> = Value(value: T) | Thrown

  /** Every formula parses to an atom count, so counting throws nowhere. */
  predicate AllParse(ms: seq<Weighted>)
  {
    forall i | 0 <= i < |ms| :: Parse(ms[i].formula).Atoms?
  }

  /**
   * `totalAtoms` after the first `n` molecules. A formula whose parse returns
   * `undefined` makes `Object.entries(undefined)` throw, and a parse that throws
   * propagates.
   */
  function TotalPrefix(ms: seq<Weighted>, n: nat): Outcome<AtomCount>
    requires n <= |ms|
  {
    if n == 0 then Value(Empty)
    else match TotalPrefix(ms, n - 1)
      case Thrown => Thrown
      case Value(total) =>
        match Parse(ms[n - 1].formula)
        case Atoms(atoms) => Value(AddScaled(total, atoms, ms[n - 1].coefficient))
        case _ => Thrown
  }

  function Totals(ms: seq<Weighted>): Outcome<AtomCount>
  {
    TotalPrefix(ms, |ms|)
  }

  /** What one molecule adds to its side: its atoms times its coefficient (nothing if its formula does not parse). */
  function Contribution(m: Weighted): Tally
  {
    match Parse(m.formula)
    case Atoms(atoms) => Scale(atoms.count, m.coefficient)
    case _ => map[]
  }

  /** The atoms of a side: the contributions of its molecules, summed. */
  function Sum(ms: seq<Weighted>): Tally
  {
    Total(Map(Contribution, ms))
  }

  lemma {:induction false} TotalPrefixThrown(ms: seq<Weighted>, n: nat, m: nat)
    requires n <= m <= |ms| && TotalPrefix(ms, n).Thrown?
    ensures TotalPrefix(ms, m).Thrown?
    decreases m
  {
    if m > n {
      TotalPrefixThrown(ms, n, m - 1);
    }
  }

  lemma AllParseSnoc(ms: seq<Weighted>, n: nat)
    requires 0 < n <= |ms|
    ensures AllParse(ms[..n]) <==> AllParse(ms[..n - 1]) && Parse(ms[n - 1].formula).Atoms?
  {
    assert forall i | 0 <= i < n - 1 :: ms[..n][i] == ms[..n - 1][i];
  }

  lemma SumSnoc(ms: seq<Weighted>, n: nat)
    requires 0 < n <= |ms|
    ensures Sum(ms[..n]) == Plus(Sum(ms[..n - 1]), Contribution(ms[n - 1]))
  {
    assert ms[..n] == ms[..n - 1] + [ms[n - 1]];
    MapAppend(Contribution, ms[..n - 1], [ms[n - 1]]);
    var ts := Map(Contribution, ms[..n]);
    assert ts[..|ts| - 1] == Map(Contribution, ms[..n - 1]);
  }

  /** One molecule added into a valid total. */
  lemma TotalStep(total: AtomCount, formula: string, mult: int)
    requires Valid(total) && Parse(formula).Atoms?
    ensures var atoms := Parse(formula).atoms;
      Valid(AddScaled(total, atoms, mult)) && AddScaled(total, atoms, mult).count == Plus(total.count, Scale(atoms.count, mult))
  {
    var atoms := Parse(formula).atoms;
    ParsePositive(formula);
    AddScaledPrefixValid(total, atoms, mult, |atoms.keys|);
    AddScaledCount(total, atoms, mult);
  }

  lemma {:induction false} TotalPrefixValue(ms: seq<Weighted>, n: nat)
    requires n <= |ms|
    ensures TotalPrefix(ms, n).Value? <==> AllParse(ms[..n])
  {
    if n > 0 {
      TotalPrefixValue(ms, n - 1);
      AllParseSnoc(ms, n);
    }
  }

  lemma {:induction false} TotalPrefixCount(ms: seq<Weighted>, n: nat)
    requires n <= |ms|
    ensures TotalPrefix(ms, n).Value? ==> Valid(TotalPrefix(ms, n).value) && TotalPrefix(ms, n).value.count == Sum(ms[..n])
  {
    if n > 0 && TotalPrefix(ms, n).Value? {
      TotalPrefixCount(ms, n - 1);
      var m := ms[n - 1];
      var total, atoms := TotalPrefix(ms, n - 1).value, Parse(m.formula).atoms;
      assert TotalPrefix(ms, n) == Value(AddScaled(total, atoms, m.coefficient));
      SumSnoc(ms, n);
      TotalStep(total, m.formula, m.coefficient);
    }
  }

  /**
   * `countAtomsWithCoefficients` returns exactly when every formula parses,
   * and then holds, for each element, the sum over the molecules of its count
   * times the molecule's coefficient. Coefficients are not checked.
   */
  lemma TotalsCount(ms: seq<Weighted>)
    ensures Totals(ms).Value? <==> AllParse(ms)
    ensures Totals(ms).Value? ==> Valid(Totals(ms).value) && Totals(ms).value.count == Sum(ms)
  {
    TotalPrefixValue(ms, |ms|);
    TotalPrefixCount(ms, |ms|);
    assert ms[..|ms|] == ms;
  }

  /** One more molecule: its atoms are added in, or the count throws. */
  lemma TotalPrefixStep(ms: seq<Weighted>, n: nat, total: AtomCount)
    requires n < |ms| && TotalPrefix(ms, n) == Value(total)
    ensures TotalPrefix(ms, n + 1) ==
      if Parse(ms[n].formula).Atoms? then Value(AddScaled(total, Parse(ms[n].formula).atoms, ms[n].coefficient)) else Thrown
  {
  }

  method CountAtomsWithCoefficients(molecules: seq<Weighted>) returns (r: Outcome<AtomCount>)
    ensures r == Totals(molecules)
  {
    var totalAtoms := Empty;
    for n := 0 to |molecules|
      invariant TotalPrefix(molecules, n) == Value(totalAtoms)
    {
      var atoms := ParseFormula(molecules[n].formula);
      if !atoms.Atoms? {
        TotalPrefixStep(molecules, n, totalAtoms);
        TotalPrefixThrown(molecules, n + 1, |molecules|);
        return Thrown;
      }
      TotalPrefixStep(molecules, n, totalAtoms);
      totalAtoms := AddScaledInto(totalAtoms, atoms.atoms, molecules[n].coefficient);
    }
    return Value(totalAtoms);
  }

  // ----------------------------------------------------------------- sums

  lemma AllParseAppend(a: seq<Weighted>, b: seq<Weighted>)
    ensures AllParse(a + b) <==> AllParse(a) && AllParse(b)
  {
    assert forall i | 0 <= i < |a| :: (a + b)[i] == a[i];
    assert forall i | 0 <= i < |b| :: (a + b)[|a| + i] == b[i];
  }

  /** Counting two lists one after the other adds their totals. */
  lemma SumAppend(a: seq<Weighted>, b: seq<Weighted>)
    ensures AllParse(a + b) <==> AllParse(a) && AllParse(b)
    ensures Sum(a + b) == Plus(Sum(a), Sum(b))
  {
    AllParseAppend(a, b);
    MapAppend(Contribution, a, b);
    TotalAppend(Map(Contribution, a), Map(Contribution, b));
  }

  lemma SumSingle(m: Weighted)
    ensures Sum([m]) == Contribution(m)
  {
    TotalSingle(Contribution(m));
  }

  /** The total does not depend on the order of the molecules. */
  lemma SumPermutation(a: seq<Weighted>, b: seq<Weighted>)
    requires multiset(a) == multiset(b)
    ensures AllParse(a) <==> AllParse(b)
    ensures Sum(a) == Sum(b)
  {
    MapPermutation(Contribution, a, b);
    TotalPermutation(Map(Contribution, a), Map(Contribution, b));
    forall i | 0 <= i < |a| ensures a[i] in multiset(b) {
      assert a[i] in multiset(a);
    }
    forall i | 0 <= i < |b| ensures b[i] in multiset(a) {
      assert b[i] in multiset(b);
    }
  }

  /** A molecule's contribution to an element is its count times the coefficient, whatever the coefficient's sign. */
  lemma ContributionOfOne(m: Weighted, e: string)
    requires Parse(m.formula).Atoms?
    ensures At(Sum([m]), e) == Get(Parse(m.formula).atoms, e) * m.coefficient
  {
    SumSingle(m);
  }

  /**
   * The same formula listed twice counts like that formula once with the two
   * coefficients added: either both throw or both total the same atoms.
   */
  lemma CoefficientLinearity(formula: string, c1: int, c2: int)
    ensures var two, one := [Weighted(formula, c1), Weighted(formula, c2)], [Weighted(formula, c1 + c2)];
      && (Totals(two).Value? <==> Totals(one).Value?)
      && (Totals(two).Value? ==> Totals(two).value.count == Totals(one).value.count)
  {
    var two, one := [Weighted(formula, c1), Weighted(formula, c2)], [Weighted(formula, c1 + c2)];
    TotalsCount(two);
    TotalsCount(one);
    SumLinear(formula, c1, c2);
  }

  lemma SumLinear(formula: string, c1: int, c2: int)
    ensures var two, one := [Weighted(formula, c1), Weighted(formula, c2)], [Weighted(formula, c1 + c2)];
      && (AllParse(two) <==> Parse(formula).Atoms?)
      && (AllParse(one) <==> Parse(formula).Atoms?)
      && Sum(two) == Sum(one)
  {
    var two, one := [Weighted(formula, c1), Weighted(formula, c2)], [Weighted(formula, c1 + c2)];
    assert two == [two[0]] + [two[1]];
    SumAppend([two[0]], [two[1]]);
    SumSingle(two[0]);
    SumSingle(two[1]);
    SumSingle(one[0]);
    if Parse(formula).Atoms? {
      ScaleSum(Parse(formula).atoms.count, c1, c2);
    } else {
      PlusEmpty(map[]);
    }
  }

  /** A zero coefficient keeps the formula's elements as keys, each with total 0. */
  lemma ZeroCoefficient(formula: string)
    requires Parse(formula).Atoms?
    ensures var m := Weighted(formula, 0);
      Sum([m]).Keys == Parse(formula).atoms.count.Keys && forall e :: At(Sum([m]), e) == 0
  {
    SumSingle(Weighted(formula, 0));
  }

  // ----------------------------------------------------------- comparison

  /** Equal counts, a missing element counting as 0, checked over the keys of both. */
  predicate SameCounts(t: Tally, u: Tally)
  {
    forall e | e in t.Keys + u.Keys :: At(t, e) == At(u, e)
  }

  lemma SameCountsMeaning(t: Tally, u: Tally)
    ensures SameCounts(t, u) <==> forall e :: At(t, e) == At(u, e)
  {
  }

  /** `areAtomCountsEqual` loops over the keys of both counts, in first-occurrence order, and stops at the first difference. */
  method AreAtomCountsEqual(atoms1: AtomCount, atoms2: AtomCount) returns (r: bool)
    requires Valid(atoms1) && Valid(atoms2)
    ensures r <==> forall e :: Get(atoms1, e) == Get(atoms2, e)
  {
    var allElements := Dedup(atoms1.keys + atoms2.keys);
    for k := 0 to |allElements|
      invariant forall j | 0 <= j < k :: Get(atoms1, allElements[j]) == Get(atoms2, allElements[j])
    {
      if Get(atoms1, allElements[k]) != Get(atoms2, allElements[k]) {
        return false;
      }
    }
    forall e ensures Get(atoms1, e) == Get(atoms2, e) {
      if e in atoms1.count || e in atoms2.count {
        var both := atoms1.keys + atoms2.keys;
        assert e in both;
        var i :| 0 <= i < |both| && both[i] == e;
      }
    }
    return true;
  }

  /** Comparing counts is reflexive and symmetric; an explicit 0 equals a missing key. */
  lemma SameCountsProperties(t: Tally, u: Tally)
    ensures SameCounts(t, t)
    ensures SameCounts(t, u) == SameCounts(u, t)
    ensures SameCounts(map["H" := 2], map["H" := 2, "O" := 0])
  {
    assert At(map["H" := 2], "O") == 0;
  }

  /**
   * `isEquationBalanced`: both sides counted, then compared with missing
   * elements counting as 0. It answers exactly when every formula parses, and
   * answers true exactly when every element has the same total on both sides.
   */
  function IsEquationBalanced(reactants: seq<Weighted>, products: seq<Weighted>): (r: Outcome<bool>)
    ensures r.Value? <==> AllParse(reactants) && AllParse(products)
    ensures r.Value? ==> (r.value <==> forall e :: At(Sum(reactants), e) == At(Sum(products), e))
  {
    TotalsCount(reactants);
    TotalsCount(products);
    match Totals(reactants)
    case Thrown => Thrown
    case Value(rt) =>
      match Totals(products)
      case Thrown => Thrown
      case Value(pt) => Value(SameCounts(rt.count, pt.count))
  }

  /** Swapping the sides changes neither whether the check throws nor its verdict. */
  lemma BalanceSymmetric(reactants: seq<Weighted>, products: seq<Weighted>)
    ensures IsEquationBalanced(reactants, products).Value? <==> IsEquationBalanced(products, reactants).Value?
    ensures IsEquationBalanced(reactants, products).Value? ==>
      IsEquationBalanced(reactants, products).value == IsEquationBalanced(products, reactants).value
  {
  }

  /** The result of `getAtomComparison`. */
  datatype Comparison = Comparison(
    balanced: bool,
    reactantAtoms: AtomCount,
    productAtoms: AtomCount,
    unbalancedElements: seq<string>)

  /** The elements of `all` whose counts differ, in the order of `all`. */
  function Differing(t: Tally, u: Tally, all: seq<string>): seq<string>
  {
    if all == [] then []
    else
      var last := all[|all| - 1];
      Differing(t, u, all[..|all| - 1]) + (if At(t, last) != At(u, last) then [last] else [])
  }

  function Compare(reactants: seq<Weighted>, products: seq<Weighted>): Outcome<Comparison>
  {
    match Totals(reactants)
    case Thrown => Thrown
    case Value(r) =>
      match Totals(products)
      case Thrown => Thrown
      case Value(p) =>
        var unbalanced := Differing(r.count, p.count, Dedup(r.keys + p.keys));
        Value(Comparison(unbalanced == [], r, p, unbalanced))
  }

  method GetAtomComparison(reactants: seq<Weighted>, products: seq<Weighted>) returns (c: Outcome<Comparison>)
    ensures c == Compare(reactants, products)
  {
    var reactantAtoms := CountAtomsWithCoefficients(reactants);
    if reactantAtoms.Thrown? {
      return Thrown;
    }
    var productAtoms := CountAtomsWithCoefficients(products);
    if productAtoms.Thrown? {
      return Thrown;
    }
    var r, p := reactantAtoms.value, productAtoms.value;
    var allElements := Dedup(r.keys + p.keys);
    var unbalancedElements := [];
    for k := 0 to |allElements|
      invariant unbalancedElements == Differing(r.count, p.count, allElements[..k])
    {
      var element := allElements[k];
      assert allElements[..k + 1][..k] == allElements[..k];
      if Get(r, element) != Get(p, element) {
        unbalancedElements := unbalancedElements + [element];
      }
    }
    assert allElements[..|allElements|] == allElements;
    return Value(Comparison(|unbalancedElements| == 0, r, p, unbalancedElements));
  }

  lemma {:induction false} DifferingMembers(t: Tally, u: Tally, all: seq<string>)
    ensures forall x :: x in Differing(t, u, all) <==> x in all && At(t, x) != At(u, x)
    ensures NoDup(all) ==> NoDup(Differing(t, u, all))
  {
    if all != [] {
      var init := all[..|all| - 1];
      DifferingMembers(t, u, init);
      assert all == init + [all[|all| - 1]];
      if NoDup(all) {
        assert NoDup(init) by {
          assert forall i | 0 <= i < |init| :: init[i] == all[i];
        }
      }
    }
  }

  /** The elements of `s` that are in `first` all come before those that are not. */
  predicate FirstsFirst(s: seq<string>, first: set<string>)
  {
    forall i, j | 0 <= i < j < |s| :: s[j] in first ==> s[i] in first
  }

  /** Filtering a list keeps the elements of `first` in front. */
  lemma {:induction false} DifferingKeepsPrecedence(t: Tally, u: Tally, all: seq<string>, first: set<string>)
    requires FirstsFirst(all, first)
    ensures FirstsFirst(Differing(t, u, all), first)
  {
    if all != [] {
      var init, last := all[..|all| - 1], all[|all| - 1];
      assert forall i | 0 <= i < |init| :: init[i] == all[i];
      DifferingKeepsPrecedence(t, u, init, first);
      DifferingMembers(t, u, init);
      var d0 := Differing(t, u, init);
      var d := Differing(t, u, all);
      assert d == d0 + (if At(t, last) != At(u, last) then [last] else []);
      forall i, j | 0 <= i < j < |d| && d[j] in first ensures d[i] in first {
        if j < |d0| {
          assert d[i] == d0[i] && d[j] == d0[j];
        } else {
          assert d[j] == last && d[i] == d0[i];
          assert d0[i] in d0;
          var k :| 0 <= k < |init| && init[k] == d0[i];
          assert all[k] == d0[i] && k < |all| - 1;
        }
      }
    }
  }

  /** In the Set of `a + b`, the elements of `a` come first. */
  lemma ReactantKeysFirst(a: seq<string>, b: seq<string>)
    requires NoDup(a)
    ensures FirstsFirst(Dedup(a + b), set k | k in a)
  {
    var all := Dedup(a + b);
    DedupPrefix(a, b);
    DedupOfNoDup(a);
    forall i, j | 0 <= i < j < |all| && all[j] in a ensures all[i] in a {
      var k :| 0 <= k < |a| && a[k] == all[j];
      assert all[k] == a[k];
      assert k == j;
      assert all[i] == a[i];
    }
  }

  /** The differing elements of two valid counts, over the Set of their keys. */
  lemma DifferingOfCounts(r: AtomCount, p: AtomCount)
    requires Valid(r) && Valid(p)
    ensures var u := Differing(r.count, p.count, Dedup(r.keys + p.keys));
      && NoDup(u)
      && (forall e :: e in u <==> Get(r, e) != Get(p, e))
      && FirstsFirst(u, set k | k in r.keys)
      && (u == [] <==> SameCounts(r.count, p.count))
  {
    var all := Dedup(r.keys + p.keys);
    var u := Differing(r.count, p.count, all);
    DifferingOfCountsMembers(r, p);
    DifferingMembers(r.count, p.count, all);
    ReactantKeysFirst(r.keys, p.keys);
    DifferingKeepsPrecedence(r.count, p.count, all, set k | k in r.keys);
    EmptyDiffering(r.count, p.count, u);
  }

  /** An element is listed exactly when its counts differ, missing keys reading as 0. */
  lemma DifferingOfCountsMembers(r: AtomCount, p: AtomCount)
    requires Valid(r) && Valid(p)
    ensures forall e :: e in Differing(r.count, p.count, Dedup(r.keys + p.keys)) <==> Get(r, e) != Get(p, e)
  {
    var all := Dedup(r.keys + p.keys);
    DifferingMembers(r.count, p.count, all);
    forall e | Get(r, e) != Get(p, e) ensures e in all {
      var both := r.keys + p.keys;
      assert e in r.count || e in p.count;
      assert e in both;
      var i :| 0 <= i < |both| && both[i] == e;
    }
  }

  /** No element listed is no element whose counts differ. */
  lemma EmptyDiffering(t: Tally, v: Tally, u: seq<string>)
    requires forall e :: e in u <==> At(t, e) != At(v, e)
    ensures u == [] <==> SameCounts(t, v)
  {
    if u != [] {
      assert u[0] in u;
    }
  }

  /**
   * `getAtomComparison`: the unbalanced elements are exactly the elements of
   * either side whose totals differ, each listed once, the reactants' elements
   * first; `balanced` holds when there are none and always agrees with
   * `isEquationBalanced`.
   */
  lemma CompareMeaning(reactants: seq<Weighted>, products: seq<Weighted>)
    ensures Compare(reactants, products).Value? <==> AllParse(reactants) && AllParse(products)
    ensures Compare(reactants, products).Value? ==>
      var c := Compare(reactants, products).value;
      var u := c.unbalancedElements;
      && NoDup(u)
      && (forall e :: e in u <==> At(Sum(reactants), e) != At(Sum(products), e))
      && FirstsFirst(u, set k | k in c.reactantAtoms.keys)
      && (c.balanced <==> u == [])
      && IsEquationBalanced(reactants, products) == Value(c.balanced)
  {
    TotalsCount(reactants);
    TotalsCount(products);
    if Compare(reactants, products).Value? {
      DifferingOfCounts(Totals(reactants).value, Totals(products).value);
    }
  }
}
