/** The balance checker on a few concrete equations. */
module BalanceExamples {
  import opened Seqs
  import opened AtomCounts
  import opened FormulaParser
  import opened ParserProperties
  import opened FormulaRender
  import opened ChemTypes
  import opened Balance

  /** A one-letter element followed by `2`, such as H2 or O2, counts two atoms of it. */
  lemma ParseDiatomic(element: string, formula: string)
    requires |element| == 1 && 'A' <= element[0] <= 'Z' && formula == element + "2"
    ensures Parse(formula) == Atoms(AtomCount([element], map[element := 2]))
  {
    var items := [Atom(element, 2)];
    assert WellFormed(items);
    assert Render(items) == formula;
    ParseRender(items);
  }

  /** The totals of a two-molecule side. */
  lemma SumOfTwo(a: Weighted, b: Weighted)
    ensures Sum([a, b]) == Plus(Contribution(a), Contribution(b))
    ensures AllParse([a, b]) <==> Parse(a.formula).Atoms? && Parse(b.formula).Atoms?
  {
    assert [a, b] == [a] + [b];
    SumAppend([a], [b]);
    SumSingle(a);
    SumSingle(b);
  }

  lemma SumOfOne(a: Weighted)
    ensures Sum([a]) == Contribution(a)
    ensures AllParse([a]) <==> Parse(a.formula).Atoms?
  {
    SumSingle(a);
  }

  /** A molecule whose formula parses to `t` contributes `t` times its coefficient. */
  lemma ContributionIs(m: Weighted, keys: seq<string>, t: Tally)
    requires Parse(m.formula) == Atoms(AtomCount(keys, t))
    ensures Contribution(m) == Scale(t, m.coefficient)
  {
  }

  /** A list without repetitions whose every element is `x`. */
  lemma OnlyElement(u: seq<string>, x: string)
    requires NoDup(u) && forall e :: e in u <==> e == x
    ensures u == [x]
  {
    assert x in u;
    forall k | 0 <= k < |u| ensures u[k] == x {
      assert u[k] in u;
    }
    FirstTwoDistinct(u);
    assert u[0] == x;
  }

  lemma FirstTwoDistinct(u: seq<string>)
    ensures NoDup(u) && |u| >= 2 ==> u[0] != u[1]
  {
  }

  /** Any formulas that parse as H2, O2 and H2O. */
  predicate WaterFormulas(h: string, o: string, w: string)
  {
    && Parse(h) == Atoms(AtomCount(["H"], map["H" := 2]))
    && Parse(o) == Atoms(AtomCount(["O"], map["O" := 2]))
    && Parse(w) == Atoms(AtomCount(["H", "O"], map["H" := 2, "O" := 1]))
  }

  lemma WaterFormulasHold()
    ensures WaterFormulas("H2", "O2", "H2O")
  {
    ParseDiatomic("H", "H2");
    ParseDiatomic("O", "O2");
    ParseWater();
  }

  lemma WaterBalanced(h: string, o: string, w: string)
    requires WaterFormulas(h, o, w)
    ensures IsEquationBalanced([Weighted(h, 2), Weighted(o, 1)], [Weighted(w, 2)]) == Value(true)
    ensures Compare([Weighted(h, 2), Weighted(o, 1)], [Weighted(w, 2)]).Value?
    ensures Compare([Weighted(h, 2), Weighted(o, 1)], [Weighted(w, 2)]).value.unbalancedElements == []
  {
    var rs, ps := [Weighted(h, 2), Weighted(o, 1)], [Weighted(w, 2)];
    var hydrogen, oxygen, water := map["H" := 2], map["O" := 2], map["H" := 2, "O" := 1];
    SumOfTwo(rs[0], rs[1]);
    SumOfOne(ps[0]);
    ContributionIs(rs[0], ["H"], hydrogen);
    ContributionIs(rs[1], ["O"], oxygen);
    ContributionIs(ps[0], ["H", "O"], water);
    WaterBalancedTallies(hydrogen, oxygen, water);
    CompareMeaning(rs, ps);
  }

  lemma WaterBalancedTallies(hydrogen: Tally, oxygen: Tally, water: Tally)
    requires hydrogen == map["H" := 2] && oxygen == map["O" := 2] && water == map["H" := 2, "O" := 1]
    ensures forall e :: At(Plus(Scale(hydrogen, 2), Scale(oxygen, 1)), e) == At(Scale(water, 2), e)
  {
  }

  lemma WaterUnbalanced(h: string, o: string, w: string)
    requires WaterFormulas(h, o, w)
    ensures IsEquationBalanced([Weighted(h, 1), Weighted(o, 1)], [Weighted(w, 1)]) == Value(false)
    ensures Compare([Weighted(h, 1), Weighted(o, 1)], [Weighted(w, 1)]).Value?
    ensures Compare([Weighted(h, 1), Weighted(o, 1)], [Weighted(w, 1)]).value.unbalancedElements == ["O"]
  {
    var rs, ps := [Weighted(h, 1), Weighted(o, 1)], [Weighted(w, 1)];
    var hydrogen, oxygen, water := map["H" := 2], map["O" := 2], map["H" := 2, "O" := 1];
    SumOfTwo(rs[0], rs[1]);
    SumOfOne(ps[0]);
    ContributionIs(rs[0], ["H"], hydrogen);
    ContributionIs(rs[1], ["O"], oxygen);
    ContributionIs(ps[0], ["H", "O"], water);
    WaterUnbalancedTallies(hydrogen, oxygen, water);
    CompareMeaning(rs, ps);
    var u := Compare(rs, ps).value.unbalancedElements;
    assert forall e :: e in u <==> e == "O";
    OnlyElement(u, "O");
  }

  lemma WaterUnbalancedTallies(hydrogen: Tally, oxygen: Tally, water: Tally)
    requires hydrogen == map["H" := 2] && oxygen == map["O" := 2] && water == map["H" := 2, "O" := 1]
    ensures forall e :: At(Plus(Scale(hydrogen, 1), Scale(oxygen, 1)), e) != At(Scale(water, 1), e) <==> e == "O"
  {
  }

  /** 2 H2 + O2 -> 2 H2O is balanced, and the comparison lists no element. */
  lemma WaterFormationBalanced()
    ensures IsEquationBalanced([Weighted("H2", 2), Weighted("O2", 1)], [Weighted("H2O", 2)]) == Value(true)
    ensures Compare([Weighted("H2", 2), Weighted("O2", 1)], [Weighted("H2O", 2)]).Value?
    ensures Compare([Weighted("H2", 2), Weighted("O2", 1)], [Weighted("H2O", 2)]).value.unbalancedElements == []
  {
    WaterFormulasHold();
    WaterBalanced("H2", "O2", "H2O");
  }

  /** H2 + O2 -> H2O is not balanced, and oxygen alone is listed as unbalanced. */
  lemma WaterFormationUnbalanced()
    ensures IsEquationBalanced([Weighted("H2", 1), Weighted("O2", 1)], [Weighted("H2O", 1)]) == Value(false)
    ensures Compare([Weighted("H2", 1), Weighted("O2", 1)], [Weighted("H2O", 1)]).Value?
    ensures Compare([Weighted("H2", 1), Weighted("O2", 1)], [Weighted("H2O", 1)]).value.unbalancedElements == ["O"]
  {
    WaterFormulasHold();
    WaterUnbalanced("H2", "O2", "H2O");
  }

  /** The frame built for two different elements, each with its count. */
  lemma BuildTwo(a: string, m: nat, b: string, n: nat)
    requires a != b
    ensures Build(Empty, [Atom(a, m), Atom(b, n)]) == AtomCount([a, b], map[a := m, b := n])
  {
    var items := [Atom(a, m), Atom(b, n)];
    assert items[1..] == [Atom(b, n)] && items[1..][1..] == [];
    var first := Bump(Empty, a, m);
    assert Empty.keys + [a] == [a] && Empty.count[a := m] == map[a := m];
    assert Build(Empty, items) == Build(first, [Atom(b, n)]);
    assert Build(first, [Atom(b, n)]) == Build(Bump(first, b, n), []);
    assert [a] + [b] == [a, b];
  }

  lemma ParsePropane()
    ensures Parse("C3H8") == Atoms(AtomCount(["C", "H"], map["C" := 3, "H" := 8]))
  {
    var items := [Atom("C", 3), Atom("H", 8)];
    assert WellFormed(items);
    assert Render(items) == "C3H8";
    ParseRender(items);
    BuildTwo("C", 3, "H", 8);
  }

  lemma ParseCarbonDioxide()
    ensures Parse("CO2") == Atoms(AtomCount(["C", "O"], map["C" := 1, "O" := 2]))
  {
    var items := [Atom("C", 1), Atom("O", 2)];
    assert WellFormed(items);
    assert Render(items) == "CO2";
    ParseRender(items);
    BuildTwo("C", 1, "O", 2);
  }

  /** Any formulas that parse as C3H8, O2, CO2 and H2O. */
  predicate CombustionFormulas(c: string, o: string, d: string, w: string)
  {
    && Parse(c) == Atoms(AtomCount(["C", "H"], map["C" := 3, "H" := 8]))
    && Parse(o) == Atoms(AtomCount(["O"], map["O" := 2]))
    && Parse(d) == Atoms(AtomCount(["C", "O"], map["C" := 1, "O" := 2]))
    && Parse(w) == Atoms(AtomCount(["H", "O"], map["H" := 2, "O" := 1]))
  }

  lemma CombustionBalanced(c: string, o: string, d: string, w: string)
    requires CombustionFormulas(c, o, d, w)
    ensures IsEquationBalanced([Weighted(c, 1), Weighted(o, 5)], [Weighted(d, 3), Weighted(w, 4)]) == Value(true)
  {
    var rs, ps := [Weighted(c, 1), Weighted(o, 5)], [Weighted(d, 3), Weighted(w, 4)];
    var propane, oxygen, dioxide, water := map["C" := 3, "H" := 8], map["O" := 2], map["C" := 1, "O" := 2], map["H" := 2, "O" := 1];
    SumOfTwo(rs[0], rs[1]);
    SumOfTwo(ps[0], ps[1]);
    ContributionIs(rs[0], ["C", "H"], propane);
    ContributionIs(rs[1], ["O"], oxygen);
    ContributionIs(ps[0], ["C", "O"], dioxide);
    ContributionIs(ps[1], ["H", "O"], water);
    CombustionTallies(propane, oxygen, dioxide, water);
  }

  lemma CombustionTallies(propane: Tally, oxygen: Tally, dioxide: Tally, water: Tally)
    requires propane == map["C" := 3, "H" := 8] && oxygen == map["O" := 2]
    requires dioxide == map["C" := 1, "O" := 2] && water == map["H" := 2, "O" := 1]
    ensures forall e :: At(Plus(Scale(propane, 1), Scale(oxygen, 5)), e) == At(Plus(Scale(dioxide, 3), Scale(water, 4)), e)
  {
  }

  /** C3H8 + 5 O2 -> 3 CO2 + 4 H2O is balanced. */
  lemma PropaneCombustionBalanced()
    ensures IsEquationBalanced([Weighted("C3H8", 1), Weighted("O2", 5)], [Weighted("CO2", 3), Weighted("H2O", 4)]) == Value(true)
  {
    ParsePropane();
    ParseDiatomic("O", "O2");
    ParseCarbonDioxide();
    ParseWater();
    CombustionBalanced("C3H8", "O2", "CO2", "H2O");
  }

  /** A formula whose parse returns `undefined` makes both checks throw. */
  lemma UndefinedFormulaThrows()
    ensures IsEquationBalanced([Weighted(")", 1)], [Weighted("H2", 1)]) == Thrown
    ensures Compare([Weighted(")", 1)], [Weighted("H2", 1)]) == Thrown
  {
    UnderflowExamples();
    SumOfOne(Weighted(")", 1));
    CompareMeaning([Weighted(")", 1)], [Weighted("H2", 1)]);
  }
}
