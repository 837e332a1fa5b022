/**
 * The equation catalog and its older checker: a formula is read with the
 * global regular expression `/([A-Z][a-z]?)(\d*)/g`, the pairs are summed per
 * element with the molecule's coefficient, and the two sides are compared
 * with `!==`, so an element present on one side only never matches.
 */
module LegacyEquations {
  import opened Text
  import opened Seqs
  import opened AtomCounts
  import opened ChemTypes
  import FormulaParser

  /** One match of the expression: `{ element, count }`. */
  datatype Match = Match(element: string, count: nat)

  /** `[A-Z][a-z]?`: an uppercase letter and at most one lowercase letter. */
  function SymbolLength(s: string): (n: nat)
    requires s != [] && IsUpper(s[0])
    ensures 1 <= n <= 2 && n <= |s|
    ensures n == 2 <==> |s| > 1 && IsLower(s[1])
  {
    if |s| > 1 && IsLower(s[1]) then 2 else 1
  }

  /** `match[2] ? parseInt(match[2], 10) : 1`: only the empty run counts as 1, so "0" counts 0. */
  function MatchCount(digits: string): nat
    requires AllDigits(digits)
  {
    if digits == [] then 1 else DecimalValue(digits)
  }

  /**
   * The successive results of `regex.exec(formula)`: each search starts where
   * the previous match ended and stops at the next uppercase letter; the
   * digit run is greedy.
   */
  function Matches(s: string): seq<Match>
    decreases |s|
  {
    if s == [] then []
    else if !IsUpper(s[0]) then Matches(s[1..])
    else
      var l := SymbolLength(s);
      var d := Run(s[l..], IsDigit);
      FormulaParser.DigitRun(s, l);
      [Match(s[..l], MatchCount(s[l..l + d]))] + Matches(s[l + d..])
  }

  /** An element symbol the expression matches: an uppercase letter, then at most one lowercase letter. */
  predicate IsMatchedSymbol(e: string)
  {
    1 <= |e| <= 2 && IsUpper(e[0]) && (|e| == 2 ==> IsLower(e[1]))
  }

  /** Every match names an element symbol of that shape. */
  lemma {:induction false} MatchesSymbols(s: string)
    ensures forall i | 0 <= i < |Matches(s)| :: IsMatchedSymbol(Matches(s)[i].element)
    decreases |s|
  {
    if s != [] {
      if !IsUpper(s[0]) {
        MatchesSymbols(s[1..]);
      } else {
        var l := SymbolLength(s);
        var d := Run(s[l..], IsDigit);
        FormulaParser.DigitRun(s, l);
        MatchesSymbols(s[l + d..]);
      }
    }
  }

  /** The first match of a text that starts with an uppercase letter, with the symbol's length and the digit run named. */
  lemma MatchesUpper(s: string, l: nat, d: nat)
    requires s != [] && IsUpper(s[0]) && l == SymbolLength(s) && d == Run(s[l..], IsDigit)
    ensures l + d <= |s| && AllDigits(s[l..l + d])
    ensures Matches(s) == [Match(s[..l], MatchCount(s[l..l + d]))] + Matches(s[l + d..])
  {
    FormulaParser.DigitRun(s, l);
  }

  lemma MatchesSkipAt(s: string, j: nat)
    requires j < |s| && !IsUpper(s[j])
    ensures Matches(s[j..]) == Matches(s[j + 1..])
  {
    assert s[j..][1..] == s[j + 1..];
  }

  /** A match at `j`: the symbol ends at `e`, the digit run at `m`. */
  lemma MatchesAt(s: string, j: nat, e: nat, m: nat)
    requires j < e <= m <= |s| && IsUpper(s[j]) && e == j + SymbolLength(s[j..])
    requires forall k | e <= k < m :: IsDigit(s[k])
    requires m == |s| || !IsDigit(s[m])
    ensures AllDigits(s[e..m])
    ensures Matches(s[j..]) == [Match(s[j..e], MatchCount(s[e..m]))] + Matches(s[m..])
  {
    var t, l, n := s[j..], e - j, m - j;
    SuffixSlices(s, j, e, m, t, l, n);
    MatchesHead(t, l, n);
  }

  /** How the pieces of the suffix `t == s[j..]` sit in `s`. */
  lemma SuffixSlices(s: string, j: nat, e: nat, m: nat, t: string, l: nat, n: nat)
    requires j <= e <= m <= |s| && t == s[j..] && l == e - j && n == m - j
    requires forall k | e <= k < m :: IsDigit(s[k])
    ensures forall k | l <= k < n :: IsDigit(t[k])
    ensures n < |t| ==> t[n] == s[m]
    ensures t[..l] == s[j..e] && t[l..n] == s[e..m] && t[n..] == s[m..]
  {
    forall k | l <= k < n ensures IsDigit(t[k]) {
      assert t[k] == s[j + k];
    }
  }

  /** The same at the start of the text. */
  lemma MatchesHead(t: string, e: nat, m: nat)
    requires 0 < e <= m <= |t| && IsUpper(t[0]) && e == SymbolLength(t)
    requires forall k | e <= k < m :: IsDigit(t[k])
    requires m == |t| || !IsDigit(t[m])
    ensures AllDigits(t[e..m])
    ensures Matches(t) == [Match(t[..e], MatchCount(t[e..m]))] + Matches(t[m..])
  {
    FormulaParser.RunFrom(t, e, m, IsDigit);
    FormulaParser.DigitRun(t, e);
  }

  /** A text that starts with a character other than an uppercase letter: the search skips it. */
  lemma MatchesSkipFirst(s: string)
    requires s != [] && !IsUpper(s[0])
    ensures Matches(s) == Matches(s[1..])
  {
  }

  /** An uppercase letter followed by neither a lowercase letter nor a digit matches alone, counting 1. */
  lemma MatchesUpperAlone(s: string)
    requires s != [] && IsUpper(s[0])
    requires |s| == 1 || (!IsLower(s[1]) && !IsDigit(s[1]))
    ensures Matches(s) == [Match(s[..1], 1)] + Matches(s[1..])
  {
    assert SymbolLength(s) == 1;
    assert Run(s[1..], IsDigit) == 0;
    assert s[1..1] == [];
  }

  /** An uppercase and a lowercase letter followed by no digit match together, counting 1. */
  lemma MatchesUpperLower(s: string)
    requires |s| >= 2 && IsUpper(s[0]) && IsLower(s[1])
    requires |s| == 2 || !IsDigit(s[2])
    ensures Matches(s) == [Match(s[..2], 1)] + Matches(s[2..])
  {
    assert SymbolLength(s) == 2;
    assert Run(s[2..], IsDigit) == 0;
    assert s[2..2] == [];
  }

  /** `regex.exec(formula)` with `lastIndex` at `i`: the next match and where it ends, or none. */
  method Exec(formula: string, i: nat) returns (found: Option<Match>, next: nat)
    requires i <= |formula|
    ensures found.None? ==> Matches(formula[i..]) == []
    ensures found.Some? ==> i < next <= |formula| && Matches(formula[i..]) == [found.value] + Matches(formula[next..])
  {
    var j := i;
    while j < |formula| && !IsUpper(formula[j])
      invariant i <= j <= |formula|
      invariant Matches(formula[j..]) == Matches(formula[i..])
    {
      MatchesSkipAt(formula, j);
      j := j + 1;
    }
    if j == |formula| {
      assert formula[j..] == [];
      return None, j;
    }
    var symbolEnd := if j + 1 < |formula| && IsLower(formula[j + 1]) then j + 2 else j + 1;
    var digits;
    digits, next := TakeRun(formula, symbolEnd, IsDigit);
    MatchesAt(formula, j, symbolEnd, next);
    var count := if digits == [] then 1 else DecimalValue(digits);
    found := Some(Match(formula[j..symbolEnd], count));
  }

  /** `parseFormula` of the catalog module: every match of the global expression, in order. */
  method ParseFormula(formula: string) returns (atoms: seq<Match>)
    ensures atoms == Matches(formula)
  {
    atoms := [];
    var i := 0;
    var found, next := Exec(formula, i);
    while found.Some?
      invariant 0 <= i <= |formula|
      invariant atoms + Matches(formula[i..]) == Matches(formula)
      invariant found.None? ==> Matches(formula[i..]) == []
      invariant found.Some? ==> i < next <= |formula| && Matches(formula[i..]) == [found.value] + Matches(formula[next..])
      decreases |formula| - i
    {
      atoms := atoms + [found.value];
      i := next;
      found, next := Exec(formula, i);
    }
    assert atoms + [] == atoms;
  }

  // ------------------------------------------------------------ counting

  /** The matches of one molecule added into `acc`, each count times the coefficient. */
  function AddMatches(acc: AtomCount, ms: seq<Match>, coefficient: int): AtomCount
    decreases |ms|
  {
    if ms == [] then acc
    else AddMatches(Bump(acc, ms[0].element, ms[0].count * coefficient), ms[1..], coefficient)
  }

  function Single(m: Match): Tally
  {
    map[m.element := m.count]
  }

  /** The matches summed per element, duplicates included. */
  function MatchTally(ms: seq<Match>): Tally
  {
    Total(Map(Single, ms))
  }

  lemma MatchTallyCons(ms: seq<Match>)
    requires ms != []
    ensures MatchTally(ms) == Plus(Single(ms[0]), MatchTally(ms[1..]))
  {
    assert ms == [ms[0]] + ms[1..];
    MapAppend(Single, [ms[0]], ms[1..]);
    assert Map(Single, [ms[0]]) == [Single(ms[0])];
    TotalCons(Single(ms[0]), Map(Single, ms[1..]));
  }

  lemma {:induction false} AddMatchesCount(acc: AtomCount, ms: seq<Match>, coefficient: int)
    requires Valid(acc)
    ensures Valid(AddMatches(acc, ms, coefficient))
    ensures AddMatches(acc, ms, coefficient).count == Plus(acc.count, Scale(MatchTally(ms), coefficient))
    decreases |ms|
  {
    if ms == [] {
      PlusEmpty(acc.count);
    } else {
      var m := ms[0];
      var next := Bump(acc, m.element, m.count * coefficient);
      PutValid(acc, m.element, Get(acc, m.element) + m.count * coefficient);
      AddMatchesCount(next, ms[1..], coefficient);
      BumpAsPlus(acc, m, coefficient);
      MatchTallyCons(ms);
      ScalePlus(Single(m), MatchTally(ms[1..]), coefficient);
      PlusAssociative(acc.count, Scale(Single(m), coefficient), Scale(MatchTally(ms[1..]), coefficient));
    }
  }

  lemma BumpAsPlus(acc: AtomCount, m: Match, coefficient: int)
    ensures Bump(acc, m.element, m.count * coefficient).count == Plus(acc.count, Scale(Single(m), coefficient))
  {
    BumpCount(acc, m.element, m.count * coefficient);
    TallyEq(Bump(acc, m.element, m.count * coefficient).count, Plus(acc.count, Scale(Single(m), coefficient)));
  }

  /** `atomCount` after `forEach` has reached the molecules in `ws`, starting from `acc`. */
  function CountFrom(acc: AtomCount, ws: seq<Weighted>): AtomCount
    decreases |ws|
  {
    if ws == [] then acc
    else CountFrom(AddMatches(acc, Matches(ws[0].formula), ws[0].coefficient), ws[1..])
  }

  function Counted(ws: seq<Weighted>): AtomCount
  {
    CountFrom(Empty, ws)
  }

  /** What one molecule adds: its matches summed, times its coefficient. */
  function Term(w: Weighted): Tally
  {
    Scale(MatchTally(Matches(w.formula)), w.coefficient)
  }

  function LegacySum(ws: seq<Weighted>): Tally
  {
    Total(Map(Term, ws))
  }

  lemma {:induction false} CountFromCount(acc: AtomCount, ws: seq<Weighted>)
    requires Valid(acc)
    ensures Valid(CountFrom(acc, ws)) && CountFrom(acc, ws).count == Plus(acc.count, LegacySum(ws))
    decreases |ws|
  {
    if ws == [] {
      PlusEmpty(acc.count);
    } else {
      var w := ws[0];
      var next := AddMatches(acc, Matches(w.formula), w.coefficient);
      AddMatchesCount(acc, Matches(w.formula), w.coefficient);
      CountFromCount(next, ws[1..]);
      assert ws == [w] + ws[1..];
      MapAppend(Term, [w], ws[1..]);
      assert Map(Term, [w]) == [Term(w)];
      TotalCons(Term(w), Map(Term, ws[1..]));
      PlusAssociative(acc.count, Term(w), LegacySum(ws[1..]));
    }
  }

  /**
   * `countAtoms(ms)[e]` is the sum, over the molecules and over their matches
   * for `e`, of the match's count times the coefficient.
   */
  lemma CountedMeaning(ws: seq<Weighted>)
    ensures Valid(Counted(ws)) && Counted(ws).count == LegacySum(ws)
  {
    CountFromCount(Empty, ws);
    PlusEmpty(LegacySum(ws));
  }

  method CountAtoms(molecules: seq<Weighted>) returns (atomCount: AtomCount)
    ensures atomCount == Counted(molecules)
  {
    atomCount := Empty;
    for n := 0 to |molecules|
      invariant CountFrom(atomCount, molecules[n..]) == Counted(molecules)
    {
      var molecule := molecules[n];
      assert molecules[n..][1..] == molecules[n + 1..];
      var atoms := ParseFormula(molecule.formula);
      ghost var start := atomCount;
      for k := 0 to |atoms|
        invariant AddMatches(atomCount, atoms[k..], molecule.coefficient) == AddMatches(start, atoms, molecule.coefficient)
      {
        assert atoms[k..][1..] == atoms[k + 1..];
        var totalCount := atoms[k].count * molecule.coefficient;
        atomCount := Bump(atomCount, atoms[k].element, totalCount);
      }
    }
  }

  // ------------------------------------------------------------- balance

  /** `atoms[e]`, which is `undefined` for a missing key. */
  function Lookup(a: AtomCount, e: string): Option<int>
  {
    if e in a.count then Some(a.count[e]) else None
  }

  /** The two sides count the same elements, with the same totals. */
  predicate StrictlyBalanced(reactants: seq<Weighted>, products: seq<Weighted>)
  {
    Counted(reactants).count == Counted(products).count
  }

  /** `isEquationBalanced(equation)` of the catalog module. */
  method IsEquationBalanced(equation: ChemicalEquation) returns (r: bool)
    ensures r == StrictlyBalanced(AsWeighted(equation.reactants), AsWeighted(equation.products))
  {
    var reactantAtoms := CountAtoms(AsWeighted(equation.reactants));
    var productAtoms := CountAtoms(AsWeighted(equation.products));
    assert Valid(reactantAtoms) && Valid(productAtoms) by {
      CountedMeaning(AsWeighted(equation.reactants));
      CountedMeaning(AsWeighted(equation.products));
    }
    r := SameLookups(reactantAtoms, productAtoms);
  }

  /** The loop of `isEquationBalanced`: every element of either side, in first-occurrence order, read with `!==`. */
  method SameLookups(reactantAtoms: AtomCount, productAtoms: AtomCount) returns (r: bool)
    requires Valid(reactantAtoms) && Valid(productAtoms)
    ensures r <==> reactantAtoms.count == productAtoms.count
  {
    var allElements := Dedup(reactantAtoms.keys + productAtoms.keys);
    StrictByLookups(reactantAtoms, productAtoms, allElements);
    r := LookupsAgree(reactantAtoms, productAtoms, allElements);
  }

  /** The loop over the elements: false at the first element whose two lookups differ under `!==`, true otherwise. */
  method LookupsAgree(reactantAtoms: AtomCount, productAtoms: AtomCount, elements: seq<string>) returns (r: bool)
    ensures r <==> forall j | 0 <= j < |elements| :: Lookup(reactantAtoms, elements[j]) == Lookup(productAtoms, elements[j])
  {
    for k := 0 to |elements|
      invariant forall j | 0 <= j < k :: Lookup(reactantAtoms, elements[j]) == Lookup(productAtoms, elements[j])
    {
      if Lookup(reactantAtoms, elements[k]) != Lookup(productAtoms, elements[k]) {
        return false;
      }
    }
    return true;
  }

  /** Two valid counts are the same map exactly when every key of either reads the same on both sides. */
  lemma StrictByLookups(a: AtomCount, b: AtomCount, all: seq<string>)
    requires Valid(a) && Valid(b) && all == Dedup(a.keys + b.keys)
    ensures a.count == b.count <==> forall j | 0 <= j < |all| :: Lookup(a, all[j]) == Lookup(b, all[j])
  {
    if forall j | 0 <= j < |all| :: Lookup(a, all[j]) == Lookup(b, all[j]) {
      forall e ensures Lookup(a, e) == Lookup(b, e) {
        if e in a.count || e in b.count {
          KeyListed(a, b, all, e);
          var j :| 0 <= j < |all| && all[j] == e;
        }
      }
      SameLookupsSameMap(a, b);
    } else {
      var j :| 0 <= j < |all| && Lookup(a, all[j]) != Lookup(b, all[j]);
      assert a.count != b.count;
    }
  }

  /** Every element counted on either side is among the elements the loop visits. */
  lemma KeyListed(a: AtomCount, b: AtomCount, all: seq<string>, e: string)
    requires Valid(a) && Valid(b) && all == Dedup(a.keys + b.keys)
    requires e in a.count || e in b.count
    ensures e in all
  {
    var both := a.keys + b.keys;
    assert e in both;
    var i :| 0 <= i < |both| && both[i] == e;
  }

  /** Maps that answer every lookup alike are equal. */
  lemma SameLookupsSameMap(a: AtomCount, b: AtomCount)
    requires forall e :: Lookup(a, e) == Lookup(b, e)
    ensures a.count == b.count
  {
    forall e ensures e in a.count <==> e in b.count {
      assert Lookup(a, e) == Lookup(b, e);
    }
    forall e | e in a.count ensures a.count[e] == b.count[e] {
      assert Lookup(a, e) == Lookup(b, e);
    }
    assert a.count.Keys == b.count.Keys;
  }

  /** The strict check implies the lenient one: equal maps have equal counts with missing keys as 0. */
  lemma StrictImpliesSameCounts(reactants: seq<Weighted>, products: seq<Weighted>)
    requires StrictlyBalanced(reactants, products)
    ensures forall e :: At(LegacySum(reactants), e) == At(LegacySum(products), e)
  {
    CountedMeaning(reactants);
    CountedMeaning(products);
  }

  /** An element on one side only fails the strict check, even when its total is 0. */
  lemma OneSidedElementUnbalanced(reactants: seq<Weighted>, products: seq<Weighted>, e: string)
    requires (e in LegacySum(reactants)) != (e in LegacySum(products))
    ensures !StrictlyBalanced(reactants, products)
  {
    CountedMeaning(reactants);
    CountedMeaning(products);
  }

  // ------------------------------------------------------------- catalog

  /** A catalog molecule: no atoms or bonds, coefficient 1, no charge. */
  function Catalogued(id: string, formula: string, name: string, state: MoleculeState): Molecule
  {
    Molecule(id, [], [], 1, 0, formula, Some(name), Some(state))
  }

  const Hydrogen := Catalogued("h2", "H\U{2082}", "Hydrogen gas", Gas)
  const Oxygen := Catalogued("o2", "O\U{2082}", "Oxygen gas", Gas)
  const LiquidWater := Catalogued("h2o", "H\U{2082}O", "Water", Liquid)

  const Equations: seq<ChemicalEquation> := [
    ChemicalEquation(
      "eq-001",
      [Hydrogen, Oxygen],
      [LiquidWater],
      false, Synthesis, Beginner,
      Some([
        "Count the hydrogen atoms on each side",
        "Count the oxygen atoms on each side",
        "You need 2 H\U{2082} molecules to balance the hydrogen",
        "The balanced equation is: 2H\U{2082} + O\U{2082} \U{2192} 2H\U{2082}O"]),
      Some("Hydrogen combines with oxygen to form water. This is a synthesis reaction where two elements combine to form a compound.")),
    ChemicalEquation(
      "eq-002",
      [Catalogued("h2o2", "H\U{2082}O\U{2082}", "Hydrogen peroxide", Liquid)],
      [LiquidWater, Oxygen],
      false, Decomposition, Beginner,
      Some([
        "Count all hydrogen atoms",
        "Count all oxygen atoms",
        "You need 2 H\U{2082}O\U{2082} molecules",
        "The balanced equation is: 2H\U{2082}O\U{2082} \U{2192} 2H\U{2082}O + O\U{2082}"]),
      Some("Hydrogen peroxide decomposes into water and oxygen gas.")),
    ChemicalEquation(
      "eq-003",
      [Catalogued("c3h8", "C\U{2083}H\U{2088}", "Propane", Gas), Oxygen],
      [Catalogued("co2", "CO\U{2082}", "Carbon dioxide", Gas), Catalogued("h2o", "H\U{2082}O", "Water", Gas)],
      false, Combustion, Advanced,
      Some([
        "Balance carbon atoms first",
        "Then balance hydrogen atoms",
        "Finally balance oxygen atoms",
        "The balanced equation is: C\U{2083}H\U{2088} + 5O\U{2082} \U{2192} 3CO\U{2082} + 4H\U{2082}O"]),
      Some("Propane burns in oxygen to produce carbon dioxide and water."))
  ]

  /** The index of the first equation with this id, or `|eqs|`. */
  function FirstWithId(eqs: seq<ChemicalEquation>, id: string): (i: nat)
    ensures i <= |eqs|
    ensures forall j | 0 <= j < i :: eqs[j].id != id
    ensures i < |eqs| ==> eqs[i].id == id
  {
    if eqs == [] then 0
    else if eqs[0].id == id then 0
    else 1 + FirstWithId(eqs[1..], id)
  }

  /** `equations.find(eq => eq.id === id)` */
  function GetEquationById(id: string): (r: Option<ChemicalEquation>)
    ensures r.None? <==> forall j | 0 <= j < |Equations| :: Equations[j].id != id
    ensures r.Some? ==> r.value.id == id
    ensures r.Some? ==> exists j | 0 <= j < |Equations| ::
      (Equations[j] == r.value && forall k | 0 <= k < j :: Equations[k].id != id)
  {
    var i := FirstWithId(Equations, id);
    if i < |Equations| then Some(Equations[i]) else None
  }

  lemma CatalogLookups()
    ensures GetEquationById("eq-002").Some? && GetEquationById("eq-002").value.kind == Decomposition
    ensures GetEquationById("eq-004") == None
  {
    assert FirstWithId(Equations, "eq-002") == 1;
  }

  lemma HydroxideTailShape(s: string)
    requires |s| == 4 && s[0] == 'O' && s[1] == 'H' && s[2] == ')' && s[3] == '2'
    ensures Matches(s) == [Match("O", 1), Match("H", 1)]
  {
    MatchesUpperAlone(s);
    var t := s[1..];
    MatchesUpperAlone(t);
    var u := t[1..];
    MatchesSkipFirst(u);
    MatchesSkipFirst(u[1..]);
    assert u[1..][1..] == [];
    assert s[..1] == "O" && t[..1] == "H";
  }

  /** Parentheses and the digits after `)` are skipped: the group has no multiplier. */
  lemma MatchesCalciumHydroxide()
    ensures Matches("Ca(OH)2") == [Match("Ca", 1), Match("O", 1), Match("H", 1)]
  {
    CalciumHydroxideShape("Ca(OH)2");
  }

  lemma CalciumHydroxideShape(s: string)
    requires |s| == 7 && s[0] == 'C' && s[1] == 'a' && s[2] == '('
    requires s[3] == 'O' && s[4] == 'H' && s[5] == ')' && s[6] == '2'
    ensures Matches(s) == [Match("Ca", 1), Match("O", 1), Match("H", 1)]
  {
    CalciumPrefix(s);
    var u := s[3..];
    assert u[0] == 'O' && u[1] == 'H' && u[2] == ')' && u[3] == '2';
    HydroxideTailShape(u);
  }

  /** `Ca(` matches as `Ca` counting 1; the parenthesis is skipped. */
  lemma CalciumPrefix(s: string)
    requires |s| >= 3 && s[0] == 'C' && s[1] == 'a' && s[2] == '('
    ensures Matches(s) == [Match("Ca", 1)] + Matches(s[3..])
  {
    MatchesUpperLower(s);
    assert s[..2] == "Ca";
    var t := s[2..];
    MatchesSkipFirst(t);
    assert t[1..] == s[3..];
  }

  /** A run worth 0 counts 0. */
  lemma MatchesZero()
    ensures Matches("H0") == [Match("H", 0)]
  {
    assert Run("0", IsDigit) == 1;
    assert DecimalValue("0") == 0;
    MatchesAt("H0", 0, 1, 2);
    assert "H0"[0..] == "H0" && "H0"[0..1] == "H" && "H0"[1..2] == "0" && "H0"[2..] == "";
    assert MatchCount("0") == 0;
  }

  /** A symbol takes at most one lowercase letter. */
  lemma MatchesOneLowercase()
    ensures Matches("Uuo") == [Match("Uu", 1)]
  {
    assert Run("o", IsDigit) == 0;
    MatchesAt("Uuo", 0, 2, 2);
    assert "Uuo"[0..] == "Uuo" && "Uuo"[..2] == "Uu" && "Uuo"[2..] == "o";
  }

  /** An uppercase letter followed by a subscript two reads as the element once. */
  lemma MatchesSubscripted(s: string)
    requires |s| == 2 && IsUpper(s[0]) && s[1] == '\U{2082}'
    ensures Matches(s) == [Match(s[..1], 1)]
  {
    assert !IsLower(s[1]) && !IsDigit(s[1]);
    MatchesAt(s, 0, 1, 1);
    MatchesSkipAt(s, 1);
    assert s[0..] == s && s[0..1] == s[..1] && s[2..] == [];
  }

  lemma MatchesOxygen()
    ensures Matches("O") == [Match("O", 1)]
  {
    MatchesAt("O", 0, 1, 1);
    assert "O"[0..] == "O" && "O"[0..1] == "O" && "O"[1..] == [];
  }

  lemma MatchesWaterSubscripted()
    ensures Matches("H\U{2082}O") == [Match("H", 1), Match("O", 1)]
  {
    var s := "H\U{2082}O";
    assert !IsLower(s[1]) && !IsDigit(s[1]);
    MatchesUpperAlone(s);
    var t := s[1..];
    MatchesSkipFirst(t);
    assert s[..1] == "H" && t[1..] == "O";
    MatchesOxygen();
  }

  lemma MatchTallyPair(x: Match, y: Match)
    ensures MatchTally([x, y]) == Plus(Single(x), Single(y))
  {
    assert Map(Single, [x, y]) == [Single(x), Single(y)];
    assert [Single(x), Single(y)][..1] == [Single(x)];
    TotalSingle(Single(x));
  }

  lemma LegacySumOne(a: Weighted)
    ensures LegacySum([a]) == Term(a)
  {
    assert Map(Term, [a]) == [Term(a)];
    TotalSingle(Term(a));
  }

  lemma LegacySumPair(a: Weighted, b: Weighted)
    ensures LegacySum([a, b]) == Plus(Term(a), Term(b))
  {
    assert Map(Term, [a, b]) == [Term(a), Term(b)];
    assert [Term(a), Term(b)][..1] == [Term(a)];
    TotalSingle(Term(a));
  }

  /**
   * The catalog's first equation, H\U{2082} + O\U{2082} \U{2192} H\U{2082}O at
   * coefficients 1, passes the strict check: the subscripts are not digits, so
   * every molecule reads as one atom of each of its elements.
   */
  lemma CatalogSynthesisPassesStrictCheck()
    ensures !Equations[0].isBalanced
    ensures StrictlyBalanced(AsWeighted(Equations[0].reactants), AsWeighted(Equations[0].products))
  {
    var rs := AsWeighted(Equations[0].reactants);
    var ps := AsWeighted(Equations[0].products);
    assert rs == [Weighted("H\U{2082}", 1), Weighted("O\U{2082}", 1)];
    assert ps == [Weighted("H\U{2082}O", 1)];
    MatchesSubscripted("H\U{2082}");
    MatchesSubscripted("O\U{2082}");
    assert "H\U{2082}"[..1] == "H" && "O\U{2082}"[..1] == "O";
    MatchesWaterSubscripted();
    MatchTallyPair(Match("H", 1), Match("O", 1));
    var h, o := Single(Match("H", 1)), Single(Match("O", 1));
    assert Map(Single, [Match("H", 1)]) == [h];
    assert Map(Single, [Match("O", 1)]) == [o];
    TotalSingle(h);
    TotalSingle(o);
    LegacySumPair(rs[0], rs[1]);
    LegacySumOne(ps[0]);
    ScalePlus(h, o, 1);
    CountedMeaning(rs);
    CountedMeaning(ps);
  }
}
