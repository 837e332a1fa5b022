/**
 * The two formula readers side by side: the stack parser of the chemistry
 * utilities and the regular expression of the equation catalog. On formulas
 * without parentheses, with at most one lowercase letter per symbol and no
 * count worth 0, they read the same atoms, and then the lenient balance check
 * accepts every equation the strict one accepts. Outside that class they part
 * ways: a count of 0, a longer symbol, a group multiplier and a zero
 * coefficient each tell them apart.
 */
module ParserAgreement {
  import opened Text
  import opened Seqs
  import opened AtomCounts
  import opened ChemTypes
  import opened FormulaParser
  import opened FormulaRender
  import Balance
  import LegacyEquations

  /**
   * No parenthesis; each symbol is an uppercase letter with at most one
   * lowercase letter after it; each count written after a symbol is worth
   * more than 0.
   */
  predicate Agreeable(s: string)
    decreases |s|
  {
    if s == [] then true
    else if s[0] == '(' || s[0] == ')' then false
    else if IsUpper(s[0]) then
      var l := Run(s[1..], IsLower);
      var d := Run(s[1 + l..], IsDigit);
      DigitRun(s, 1 + l);
      && l <= 1
      && (d == 0 || DecimalValue(s[1 + l..1 + l + d]) != 0)
      && Agreeable(s[1 + l + d..])
    else Agreeable(s[1..])
  }

  lemma {:induction false} AgreeableWithoutOpen(s: string)
    requires Agreeable(s)
    ensures '(' !in s
    decreases |s|
  {
    if s != [] {
      var n := 1;
      if IsUpper(s[0]) {
        n := AgreeableToken(s);
      }
      AgreeableWithoutOpen(s[n..]);
      forall k | 0 <= k < |s| ensures s[k] != '(' {
        if k >= n {
          assert s[k] == s[n..][k - n];
        }
      }
    }
  }

  /** The symbol and digits at the front of an agreeable text hold no `(`, and what follows is agreeable. */
  lemma AgreeableToken(s: string) returns (n: nat)
    requires Agreeable(s) && s != [] && IsUpper(s[0])
    ensures 1 <= n <= |s| && Agreeable(s[n..])
    ensures forall k | 0 <= k < n :: s[k] != '('
  {
    var l := Run(s[1..], IsLower);
    var d := Run(s[1 + l..], IsDigit);
    AgreeableHead(s, l, d);
    n := 1 + l + d;
    forall k | 1 <= k < n ensures s[k] != '(' {
      if k < 1 + l {
        assert s[1..][k - 1] == s[k];
      } else {
        assert s[1 + l..][k - 1 - l] == s[k];
      }
    }
  }

  /** Scanning an agreeable text from one frame adds, into that frame, exactly the regular expression's matches. */
  lemma {:induction false} ScanAgrees(s: string, top: AtomCount)
    requires Agreeable(s)
    ensures Scan(s, [top]) == Done([LegacyEquations.AddMatches(top, LegacyEquations.Matches(s), 1)])
    decreases |s|
  {
    if s == [] {
    } else if IsUpper(s[0]) {
      var rest, next := AgreeableUpperStep(s, top);
      ScanAgrees(rest, next);
    } else {
      ScanAgrees(s[1..], top);
    }
  }

  /** One symbol with its digits: both readers add the same count into the frame and go on from the same place. */
  lemma AgreeableUpperStep(s: string, top: AtomCount) returns (rest: string, next: AtomCount)
    requires Agreeable(s) && s != [] && IsUpper(s[0])
    ensures |rest| < |s| && Agreeable(rest)
    ensures Scan(s, [top]) == Scan(rest, [next])
    ensures LegacyEquations.AddMatches(top, LegacyEquations.Matches(s), 1) == LegacyEquations.AddMatches(next, LegacyEquations.Matches(rest), 1)
  {
    var l := Run(s[1..], IsLower);
    var d := Run(s[1 + l..], IsDigit);
    AgreeableHead(s, l, d);
    var symbol, digits := s[..1 + l], s[1 + l..1 + l + d];
    rest := s[1 + l + d..];
    UpperStepWith(s, l, d, [top], symbol, digits, rest);
    next := Bump(top, symbol, CountOrOne(digits));
    assert WithTop([top], next) == [next];
    MatchesHeadAgree(s, l, d);
    AddMatchesFirst(top, LegacyEquations.Match(symbol, CountOrOne(digits)), LegacyEquations.Matches(rest));
  }

  /** The symbol and digits at the front of an agreeable text: one lowercase letter at most, a count read alike, and an agreeable rest. */
  lemma AgreeableHead(s: string, l: nat, d: nat)
    requires Agreeable(s) && s != [] && IsUpper(s[0])
    requires l == Run(s[1..], IsLower) && d == Run(s[1 + l..], IsDigit)
    ensures 1 + l + d <= |s| && AllDigits(s[1 + l..1 + l + d])
    ensures l <= 1 && Agreeable(s[1 + l + d..])
    ensures LegacyEquations.MatchCount(s[1 + l..1 + l + d]) == CountOrOne(s[1 + l..1 + l + d])
  {
    DigitRunIs(s, 1 + l, d);
    AgreeableUnfold(s, l, d, s[1 + l..1 + l + d], s[1 + l + d..]);
    CountsAgree(s[1 + l..1 + l + d]);
  }

  /** One step of `Agreeable` at an uppercase letter, with the digits and the rest named. */
  lemma AgreeableUnfold(s: string, l: nat, d: nat, digits: string, rest: string)
    requires s != [] && IsUpper(s[0])
    requires l == Run(s[1..], IsLower) && d == Run(s[1 + l..], IsDigit)
    requires 1 + l + d <= |s| && digits == s[1 + l..1 + l + d] && rest == s[1 + l + d..] && AllDigits(digits)
    ensures Agreeable(s) <==> l <= 1 && (d == 0 || DecimalValue(digits) != 0) && Agreeable(rest)
  {
  }

  /** A digit run that is empty or worth more than 0 is read alike by `parseInt(x) || 1` and by the regular expression's count. */
  lemma CountsAgree(digits: string)
    requires AllDigits(digits) && (|digits| == 0 || DecimalValue(digits) != 0)
    ensures LegacyEquations.MatchCount(digits) == CountOrOne(digits)
  {
  }

  /** With at most one lowercase letter, the regular expression's first match is the stack parser's symbol and digits. */
  lemma MatchesHeadAgree(s: string, l: nat, d: nat)
    requires s != [] && IsUpper(s[0]) && l <= 1
    requires l == Run(s[1..], IsLower) && d == Run(s[1 + l..], IsDigit) && 1 + l + d <= |s|
    ensures LegacyEquations.Matches(s) ==
      [LegacyEquations.Match(s[..1 + l], LegacyEquations.MatchCount(s[1 + l..1 + l + d]))] + LegacyEquations.Matches(s[1 + l + d..])
  {
    SymbolLengthRun(s, l);
    LegacyEquations.MatchesUpper(s, 1 + l, d);
  }

  /** With at most one lowercase letter after the capital, `[a-z]?` takes exactly the lowercase run. */
  lemma SymbolLengthRun(s: string, l: nat)
    requires s != [] && IsUpper(s[0]) && l <= 1 && l == Run(s[1..], IsLower)
    ensures LegacyEquations.SymbolLength(s) == 1 + l
  {
    if |s| > 1 {
      assert s[1..][0] == s[1];
    }
  }

  /** Adding a list of matches that starts with `m` adds `m` first. */
  lemma AddMatchesFirst(acc: AtomCount, m: LegacyEquations.Match, ms: seq<LegacyEquations.Match>)
    ensures LegacyEquations.AddMatches(acc, [m] + ms, 1) == LegacyEquations.AddMatches(Bump(acc, m.element, m.count), ms, 1)
  {
    assert ([m] + ms)[1..] == ms;
  }

  /**
   * On an agreeable formula the stack parser returns the frame the catalog's
   * loop builds from the regular expression's matches, so the two count every
   * element alike.
   */
  lemma ParseAgrees(f: string)
    requires Agreeable(f)
    ensures Parse(f) == Atoms(LegacyEquations.AddMatches(Empty, LegacyEquations.Matches(f), 1))
    ensures Parse(f).atoms.count == LegacyEquations.MatchTally(LegacyEquations.Matches(f))
  {
    AgreeableWithoutOpen(f);
    StripWithoutOpen(f, "");
    assert f + "" == f;
    assert Strip("") == "";
    ScanAgrees(f, Empty);
    var t := LegacyEquations.MatchTally(LegacyEquations.Matches(f));
    LegacyEquations.AddMatchesCount(Empty, LegacyEquations.Matches(f), 1);
    PlusEmpty(Scale(t, 1));
    TallyEq(Scale(t, 1), t);
  }

  predicate AllAgreeable(ws: seq<Weighted>)
  {
    forall i | 0 <= i < |ws| :: Agreeable(ws[i].formula)
  }

  lemma ContributionAgrees(w: Weighted)
    requires Agreeable(w.formula)
    ensures Parse(w.formula).Atoms? && Balance.Contribution(w) == LegacyEquations.Term(w)
  {
    ParseAgrees(w.formula);
  }

  /** On agreeable formulas both readers total a side alike, and the stack parser never fails. */
  lemma SidesAgree(ws: seq<Weighted>)
    requires AllAgreeable(ws)
    ensures Balance.AllParse(ws)
    ensures Balance.Sum(ws) == LegacyEquations.LegacySum(ws)
  {
    forall i | 0 <= i < |ws| ensures Parse(ws[i].formula).Atoms? && Balance.Contribution(ws[i]) == LegacyEquations.Term(ws[i]) {
      ContributionAgrees(ws[i]);
    }
    assert Map(Balance.Contribution, ws) == Map(LegacyEquations.Term, ws);
  }

  /**
   * On agreeable formulas the lenient check answers, it compares the
   * catalog's totals with missing elements as 0, and it accepts every
   * equation the strict check accepts.
   */
  lemma CheckersAgree(reactants: seq<Weighted>, products: seq<Weighted>)
    requires AllAgreeable(reactants) && AllAgreeable(products)
    ensures Balance.IsEquationBalanced(reactants, products).Value?
    ensures Balance.IsEquationBalanced(reactants, products).value <==>
      forall e :: At(LegacyEquations.LegacySum(reactants), e) == At(LegacyEquations.LegacySum(products), e)
    ensures LegacyEquations.StrictlyBalanced(reactants, products) ==> Balance.IsEquationBalanced(reactants, products).value
  {
    SidesAgree(reactants);
    SidesAgree(products);
    if LegacyEquations.StrictlyBalanced(reactants, products) {
      LegacyEquations.StrictImpliesSameCounts(reactants, products);
    }
  }

  // ------------------------------------------------------------ where they differ

  /** A count of 0: the stack parser reads `parseInt("0") || 1`, the regular expression keeps 0. */
  lemma ZeroCountDiffers()
    ensures Parse("H0") == Atoms(AtomCount(["H"], map["H" := 1]))
    ensures LegacyEquations.Matches("H0") == [LegacyEquations.Match("H", 0)]
  {
    var s := "H0";
    StripWithoutOpen(s, "");
    assert s + "" == s && Strip("") == "";
    ZeroCountScan(s);
    LegacyEquations.MatchesZero();
  }

  lemma ZeroCountScan(s: string)
    requires |s| == 2 && s[0] == 'H' && s[1] == '0'
    ensures Scan(s, [Empty]) == Done([AtomCount(["H"], map["H" := 1])])
  {
    RunIs(s[1..], IsLower, 0);
    RunIs(s[1..], IsDigit, 1);
    assert s[..1] == "H" && s[1..2] == "0" && s[2..] == [];
    assert DecimalValue("0") == 0;
    UpperStepWith(s, 0, 1, [Empty], "H", "0", []);
    assert Bump(Empty, "H", 1) == AtomCount(["H"], map["H" := 1]);
  }

  /** A group multiplier: the stack parser multiplies the group, the regular expression skips it. */
  lemma GroupDiffers()
    ensures Parse("Ca(OH)2") == Atoms(AtomCount(["Ca", "O", "H"], map["Ca" := 1, "O" := 2, "H" := 2]))
    ensures LegacyEquations.Matches("Ca(OH)2") ==
      [LegacyEquations.Match("Ca", 1), LegacyEquations.Match("O", 1), LegacyEquations.Match("H", 1)]
  {
    ParseCalciumHydroxide();
    LegacyEquations.MatchesCalciumHydroxide();
  }

  /** A symbol with two lowercase letters: the stack parser keeps them all, the regular expression stops after one. */
  lemma LongSymbolDiffers()
    ensures Parse("Uuo") == Atoms(AtomCount(["Uuo"], map["Uuo" := 1]))
    ensures LegacyEquations.Matches("Uuo") == [LegacyEquations.Match("Uu", 1)]
  {
    var items := [Atom("Uuo", 1)];
    assert WellFormed(items);
    assert Render(items) == "Uuo";
    ParseRender(items);
    LegacyEquations.MatchesOneLowercase();
  }

  lemma MatchesHydrogen()
    ensures LegacyEquations.Matches("H") == [LegacyEquations.Match("H", 1)]
  {
    LegacyEquations.MatchesAt("H", 0, 1, 1);
    assert "H"[0..] == "H" && "H"[0..1] == "H" && "H"[1..] == [];
  }

  /**
   * A zero coefficient: `0 H -> nothing` passes the lenient check, which reads
   * a missing element as 0, and fails the strict one, which sees `H` on one
   * side only.
   */
  lemma ZeroCoefficientDiffers()
    ensures Balance.IsEquationBalanced([Weighted("H", 0)], []) == Balance.Value(true)
    ensures !LegacyEquations.StrictlyBalanced([Weighted("H", 0)], [])
  {
    var rs: seq<Weighted> := [Weighted("H", 0)];
    var ps: seq<Weighted> := [];
    assert Agreeable("H");
    CheckersAgree(rs, ps);
    MatchesHydrogen();
    var single := LegacyEquations.Single(LegacyEquations.Match("H", 1));
    assert Map(LegacyEquations.Single, [LegacyEquations.Match("H", 1)]) == [single];
    TotalSingle(single);
    LegacyEquations.LegacySumOne(rs[0]);
    assert LegacyEquations.LegacySum(rs) == map["H" := 0];
    assert LegacyEquations.LegacySum(ps) == map[];
    LegacyEquations.OneSidedElementUnbalanced(rs, ps, "H");
  }
}
