/**
 * What `parseFormula` guarantees: every count it returns is at least 1, a
 * trailing state tag changes nothing, a group that is never closed is
 * dropped, and a formula whose parentheses never close more groups than are
 * open always yields an atom count.
 */
module ParserProperties {
  import opened Text
  import opened AtomCounts
  import opened FormulaParser

  /** Every frame is a well-formed object whose counts are all at least 1. */
  ghost predicate FramesOk(stack: seq<AtomCount>)
  {
    forall k | 0 <= k < |stack| :: Valid(stack[k]) && Positive(stack[k].count)
  }

  lemma BumpPositive(a: AtomCount, e: string, n: int)
    requires Valid(a) && Positive(a.count) && n >= 1
    ensures Valid(Bump(a, e, n)) && Positive(Bump(a, e, n).count)
  {
    PutValid(a, e, Get(a, e) + n);
    BumpCount(a, e, n);
  }

  lemma AddScaledPositive(a: AtomCount, g: AtomCount, mult: int)
    requires Valid(a) && Positive(a.count) && Valid(g) && Positive(g.count) && mult >= 1
    ensures Valid(AddScaled(a, g, mult)) && Positive(AddScaled(a, g, mult).count)
  {
    AddScaledPrefixValid(a, g, mult, |g.keys|);
    AddScaledCount(a, g, mult);
    ScalePositive(g.count, mult);
    PlusPositive(a.count, Scale(g.count, mult));
  }

  lemma WithTopOk(stack: seq<AtomCount>, top: AtomCount)
    requires stack != [] && FramesOk(stack) && Valid(top) && Positive(top.count)
    ensures FramesOk(WithTop(stack, top))
  {
  }

  lemma CloseGroupOk(stack: seq<AtomCount>, mult: int)
    requires FramesOk(stack) && mult >= 1
    ensures CloseGroup(stack, mult).Done? ==> FramesOk(CloseGroup(stack, mult).stack)
  {
    if |stack| >= 2 {
      var below := stack[..|stack| - 1];
      AddScaledPositive(below[|below| - 1], stack[|stack| - 1], mult);
      WithTopOk(below, AddScaled(below[|below| - 1], stack[|stack| - 1], mult));
    }
  }

  /** The scan only ever holds well-formed frames with counts of at least 1. */
  lemma {:induction false} ScanFramesOk(s: string, stack: seq<AtomCount>)
    requires FramesOk(stack)
    ensures Scan(s, stack).Done? ==> FramesOk(Scan(s, stack).stack)
    decreases |s|
  {
    if s == [] {
    } else if s[0] == ')' {
      var d := Run(s[1..], IsDigit);
      CloseStep(s, d, stack);
      var mult := CountOrOne(s[1..1 + d]);
      CloseGroupOk(stack, mult);
      if CloseGroup(stack, mult).Done? {
        ScanFramesOk(s[1 + d..], CloseGroup(stack, mult).stack);
      }
    } else if s[0] == '(' {
      ScanFramesOk(s[1..], stack + [Empty]);
    } else if IsUpper(s[0]) {
      var l := Run(s[1..], IsLower);
      var d := Run(s[1 + l..], IsDigit);
      UpperStep(s, l, d, stack);
      if stack != [] {
        var top := Bump(stack[|stack| - 1], s[..1 + l], CountOrOne(s[1 + l..1 + l + d]));
        BumpPositive(stack[|stack| - 1], s[..1 + l], CountOrOne(s[1 + l..1 + l + d]));
        WithTopOk(stack, top);
        ScanFramesOk(s[1 + l + d..], WithTop(stack, top));
      }
    } else {
      ScanFramesOk(s[1..], stack);
    }
  }

  /** Every count `parseFormula` returns is at least 1, and each key is listed once. */
  lemma ParsePositive(formula: string)
    ensures Parse(formula).Atoms? ==> Valid(Parse(formula).atoms) && Positive(Parse(formula).atoms.count)
  {
    ScanFramesOk(Strip(formula), [Empty]);
  }

  // ---------------------------------------------------------------- state tags

  /** A run stops at the same place when what follows cannot extend it. */
  lemma RunAppend(a: string, b: string, p: char -> bool)
    requires Run(a, p) < |a| || b == [] || !p(b[0])
    ensures Run(a + b, p) == Run(a, p)
  {
    var n := Run(a, p);
    assert forall k | 0 <= k < n :: (a + b)[k] == a[k];
    RunIs(a + b, p, n);
  }

  /** No state tag can start inside `a` and end inside `t` when `t` does not start with a state letter or `)`. */
  lemma TagLengthAppend(a: string, t: string)
    requires a != []
    requires t == [] || (!IsStateLetter(t[0]) && t[0] != ')')
    ensures TagLength(a + t) == TagLength(a)
  {
    if a[0] == '(' {
      assert (a + t)[1..] == a[1..] + t;
      RunAppend(a[1..], t, IsStateLetter);
    }
  }

  lemma {:induction false} StripAppend(a: string, t: string)
    requires t == [] || (!IsStateLetter(t[0]) && t[0] != ')')
    ensures Strip(a + t) == Strip(a) + Strip(t)
    decreases |a|
  {
    if a == [] {
      assert a + t == t;
    } else {
      TagLengthAppend(a, t);
      var n := TagLength(a);
      if n > 0 {
        assert (a + t)[n..] == a[n..] + t;
        StripAppend(a[n..], t);
      } else {
        assert (a + t)[1..] == a[1..] + t;
        StripAppend(a[1..], t);
      }
    }
  }

  lemma StripStateTag(tag: string)
    requires IsStateTag(tag)
    ensures Strip(tag) == []
  {
    RunIs(tag[1..], IsStateLetter, |tag| - 2);
    assert TagLength(tag) == |tag|;
    assert tag[|tag|..] == [];
  }

  /** A state tag at the end of a formula is removed before scanning, so it changes nothing. */
  lemma ParseIgnoresStateTag(formula: string, tag: string)
    requires IsStateTag(tag)
    ensures Parse(formula + tag) == Parse(formula)
  {
    StripAppend(formula, tag);
    StripStateTag(tag);
    assert Strip(formula) + [] == Strip(formula);
  }

  /** The four state tags of the source: solid, liquid, gas and aqueous. */
  lemma ParseIgnoresStates(formula: string)
    ensures Parse(formula + "(s)") == Parse(formula)
    ensures Parse(formula + "(l)") == Parse(formula)
    ensures Parse(formula + "(g)") == Parse(formula)
    ensures Parse(formula + "(aq)") == Parse(formula)
  {
    ParseIgnoresStateTag(formula, "(s)");
    ParseIgnoresStateTag(formula, "(l)");
    ParseIgnoresStateTag(formula, "(g)");
    ParseIgnoresStateTag(formula, "(aq)");
  }

  // ----------------------------------------------------------- concatenation

  /** Text that cannot continue a symbol or a digit run. */
  predicate StartsToken(rest: string)
  {
    rest == [] || (!IsLower(rest[0]) && !IsDigit(rest[0]))
  }

  lemma AppendCloseStep(a: string, b: string, d: nat, stack: seq<AtomCount>)
    requires a != [] && a[0] == ')' && StartsToken(b) && d == Run(a[1..], IsDigit)
    ensures 1 + d <= |a| && AllDigits(a[1..1 + d])
    ensures Scan(a, stack) == Continue(CloseGroup(stack, CountOrOne(a[1..1 + d])), a[1 + d..])
    ensures Scan(a + b, stack) == Continue(CloseGroup(stack, CountOrOne(a[1..1 + d])), a[1 + d..] + b)
  {
    DigitRun(a, 1);
    AppendSlices(a, b, 1, 1 + d);
    RunAppend(a[1..], b, IsDigit);
    CloseStep(a + b, d, stack);
    CloseStep(a, d, stack);
  }

  lemma AppendRuns(a: string, b: string, l: nat, d: nat)
    requires a != [] && StartsToken(b)
    requires l == Run(a[1..], IsLower) && d == Run(a[1 + l..], IsDigit)
    ensures Run((a + b)[1..], IsLower) == l && Run((a + b)[1 + l..], IsDigit) == d
  {
    AppendSlices(a, b, 1, 1 + l);
    RunAppend(a[1..], b, IsLower);
    RunAppend(a[1 + l..], b, IsDigit);
  }

  lemma AppendUpperStep(a: string, b: string, l: nat, d: nat, stack: seq<AtomCount>)
    requires a != [] && IsUpper(a[0]) && StartsToken(b)
    requires l == Run(a[1..], IsLower) && d == Run(a[1 + l..], IsDigit)
    ensures 1 + l + d <= |a| && AllDigits(a[1 + l..1 + l + d])
    ensures Scan(a + b, stack) == Continue(AddAtom(stack, a[..1 + l], CountOrOne(a[1 + l..1 + l + d])), a[1 + l + d..] + b)
  {
    DigitRunIs(a, 1 + l, d);
    AppendRuns(a, b, l, d);
    var s := a + b;
    UpperStepWith(s, l, d, stack, s[..1 + l], s[1 + l..1 + l + d], s[1 + l + d..]);
    AppendSlices(a, b, 1 + l, 1 + l + d);
  }

  /** Scanning `a + b` is scanning `a` and then `b`, when `b` cannot continue a run of `a`. */
  lemma {:induction false} ScanAppend(a: string, b: string, stack: seq<AtomCount>)
    requires StartsToken(b)
    ensures Scan(a + b, stack) == Continue(Scan(a, stack), b)
    decreases |a|
  {
    if a == [] {
      assert a + b == b;
    } else if a[0] == ')' {
      var d := Run(a[1..], IsDigit);
      AppendCloseStep(a, b, d, stack);
      var closed := CloseGroup(stack, CountOrOne(a[1..1 + d]));
      if closed.Done? {
        ScanAppend(a[1 + d..], b, closed.stack);
      }
    } else if a[0] == '(' {
      assert (a + b)[1..] == a[1..] + b;
      ScanAppend(a[1..], b, stack + [Empty]);
    } else if IsUpper(a[0]) {
      var l := Run(a[1..], IsLower);
      var d := Run(a[1 + l..], IsDigit);
      AppendUpperStep(a, b, l, d, stack);
      UpperStep(a, l, d, stack);
      var added := AddAtom(stack, a[..1 + l], CountOrOne(a[1 + l..1 + l + d]));
      if added.Done? {
        ScanAppend(a[1 + l + d..], b, added.stack);
      }
    } else {
      assert (a + b)[1..] == a[1..] + b;
      ScanAppend(a[1..], b, stack);
    }
  }

  // --------------------------------------------------------- unclosed groups

  /** Text without `)` never pops a frame: the frames below the top stay as they are. */
  lemma {:induction false} ScanWithoutClose(s: string, stack: seq<AtomCount>)
    requires ')' !in s && stack != []
    ensures Scan(s, stack).Done?
    ensures |Scan(s, stack).stack| >= |stack|
    ensures Scan(s, stack).stack[..|stack| - 1] == stack[..|stack| - 1]
    decreases |s|
  {
    if s == [] {
    } else {
      assert ')' !in s[1..];
      if s[0] == '(' {
        ScanWithoutClose(s[1..], stack + [Empty]);
        assert (stack + [Empty])[..|stack| - 1] == stack[..|stack| - 1];
        var r := Scan(s[1..], stack + [Empty]).stack;
        assert r[..|stack| - 1] == r[..|stack|][..|stack| - 1];
      } else if IsUpper(s[0]) {
        var l := Run(s[1..], IsLower);
        var d := Run(s[1 + l..], IsDigit);
        UpperStep(s, l, d, stack);
        var top := Bump(stack[|stack| - 1], s[..1 + l], CountOrOne(s[1 + l..1 + l + d]));
        assert ')' !in s[1 + l + d..];
        ScanWithoutClose(s[1 + l + d..], WithTop(stack, top));
        assert WithTop(stack, top)[..|stack| - 1] == stack[..|stack| - 1];
      } else {
        ScanWithoutClose(s[1..], stack);
      }
    }
  }

  /** Without `)` there is no state tag to remove. */
  lemma {:induction false} StripWithoutClose(s: string)
    requires ')' !in s
    ensures Strip(s) == s
    decreases |s|
  {
    if s != [] {
      if s[0] == '(' {
        var k := Run(s[1..], IsStateLetter);
        assert 1 + k < |s| ==> s[1 + k] != ')';
      }
      assert TagLength(s) == 0;
      assert ')' !in s[1..];
      StripWithoutClose(s[1..]);
      assert s == [s[0]] + s[1..];
    }
  }

  /**
   * Only the root frame is returned: atoms after a `(` that is never closed
   * are dropped.
   */
  lemma UnclosedGroupDropped(formula: string, rest: string)
    requires Parse(formula).Atoms?
    requires ')' !in rest
    ensures Parse(formula + "(" + rest) == Parse(formula)
  {
    var open := "(" + rest;
    assert formula + "(" + rest == formula + open;
    assert ')' !in open;
    StripAppend(formula, open);
    StripWithoutClose(open);
    ScanAppend(Strip(formula), open, [Empty]);
    var stack := Scan(Strip(formula), [Empty]).stack;
    assert open[1..] == rest;
    ScanWithoutClose(rest, stack + [Empty]);
    var r := Scan(rest, stack + [Empty]).stack;
    assert r[..|stack|][0] == stack[0];
  }

  // ------------------------------------------------------------ underflow

  /** Reading from left to right, no `)` closes more groups than the `depth` open ones. */
  predicate NeverUnderflows(s: string, depth: nat)
    decreases |s|
  {
    if s == [] then true
    else if s[0] == '(' then NeverUnderflows(s[1..], depth + 1)
    else if s[0] == ')' then depth > 0 && NeverUnderflows(s[1..], depth - 1)
    else NeverUnderflows(s[1..], depth)
  }

  lemma {:induction false} SkipWithoutParens(s: string, k: nat, depth: nat)
    requires k <= |s| && NeverUnderflows(s, depth)
    requires forall j | 0 <= j < k :: s[j] != '(' && s[j] != ')'
    ensures NeverUnderflows(s[k..], depth)
  {
    if k > 0 {
      SkipWithoutParens(s[1..], k - 1, depth);
      assert s[1..][k - 1..] == s[k..];
    }
  }

  /** The digit run after `)` holds no parenthesis. */
  lemma SkipCloseRun(s: string, d: nat, depth: nat)
    requires s != [] && d == Run(s[1..], IsDigit) && NeverUnderflows(s[1..], depth)
    ensures 1 + d <= |s| && NeverUnderflows(s[1 + d..], depth)
  {
    DigitRun(s, 1);
    SkipWithoutParens(s[1..], d, depth);
    assert s[1..][d..] == s[1 + d..];
  }

  /** The lowercase and digit runs after an uppercase letter hold no parenthesis. */
  lemma SkipAtomRuns(s: string, l: nat, d: nat, depth: nat)
    requires s != [] && l == Run(s[1..], IsLower) && d == Run(s[1 + l..], IsDigit)
    requires NeverUnderflows(s[1..], depth)
    ensures 1 + l + d <= |s| && NeverUnderflows(s[1 + l + d..], depth)
  {
    DigitRun(s, 1 + l);
    forall j | 0 <= j < l + d ensures s[1..][j] != '(' && s[1..][j] != ')' {
      if j >= l {
        assert s[1..][j] == s[1 + l..][j - l];
      }
    }
    SkipWithoutParens(s[1..], l + d, depth);
    assert s[1..][l + d..] == s[1 + l + d..];
  }

  /** A `)` that closes an open group: the scan goes on from a shorter text and a smaller stack. */
  lemma CloseNext(s: string, stack: seq<AtomCount>) returns (rest: string, next: seq<AtomCount>)
    requires s != [] && s[0] == ')' && stack != [] && NeverUnderflows(s, |stack| - 1)
    ensures |rest| < |s| && next != [] && NeverUnderflows(rest, |next| - 1)
    ensures Scan(s, stack) == Scan(rest, next)
  {
    var d := Run(s[1..], IsDigit);
    CloseStep(s, d, stack);
    SkipCloseRun(s, d, |stack| - 2);
    rest := s[1 + d..];
    next := CloseGroup(stack, CountOrOne(s[1..1 + d])).stack;
  }

  /** An element symbol added into the top frame: the scan goes on from a shorter text and a stack of the same height. */
  lemma UpperNext(s: string, stack: seq<AtomCount>) returns (rest: string, next: seq<AtomCount>)
    requires s != [] && IsUpper(s[0]) && stack != [] && NeverUnderflows(s, |stack| - 1)
    ensures |rest| < |s| && next != [] && NeverUnderflows(rest, |next| - 1)
    ensures Scan(s, stack) == Scan(rest, next)
  {
    var l := Run(s[1..], IsLower);
    var d := Run(s[1 + l..], IsDigit);
    UpperStep(s, l, d, stack);
    SkipAtomRuns(s, l, d, |stack| - 1);
    rest := s[1 + l + d..];
    next := WithTop(stack, Bump(stack[|stack| - 1], s[..1 + l], CountOrOne(s[1 + l..1 + l + d])));
  }

  lemma {:induction false} ScanNeverUnderflows(s: string, stack: seq<AtomCount>)
    requires stack != [] && NeverUnderflows(s, |stack| - 1)
    ensures Scan(s, stack).Done? && Scan(s, stack).stack != []
    decreases |s|
  {
    if s == [] {
    } else if s[0] == ')' {
      var rest, next := CloseNext(s, stack);
      ScanNeverUnderflows(rest, next);
    } else if s[0] == '(' {
      ScanNeverUnderflows(s[1..], stack + [Empty]);
    } else if IsUpper(s[0]) {
      var rest, next := UpperNext(s, stack);
      ScanNeverUnderflows(rest, next);
    } else {
      ScanNeverUnderflows(s[1..], stack);
    }
  }

  /** When no `)` closes more groups than are open, `parseFormula` returns an atom count. */
  lemma ParseDefined(formula: string)
    requires NeverUnderflows(Strip(formula), 0)
    ensures Parse(formula).Atoms?
  {
    ScanNeverUnderflows(Strip(formula), [Empty]);
  }

  /** A `)` with no open group pops the root frame; what the call then does depends on what follows. */
  lemma UnderflowExamples()
    ensures Parse(")") == Undefined
    ensures Parse("H)") == TypeError
    ensures Parse(")H") == TypeError
  {
    LoneCloseUndefined();
    CloseAfterAtomThrows();
    AtomAfterCloseThrows();
  }

  /** The root frame is popped empty, nothing is left on the stack, and `undefined` is returned. */
  lemma LoneCloseUndefined()
    ensures Parse(")") == Undefined
  {
    assert Strip(")") == ")";
    CloseStep(")", 0, [Empty]);
  }

  /** The popped root frame holds H, and merging it into the missing frame below throws. */
  lemma CloseAfterAtomThrows()
    ensures Parse("H)") == TypeError
  {
    var s := "H)";
    assert Strip(s) == s;
    RunIs(s[1..], IsLower, 0);
    RunIs(s[1..], IsDigit, 0);
    UpperStep(s, 0, 0, [Empty]);
    assert s[..1] == "H" && s[1..1] == [] && s[1..] == ")";
    CloseStep(")", 0, [Bump(Empty, "H", 1)]);
  }

  /** The root frame is popped empty, and the next symbol has no frame to be added to. */
  lemma AtomAfterCloseThrows()
    ensures Parse(")H") == TypeError
  {
    var s := ")H";
    assert Strip(s) == s;
    CloseStep(s, 0, [Empty]);
    assert s[1..1] == [] && s[1..] == "H";
    RunIs("H", IsLower, 0);
    UpperStep("H", 0, 0, []);
  }
}
