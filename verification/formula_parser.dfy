/**
 * `parseFormula` of the chemistry utilities. State tags such as `(aq)` are
 * removed first; the remaining text is scanned left to right with a stack of
 * partial atom counts, one per open parenthesised group, whose bottom frame is
 * the result.
 */
module FormulaParser {
  import opened Text
  import opened AtomCounts

  /** The letters of the state-tag class `[slgaq]`. */
  predicate IsStateLetter(c: char)
  {
    c == 's' || c == 'l' || c == 'g' || c == 'a' || c == 'q'
  }

  /** `(` followed by one or more state letters and `)`: a match of `/\([slgaq]+\)/`. */
  predicate IsStateTag(t: string)
  {
    && |t| >= 3 && t[0] == '(' && t[|t| - 1] == ')'
    && forall k | 1 <= k < |t| - 1 :: IsStateLetter(t[k])
  }

  /** A tag at the front of `s` is seen through its run of state letters, which the `)` ends. */
  lemma TagRun(s: string, m: nat)
    requires 0 < m <= |s| && IsStateTag(s[..m])
    ensures Run(s[1..], IsStateLetter) == m - 2
  {
    assert s[..m][m - 1] == s[1..][m - 2];
    forall k | 0 <= k < m - 2 ensures IsStateLetter(s[1..][k]) {
      assert s[1..][k] == s[..m][k + 1];
    }
    RunIs(s[1..], IsStateLetter, m - 2);
  }

  /**
   * Length of the state tag at the front of `s`, or 0 when `s` does not start
   * with one: a tag at the front is always recognised, and only a tag is.
   */
  function TagLength(s: string): (n: nat)
    ensures n == 0 || (n <= |s| && IsStateTag(s[..n]))
    ensures forall m | 0 < m <= |s| :: IsStateTag(s[..m]) ==> n == m
  {
    assert forall m | 0 < m <= |s| && IsStateTag(s[..m]) :: Run(s[1..], IsStateLetter) == m - 2 by {
      forall m | 0 < m <= |s| && IsStateTag(s[..m]) ensures Run(s[1..], IsStateLetter) == m - 2 {
        TagRun(s, m);
      }
    }
    if s == [] || s[0] != '(' then 0
    else
      var k := Run(s[1..], IsStateLetter);
      if k >= 1 && 1 + k < |s| && s[1 + k] == ')' then k + 2 else 0
  }

  /**
   * `formula.replace(/\([slgaq]+\)/g, '')`: the global replace tries a match at
   * each position from left to right, deletes it and resumes after it.
   */
  function Strip(s: string): string
    decreases |s|
  {
    if s == [] then []
    else if TagLength(s) > 0 then Strip(s[TagLength(s)..])
    else [s[0]] + Strip(s[1..])
  }

  /** The state of the scan: the stack of frames, or the TypeError thrown by reading a property of `undefined`. */
  datatype Scanned = Done(stack: seq<AtomCount>) | Crashed

  /** The stack with its top frame replaced. */
  function WithTop(stack: seq<AtomCount>, top: AtomCount): seq<AtomCount>
    requires stack != []
  {
    stack[..|stack| - 1] + [top]
  }

  /**
   * `)` with multiplier `mult`: the group is popped (`{}` when the stack is
   * already empty) and added, multiplied, into the frame below. With no frame
   * below, the merge reads a property of `undefined` as soon as the group has
   * an entry.
   */
  function CloseGroup(stack: seq<AtomCount>, mult: int): Scanned
  {
    var group := if stack == [] then Empty else stack[|stack| - 1];
    var below := if stack == [] then [] else stack[..|stack| - 1];
    if below != [] then Done(WithTop(below, AddScaled(below[|below| - 1], group, mult)))
    else if group.keys == [] then Done([])
    else Crashed
  }

  /** An element symbol with its count, added into the top frame, which must exist. */
  function AddAtom(stack: seq<AtomCount>, element: string, num: int): Scanned
  {
    if stack == [] then Crashed else Done(WithTop(stack, Bump(stack[|stack| - 1], element, num)))
  }

  /** The scan goes on over `rest` after a step, unless the step threw. */
  function Continue(step: Scanned, rest: string): Scanned
    decreases |rest|, 1
  {
    match step
    case Crashed => Crashed
    case Done(stack) => Scan(rest, stack)
  }

  /** The digits of the run that starts at `i`. */
  lemma DigitRun(s: string, i: nat)
    requires i <= |s|
    ensures i + Run(s[i..], IsDigit) <= |s|
    ensures AllDigits(s[i..i + Run(s[i..], IsDigit)])
  {
    var t := s[i..i + Run(s[i..], IsDigit)];
    assert forall k | 0 <= k < |t| :: t[k] == s[i..][k];
  }

  /** The same, for a run whose length is already named. */
  lemma DigitRunIs(s: string, i: nat, d: nat)
    requires i <= |s| && d == Run(s[i..], IsDigit)
    ensures i + d <= |s| && AllDigits(s[i..i + d])
  {
    DigitRun(s, i);
  }

  /**
   * The scanning loop run over `s` from the given stack: `(` pushes `{}`, `)`
   * closes a group with the digit run after it as multiplier, an uppercase
   * letter with the lowercase run and the digit run after it adds atoms to the
   * top frame, and any other character is skipped.
   */
  function Scan(s: string, stack: seq<AtomCount>): Scanned
    decreases |s|, 0
  {
    if s == [] then Done(stack)
    else if s[0] == ')' then
      var d := Run(s[1..], IsDigit);
      DigitRun(s, 1);
      Continue(CloseGroup(stack, CountOrOne(s[1..1 + d])), s[1 + d..])
    else if s[0] == '(' then Scan(s[1..], stack + [Empty])
    else if IsUpper(s[0]) then
      var l := Run(s[1..], IsLower);
      var d := Run(s[1 + l..], IsDigit);
      DigitRun(s, 1 + l);
      Continue(AddAtom(stack, s[..1 + l], CountOrOne(s[1 + l..1 + l + d])), s[1 + l + d..])
    else Scan(s[1..], stack)
  }

  /**
   * What `parseFormula` does: it returns an atom count, returns `undefined`
   * (a `)` popped the root frame and nothing was pushed again), or throws.
   */
  datatype ParseOutcome = Atoms(atoms: AtomCount) | Undefined | TypeError

  function Parse(formula: string): ParseOutcome
  {
    match Scan(Strip(formula), [Empty])
    case Crashed => TypeError
    case Done(stack) => if stack == [] then Undefined else Atoms(stack[0])
  }

  /** `for (const [element, count] of Object.entries(group)) current[element] = (current[element] || 0) + count * mult` */
  method AddScaledInto(current: AtomCount, group: AtomCount, mult: int) returns (r: AtomCount)
    ensures r == AddScaled(current, group, mult)
    ensures Valid(group) ==> r.count == Plus(current.count, Scale(group.count, mult))
  {
    r := current;
    var k := 0;
    while k < |group.keys|
      invariant 0 <= k <= |group.keys|
      invariant r == AddScaledPrefix(current, group, mult, k)
    {
      var element := group.keys[k];
      var count := Get(group, element);
      r := Bump(r, element, count * mult);
      k := k + 1;
    }
    if Valid(group) {
      AddScaledCount(current, group, mult);
    }
  }

  /** `const group = stack.pop() || {}; const current = stack[stack.length - 1];` and the merge. */
  method PopAndMerge(stack: seq<AtomCount>, mult: int) returns (r: Scanned)
    ensures r == CloseGroup(stack, mult)
  {
    var group := if stack == [] then Empty else stack[|stack| - 1];
    var below := if stack == [] then [] else stack[..|stack| - 1];
    if below == [] {
      if group.keys != [] {
        return Crashed;
      }
      return Done([]);
    }
    var current := AddScaledInto(below[|below| - 1], group, mult);
    r := Done(WithTop(below, current));
  }

  /** The text of `s` from `i` on, with a known run of characters satisfying `p` at its front. */
  lemma RunFrom(s: string, i: nat, j: nat, p: char -> bool)
    requires i <= j <= |s|
    requires forall k | i <= k < j :: p(s[k])
    requires j == |s| || !p(s[j])
    ensures Run(s[i..], p) == j - i
  {
    RunIs(s[i..], p, j - i);
  }

  lemma ScanOpenAt(clean: string, i: nat, stack: seq<AtomCount>)
    requires i < |clean| && clean[i] == '('
    ensures Scan(clean[i..], stack) == Scan(clean[i + 1..], stack + [Empty])
  {
    assert clean[i..][1..] == clean[i + 1..];
  }

  lemma ScanSkipAt(clean: string, i: nat, stack: seq<AtomCount>)
    requires i < |clean| && clean[i] != '(' && clean[i] != ')' && !IsUpper(clean[i])
    ensures Scan(clean[i..], stack) == Scan(clean[i + 1..], stack)
  {
    assert clean[i..][1..] == clean[i + 1..];
  }

  lemma UpperStep(s: string, l: nat, d: nat, stack: seq<AtomCount>)
    requires s != [] && IsUpper(s[0])
    requires l == Run(s[1..], IsLower) && d == Run(s[1 + l..], IsDigit)
    ensures 1 + l + d <= |s| && AllDigits(s[1 + l..1 + l + d])
    ensures Scan(s, stack) == Continue(AddAtom(stack, s[..1 + l], CountOrOne(s[1 + l..1 + l + d])), s[1 + l + d..])
  {
    DigitRun(s, 1 + l);
    assert s[0] != ')' && s[0] != '(';
  }

  /** The same step, with the symbol, the digits and the rest of the text named. */
  lemma UpperStepWith(s: string, l: nat, d: nat, stack: seq<AtomCount>, symbol: string, digits: string, rest: string)
    requires s != [] && IsUpper(s[0])
    requires l == Run(s[1..], IsLower) && d == Run(s[1 + l..], IsDigit)
    requires 1 + l + d <= |s| && symbol == s[..1 + l] && digits == s[1 + l..1 + l + d] && rest == s[1 + l + d..]
    ensures AllDigits(digits)
    ensures Scan(s, stack) == Continue(AddAtom(stack, symbol, CountOrOne(digits)), rest)
  {
    UpperStep(s, l, d, stack);
  }

  lemma CloseStep(s: string, d: nat, stack: seq<AtomCount>)
    requires s != [] && s[0] == ')' && d == Run(s[1..], IsDigit)
    ensures 1 + d <= |s| && AllDigits(s[1..1 + d])
    ensures Scan(s, stack) == Continue(CloseGroup(stack, CountOrOne(s[1..1 + d])), s[1 + d..])
  {
    DigitRun(s, 1);
  }

  /** The same step, with the digits and the rest of the text named. */
  lemma CloseStepWith(s: string, d: nat, stack: seq<AtomCount>, digits: string, rest: string)
    requires s != [] && s[0] == ')' && d == Run(s[1..], IsDigit)
    requires 1 + d <= |s| && digits == s[1..1 + d] && rest == s[1 + d..]
    ensures AllDigits(digits)
    ensures Scan(s, stack) == Continue(CloseGroup(stack, CountOrOne(digits)), rest)
  {
    CloseStep(s, d, stack);
  }

  /** `)` at `i` followed by the digit run that ends at `j`. */
  lemma ScanCloseAt(clean: string, i: nat, j: nat, stack: seq<AtomCount>)
    requires i < j <= |clean| && clean[i] == ')'
    requires forall k | i + 1 <= k < j :: IsDigit(clean[k])
    requires j == |clean| || !IsDigit(clean[j])
    ensures AllDigits(clean[i + 1..j])
    ensures Scan(clean[i..], stack) == Continue(CloseGroup(stack, CountOrOne(clean[i + 1..j])), clean[j..])
  {
    var d := j - i - 1;
    TokenSlices(clean, i, 0, d);
    RunFrom(clean, i + 1, j, IsDigit);
    CloseStepWith(clean[i..], d, stack, clean[i + 1..j], clean[j..]);
  }

  /** An uppercase letter at `i`, the lowercase run up to `j` and the digit run up to `m`. */
  lemma ScanAtomAt(clean: string, i: nat, j: nat, m: nat, stack: seq<AtomCount>)
    requires i < j <= m <= |clean| && IsUpper(clean[i])
    requires forall k | i + 1 <= k < j :: IsLower(clean[k])
    requires j == |clean| || !IsLower(clean[j])
    requires forall k | j <= k < m :: IsDigit(clean[k])
    requires m == |clean| || !IsDigit(clean[m])
    ensures AllDigits(clean[j..m])
    ensures Scan(clean[i..], stack) == Continue(AddAtom(stack, clean[i..j], CountOrOne(clean[j..m])), clean[m..])
  {
    var l, d := j - i - 1, m - j;
    RunFrom(clean, i + 1, j, IsLower);
    RunFrom(clean, j, m, IsDigit);
    var s := clean[i..];
    TokenRuns(clean, i, l, d, s);
    TokenPieces(clean, i, j, m, l, d, s);
    UpperStepWith(s, l, d, stack, clean[i..j], clean[j..m], clean[m..]);
  }

  /** The pieces of a token at `i`, cut from the suffix `s` that starts there. */
  lemma TokenPieces(clean: string, i: nat, j: nat, m: nat, l: nat, d: nat, s: string)
    requires i < j <= m <= |clean| && l == j - i - 1 && d == m - j && s == clean[i..]
    ensures s != [] && s[0] == clean[i] && 1 + l + d <= |s|
    ensures s[..1 + l] == clean[i..j] && s[1 + l..1 + l + d] == clean[j..m] && s[1 + l + d..] == clean[m..]
  {
    TokenSlices(clean, i, l, d);
  }

  /** The runs of a token at `i`, seen from the suffix `s` that starts there. */
  lemma TokenRuns(clean: string, i: nat, l: nat, d: nat, s: string)
    requires i + 1 + l + d <= |clean| && s == clean[i..]
    requires Run(clean[i + 1..], IsLower) == l && Run(clean[i + 1 + l..], IsDigit) == d
    ensures Run(s[1..], IsLower) == l && Run(s[1 + l..], IsDigit) == d
  {
    TokenSlices(clean, i, l, d);
  }

  /** How the pieces of a token at `i` sit in `clean`: a first character, a run of `l` and a run of `d`. */
  lemma TokenSlices(clean: string, i: nat, l: nat, d: nat)
    requires i + 1 + l + d <= |clean|
    ensures clean[i..] != [] && clean[i..][0] == clean[i]
    ensures clean[i..][1..] == clean[i + 1..] && clean[i..][1 + l..] == clean[i + 1 + l..]
    ensures clean[i..][..1 + l] == clean[i..i + 1 + l]
    ensures clean[i..][1 + l..1 + l + d] == clean[i + 1 + l..i + 1 + l + d]
    ensures clean[i..][1 + l + d..] == clean[i + 1 + l + d..]
  {
  }

  method ParseFormula(formula: string) returns (r: ParseOutcome)
    ensures r == Parse(formula)
  {
    var clean := Strip(formula);
    var stack: seq<AtomCount> := [Empty];
    var i := 0;
    while i < |clean|
      invariant 0 <= i <= |clean|
      invariant Scan(clean[i..], stack) == Scan(clean, [Empty])
    {
      var c := clean[i];
      if c == '(' {
        ScanOpenAt(clean, i, stack);
        stack := stack + [Empty];
        i := i + 1;
      } else if c == ')' {
        var closed, next := CloseAt(clean, i, stack);
        if closed.Crashed? {
          return TypeError;
        }
        stack := closed.stack;
        i := next;
      } else if IsUpper(c) {
        var added, next := AtomAt(clean, i, stack);
        if added.Crashed? {
          return TypeError;
        }
        stack := added.stack;
        i := next;
      } else {
        ScanSkipAt(clean, i, stack);
        i := i + 1;
      }
    }
    if stack == [] {
      r := Undefined;
    } else {
      r := Atoms(stack[0]);
    }
  }

  /** The `)` branch of the loop: read the multiplier, pop the group and merge it into the frame below. */
  method CloseAt(clean: string, i: nat, stack: seq<AtomCount>) returns (closed: Scanned, next: nat)
    requires i < |clean| && clean[i] == ')'
    ensures i < next <= |clean|
    ensures Scan(clean[i..], stack) == Continue(closed, clean[next..])
  {
    var multiplier;
    multiplier, next := TakeRun(clean, i + 1, IsDigit);
    ScanCloseAt(clean, i, next, stack);
    var mult := CountOrOne(multiplier);
    closed := PopAndMerge(stack, mult);
  }

  /** The element branch of the loop: read the symbol and its count and add them into the top frame. */
  method AtomAt(clean: string, i: nat, stack: seq<AtomCount>) returns (added: Scanned, next: nat)
    requires i < |clean| && IsUpper(clean[i])
    ensures i < next <= |clean|
    ensures Scan(clean[i..], stack) == Continue(added, clean[next..])
  {
    var lower, digitsAt := TakeRun(clean, i + 1, IsLower);
    var element := [clean[i]] + lower;
    var count;
    count, next := TakeRun(clean, digitsAt, IsDigit);
    ScanAtomAt(clean, i, digitsAt, next, stack);
    assert element == clean[i..digitsAt];
    var num := CountOrOne(count);
    if stack == [] {
      return Crashed, next;
    }
    var current := stack[|stack| - 1];
    added := Done(WithTop(stack, Bump(current, element, num)));
    assert added == AddAtom(stack, clean[i..digitsAt], CountOrOne(clean[digitsAt..next]));
  }
}
