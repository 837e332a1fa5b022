/**
 * Formulas written the way the chemistry utilities document them: element
 * symbols and parenthesised groups, each followed by an optional count. Parsing
 * the written form of such a formula yields exactly the atoms it denotes,
 * which is what the examples `H2O -> {H: 2, O: 1}` and
 * `Ca(OH)2 -> {Ca: 1, O: 2, H: 2}` promise.
 */
module FormulaRender {
  import opened Text
  import opened AtomCounts
  import opened FormulaParser
  import opened ParserProperties

  /** A formula as a tree: an element with its count, or a group with its multiplier. */
  datatype Item = Atom(symbol: string, n: nat) | Group(body: seq<Item>, n: nat)

  /** An uppercase letter followed by lowercase letters. */
  predicate IsSymbol(sym: string)
  {
    |sym| >= 1 && IsUpper(sym[0]) && forall k | 1 <= k < |sym| :: IsLower(sym[k])
  }

  /** Every symbol is well formed and every count is at least 1. */
  predicate WellFormed(items: seq<Item>)
    decreases items
  {
    items == [] ||
    (&& items[0].n >= 1
     && (match items[0]
         case Atom(sym, _) => IsSymbol(sym)
         case Group(body, _) => WellFormed(body))
     && WellFormed(items[1..]))
  }

  /** A count of 1 is not written. */
  function CountText(n: nat): string
  {
    if n == 1 then "" else Decimal(n)
  }

  function Render(items: seq<Item>): string
    decreases items
  {
    if items == [] then ""
    else
      var head := match items[0]
        case Atom(sym, n) => sym + CountText(n)
        case Group(body, n) => "(" + Render(body) + ")" + CountText(n);
      head + Render(items[1..])
  }

  /** The atoms a formula denotes: each element's count, each group's atoms times its multiplier. */
  function Denote(items: seq<Item>): Tally
    decreases items
  {
    if items == [] then map[]
    else
      var head := match items[0]
        case Atom(sym, n) => map[sym := n]
        case Group(body, n) => Scale(Denote(body), n);
      Plus(head, Denote(items[1..]))
  }

  /** The frame that parsing `items` into `top` builds, in the order the parser adds keys. */
  function Build(top: AtomCount, items: seq<Item>): AtomCount
    decreases items
  {
    if items == [] then top
    else match items[0]
      case Atom(sym, n) => Build(Bump(top, sym, n), items[1..])
      case Group(body, n) => Build(AddScaled(top, Build(Empty, body), n), items[1..])
  }

  lemma Assoc(a: string, b: string, c: string)
    ensures (a + b) + c == a + (b + c)
  {
  }

  /** The written form of a list that starts with a group, split at the group's parentheses. */
  lemma GroupText(items: seq<Item>, rest: string)
    requires items != [] && items[0].Group?
    ensures Render(items) + rest == "(" + (Render(items[0].body) + (")" + CountText(items[0].n) + (Render(items[1..]) + rest)))
  {
    var body, n := items[0].body, items[0].n;
    var r, ct, tail := Render(body), CountText(n), Render(items[1..]);
    calc {
      Render(items) + rest;
      ((("(" + r) + ")") + ct + tail) + rest;
      { Assoc((("(" + r) + ")") + ct, tail, rest); }
      (("(" + r) + ")") + ct + (tail + rest);
      { Assoc(("(" + r) + ")", ct, tail + rest); }
      (("(" + r) + ")") + (ct + (tail + rest));
      { Assoc("(" + r, ")", ct + (tail + rest)); }
      ("(" + r) + (")" + (ct + (tail + rest)));
      { Assoc("(", r, ")" + (ct + (tail + rest))); }
      "(" + (r + (")" + (ct + (tail + rest))));
      { Assoc(")", ct, tail + rest); }
      "(" + (r + (")" + ct + (tail + rest)));
    }
  }

  lemma CountTextValue(n: nat)
    requires n >= 1
    ensures AllDigits(CountText(n)) && CountOrOne(CountText(n)) == n
  {
  }

  lemma {:induction false} RenderStart(items: seq<Item>)
    requires WellFormed(items)
    ensures Render(items) == [] || IsUpper(Render(items)[0]) || Render(items)[0] == '('
  {
  }

  /** Text after a written formula never continues its last symbol or count. */
  lemma RenderThenToken(items: seq<Item>, rest: string)
    requires WellFormed(items) && StartsToken(rest)
    ensures StartsToken(Render(items) + rest)
  {
    RenderStart(items);
  }

  /** An element symbol and its count, followed by text that starts a new token. */
  lemma AtomScan(sym: string, n: nat, tail: string, st: seq<AtomCount>, top: AtomCount)
    requires IsSymbol(sym) && n >= 1 && StartsToken(tail)
    ensures Scan(sym + CountText(n) + tail, st + [top]) == Scan(tail, st + [Bump(top, sym, n)])
  {
    var ct := CountText(n);
    var s := sym + ct + tail;
    var l, d := |sym| - 1, |ct|;
    CountTextValue(n);
    AtomText(sym, ct, tail);
    RunIs(s[1..], IsLower, l);
    RunIs(s[1 + l..], IsDigit, d);
    UpperStepWith(s, l, d, st + [top], sym, ct, tail);
    assert WithTop(st + [top], Bump(top, sym, n)) == st + [Bump(top, sym, n)];
  }

  /** Where the symbol, the count and the tail sit in `sym + ct + tail`. */
  lemma AtomText(sym: string, ct: string, tail: string)
    requires sym != []
    ensures var s := sym + ct + tail;
      && s[1 + (|sym| - 1)..] == ct + tail
      && s[..1 + (|sym| - 1)] == sym
      && s[1 + (|sym| - 1)..1 + (|sym| - 1) + |ct|] == ct
      && s[1 + (|sym| - 1) + |ct|..] == tail
  {
  }

  /** The `)` of a group with its count, followed by text that starts a new token. */
  lemma CloseScan(n: nat, tail: string, st: seq<AtomCount>, top: AtomCount, group: AtomCount)
    requires n >= 1 && StartsToken(tail)
    ensures Scan(")" + CountText(n) + tail, st + [top, group]) == Scan(tail, st + [AddScaled(top, group, n)])
  {
    var ct := CountText(n);
    var s := ")" + ct + tail;
    CountTextValue(n);
    CloseText(ct, tail);
    RunIs(s[1..], IsDigit, |ct|);
    CloseStepWith(s, |ct|, st + [top, group], ct, tail);
    CloseTwo(st, top, group, n);
  }

  /** Where the count and the tail sit in `")" + ct + tail`. */
  lemma CloseText(ct: string, tail: string)
    ensures var s := ")" + ct + tail;
      && s != [] && s[0] == ')' && s[1..] == ct + tail && s[1..1 + |ct|] == ct && s[1 + |ct|..] == tail
  {
  }

  /** Closing the top group of a stack with a frame below it merges the group into that frame. */
  lemma CloseTwo(st: seq<AtomCount>, top: AtomCount, group: AtomCount, mult: int)
    ensures CloseGroup(st + [top, group], mult) == Done(st + [AddScaled(top, group, mult)])
  {
    assert (st + [top, group])[..|st| + 1] == st + [top];
  }

  lemma ScanRenderAtom(items: seq<Item>, rest: string, st: seq<AtomCount>, top: AtomCount)
    requires WellFormed(items) && StartsToken(rest) && items != [] && items[0].Atom?
    ensures Scan(Render(items) + rest, st + [top]) == Scan(Render(items[1..]) + rest, st + [Bump(top, items[0].symbol, items[0].n)])
  {
    var sym, n := items[0].symbol, items[0].n;
    var tail := Render(items[1..]) + rest;
    RenderThenToken(items[1..], rest);
    assert Render(items) + rest == sym + CountText(n) + tail;
    AtomScan(sym, n, tail, st, top);
  }

  /** A whole group `(body)n`, followed by text that starts a new token, given how its body scans. */
  lemma GroupScan(body: seq<Item>, n: nat, tail: string, st: seq<AtomCount>, top: AtomCount, group: AtomCount)
    requires n >= 1 && StartsToken(tail)
    requires Scan(Render(body) + (")" + CountText(n) + tail), st + [top] + [Empty]) == Scan(")" + CountText(n) + tail, st + [top] + [group])
    ensures Scan("(" + (Render(body) + (")" + CountText(n) + tail)), st + [top]) == Scan(tail, st + [AddScaled(top, group, n)])
  {
    var s := "(" + (Render(body) + (")" + CountText(n) + tail));
    assert s[1..] == Render(body) + (")" + CountText(n) + tail);
    assert st + [top] + [group] == st + [top, group];
    CloseScan(n, tail, st, top, group);
  }

  /** Scanning a written formula adds exactly the frame `Build` describes. */
  lemma {:induction false} ScanRender(items: seq<Item>, rest: string, st: seq<AtomCount>, top: AtomCount)
    requires WellFormed(items) && StartsToken(rest)
    ensures Scan(Render(items) + rest, st + [top]) == Scan(rest, st + [Build(top, items)])
    decreases items
  {
    if items == [] {
      assert Render(items) + rest == rest;
    } else {
      match items[0]
      case Atom(sym, n) =>
        ScanRenderAtom(items, rest, st, top);
        ScanRender(items[1..], rest, st, Bump(top, sym, n));
      case Group(body, n) =>
        var tail := Render(items[1..]) + rest;
        RenderThenToken(items[1..], rest);
        GroupText(items, rest);
        ScanRender(body, ")" + CountText(n) + tail, st + [top], Empty);
        GroupScan(body, n, tail, st, top, Build(Empty, body));
        ScanRender(items[1..], rest, st, AddScaled(top, Build(Empty, body), n));
    }
  }

  /** Text without `(` contains no state tag, even when followed by more text. */
  lemma {:induction false} StripWithoutOpen(w: string, rest: string)
    requires '(' !in w
    ensures Strip(w + rest) == w + Strip(rest)
    decreases |w|
  {
    if w == [] {
      assert w + rest == rest;
    } else {
      assert (w + rest)[1..] == w[1..] + rest;
      assert '(' !in w[1..];
      StripWithoutOpen(w[1..], rest);
    }
  }

  lemma StripRenderAtom(items: seq<Item>, rest: string)
    requires WellFormed(items) && items != [] && items[0].Atom?
    ensures Strip(Render(items) + rest) == items[0].symbol + CountText(items[0].n) + Strip(Render(items[1..]) + rest)
  {
    var sym, n := items[0].symbol, items[0].n;
    var w := sym + CountText(n);
    assert Render(items) + rest == w + (Render(items[1..]) + rest);
    CountTextValue(n);
    assert forall k | 0 <= k < |w| :: IsUpper(w[k]) || IsLower(w[k]) || IsDigit(w[k]);
    StripWithoutOpen(w, Render(items[1..]) + rest);
  }

  /** A `(` followed by a symbol, `(` or `)` does not start a state tag. */
  lemma StripOpen(inner: string)
    requires inner != [] && (inner[0] == ')' || IsUpper(inner[0]) || inner[0] == '(')
    ensures Strip("(" + inner) == "(" + Strip(inner)
  {
    assert ("(" + inner)[1..] == inner;
    RunIs(inner, IsStateLetter, 0);
    assert TagLength("(" + inner) == 0;
  }

  lemma StripGroupClose(n: nat, tail: string)
    requires n >= 1
    ensures Strip(")" + CountText(n) + tail) == ")" + CountText(n) + Strip(tail)
  {
    var close := ")" + CountText(n);
    CountTextValue(n);
    assert forall k | 1 <= k < |close| :: IsDigit(close[k]);
    StripWithoutOpen(close, tail);
  }

  lemma StripAtomCase(items: seq<Item>, rest: string)
    requires WellFormed(items) && items != [] && items[0].Atom?
    requires Strip(Render(items[1..]) + rest) == Render(items[1..]) + Strip(rest)
    ensures Strip(Render(items) + rest) == Render(items) + Strip(rest)
  {
    var w := items[0].symbol + CountText(items[0].n);
    StripRenderAtom(items, rest);
    assert Render(items) == w + Render(items[1..]);
    Assoc(w, Render(items[1..]), Strip(rest));
  }

  lemma StripGroupCase(items: seq<Item>, rest: string)
    requires WellFormed(items) && items != [] && items[0].Group?
    requires Strip(Render(items[1..]) + rest) == Render(items[1..]) + Strip(rest)
    requires var tail := Render(items[1..]) + rest;
      Strip(Render(items[0].body) + (")" + CountText(items[0].n) + tail)) == Render(items[0].body) + Strip(")" + CountText(items[0].n) + tail)
    ensures Strip(Render(items) + rest) == Render(items) + Strip(rest)
  {
    var r, n, r1 := Render(items[0].body), items[0].n, Render(items[1..]);
    RenderStart(items[0].body);
    StripGroupPieces(r, n, r1, rest);
    GroupText(items, rest);
    GroupText(items, "");
    assert r1 + "" == r1 && Render(items) + "" == Render(items);
    assert Render(items) + rest == "(" + (r + (")" + CountText(n) + (r1 + rest)));
  }

  /** Every `(` of a written formula is followed by a symbol, `(` or `)`: never by a state letter. */
  lemma {:induction false} StripRender(items: seq<Item>, rest: string)
    requires WellFormed(items)
    ensures Strip(Render(items) + rest) == Render(items) + Strip(rest)
    decreases items, 1
  {
    if items == [] {
      assert Render(items) + rest == rest;
    } else if items[0].Atom? {
      StripRender(items[1..], rest);
      StripAtomCase(items, rest);
    } else {
      StripRenderGroup(items, rest);
    }
  }

  /** The group case of `StripRender`: the body, then what follows the group. */
  lemma {:induction false} StripRenderGroup(items: seq<Item>, rest: string)
    requires WellFormed(items) && items != [] && items[0].Group?
    ensures Strip(Render(items) + rest) == Render(items) + Strip(rest)
    decreases items, 0
  {
    var body, n, others := items[0].body, items[0].n, items[1..];
    StripRender(others, rest);
    StripRender(body, ")" + CountText(n) + (Render(others) + rest));
    StripGroupCase(items, rest);
  }

  /** The group case of `StripRender`, on the pieces of the text: body, count and what follows. */
  lemma StripGroupPieces(r: string, n: nat, r1: string, rest: string)
    requires n >= 1
    requires r == [] || IsUpper(r[0]) || r[0] == '('
    requires Strip(r1 + rest) == r1 + Strip(rest)
    requires Strip(r + (")" + CountText(n) + (r1 + rest))) == r + Strip(")" + CountText(n) + (r1 + rest))
    ensures Strip("(" + (r + (")" + CountText(n) + (r1 + rest)))) == ("(" + (r + (")" + CountText(n) + r1))) + Strip(rest)
  {
    var close := ")" + CountText(n);
    var tail := r1 + rest;
    StripOpen(r + (close + tail));
    StripGroupClose(n, tail);
    calc {
      Strip("(" + (r + (close + tail)));
      "(" + (r + Strip(close + tail));
      "(" + (r + (close + (r1 + Strip(rest))));
      { Assoc(close, r1, Strip(rest));
        Assoc(r, close + r1, Strip(rest));
        Assoc("(", r + (close + r1), Strip(rest)); }
      ("(" + (r + (close + r1))) + Strip(rest);
    }
  }

  /** The frame built from a written formula counts exactly the atoms the formula denotes. */
  lemma {:induction false} BuildCount(top: AtomCount, items: seq<Item>)
    requires WellFormed(items) && Valid(top)
    ensures Valid(Build(top, items))
    ensures Build(top, items).count == Plus(top.count, Denote(items))
    decreases items
  {
    if items == [] {
      PlusEmpty(top.count);
    } else {
      match items[0]
      case Atom(sym, n) =>
        var next := Bump(top, sym, n);
        PutValid(top, sym, Get(top, sym) + n);
        BumpCount(top, sym, n);
        TallyEq(next.count, Plus(top.count, map[sym := n]));
        BuildCount(next, items[1..]);
        PlusAssociative(top.count, map[sym := n], Denote(items[1..]));
      case Group(body, n) =>
        var group := Build(Empty, body);
        BuildCount(Empty, body);
        PlusEmpty(Denote(body));
        var next := AddScaled(top, group, n);
        AddScaledPrefixValid(top, group, n, |group.keys|);
        AddScaledCount(top, group, n);
        BuildCount(next, items[1..]);
        PlusAssociative(top.count, Scale(Denote(body), n), Denote(items[1..]));
    }
  }

  /**
   * Parsing a written formula yields the atoms it denotes: counts after a
   * symbol are added, counts after a group multiply the whole group, and a
   * symbol written twice adds up.
   */
  lemma ParseRender(items: seq<Item>)
    requires WellFormed(items)
    ensures Parse(Render(items)) == Atoms(Build(Empty, items))
    ensures Valid(Build(Empty, items)) && Build(Empty, items).count == Denote(items)
  {
    StripRender(items, "");
    assert Render(items) + "" == Render(items);
    assert Strip("") == "";
    ScanRender(items, "", [], Empty);
    assert [] + [Empty] == [Empty];
    BuildCount(Empty, items);
    PlusEmpty(Denote(items));
  }

  /** `H2O -> {H: 2, O: 1}` */
  lemma ParseWater()
    ensures Parse("H2O") == Atoms(AtomCount(["H", "O"], map["H" := 2, "O" := 1]))
  {
    var items := [Atom("H", 2), Atom("O", 1)];
    assert WellFormed(items);
    assert Render(items) == "H2O";
    ParseRender(items);
    assert Build(Empty, items) == AtomCount(["H", "O"], map["H" := 2, "O" := 1]);
  }

  /** The tree of `Ca(OH)2`. */
  function CalciumHydroxide(): seq<Item>
  {
    [Atom("Ca", 1), Group([Atom("O", 1), Atom("H", 1)], 2)]
  }

  lemma CalciumHydroxideText()
    ensures WellFormed(CalciumHydroxide()) && Render(CalciumHydroxide()) == "Ca(OH)2"
  {
    var items := CalciumHydroxide();
    assert WellFormed(items[1].body);
    assert WellFormed(items);
    assert Render(items[1].body) == "OH";
    assert DigitChar(2) == '2';
    assert CountText(2) == "2";
    assert Render(items[1..]) == "(OH)2";
  }

  lemma CalciumHydroxideBuild()
    ensures Build(Empty, CalciumHydroxide()) == AtomCount(["Ca", "O", "H"], map["Ca" := 1, "O" := 2, "H" := 2])
  {
    var items := CalciumHydroxide();
    var body := items[1].body;
    var o := Bump(Empty, "O", 1);
    assert o == AtomCount(["O"], map["O" := 1]);
    var group := Bump(o, "H", 1);
    assert group == AtomCount(["O", "H"], map["O" := 1, "H" := 1]);
    assert Build(Empty, body) == Build(o, body[1..]) == group;
    var top := Bump(Empty, "Ca", 1);
    assert top == AtomCount(["Ca"], map["Ca" := 1]);
    var withO := AddScaledPrefix(top, group, 2, 1);
    assert withO == Bump(top, "O", 2) == AtomCount(["Ca", "O"], map["Ca" := 1, "O" := 2]);
    var all := AddScaledPrefix(top, group, 2, 2);
    assert all == Bump(withO, "H", 2) == AtomCount(["Ca", "O", "H"], map["Ca" := 1, "O" := 2, "H" := 2]);
    assert Build(Empty, items) == Build(top, items[1..]) == all;
  }

  /** `Ca(OH)2 -> {Ca: 1, O: 2, H: 2}`, keys in the order the parser adds them. */
  lemma ParseCalciumHydroxide()
    ensures Parse("Ca(OH)2") == Atoms(AtomCount(["Ca", "O", "H"], map["Ca" := 1, "O" := 2, "H" := 2]))
  {
    CalciumHydroxideText();
    ParseRender(CalciumHydroxide());
    CalciumHydroxideBuild();
  }
}
