/**
 * `beautifyFormula`: a formula split into display parts, numbered in order.
 * An element symbol becomes one part and the digits right after it a
 * subscript; `)` is a part of its own, also followed by a subscript when
 * digits come next; `^`, `+` or `-` opens a charge that takes the following
 * digits and signs; every other character is a plain part. The rendered nodes
 * are modelled by the parts' kind and text.
 */
module Beautifier {
  import opened Text
  import opened ChemTypes

  /** `<span>` for an element, `<sub>` for a subscript, `<sup>` for a charge, `<span>` for any other character. */
  datatype PartKind = Element | Subscript | Charge | Plain

  /** A rendered node: its `key`, its tag and its text. */
  datatype Part = Part(key: nat, kind: PartKind, text: string)

  predicate IsChargeStart(c: char) { c == '^' || c == '+' || c == '-' }

  /** `[\d+-]` */
  predicate IsChargeChar(c: char) { IsDigit(c) || c == '+' || c == '-' }

  /** Where a run of characters satisfying `p` that starts at `i` ends. */
  function RunEnd(s: string, i: nat, p: char -> bool): (j: nat)
    requires i <= |s|
    ensures i <= j <= |s|
    decreases |s| - i
  {
    if i < |s| && p(s[i]) then RunEnd(s, i + 1, p) else i
  }

  /** The run is made of characters satisfying `p`, and the character after it does not. */
  lemma {:induction false} RunEndMeaning(s: string, i: nat, p: char -> bool)
    requires i <= |s|
    ensures forall k | i <= k < RunEnd(s, i, p) :: p(s[k])
    ensures RunEnd(s, i, p) == |s| || !p(s[RunEnd(s, i, p)])
    decreases |s| - i
  {
    if i < |s| && p(s[i]) {
      RunEndMeaning(s, i + 1, p);
    }
  }

  /** The only end with those two properties. */
  lemma {:induction false} RunEndIs(s: string, i: nat, j: nat, p: char -> bool)
    requires i <= j <= |s|
    requires forall k | i <= k < j :: p(s[k])
    requires j == |s| || !p(s[j])
    ensures RunEnd(s, i, p) == j
    decreases j - i
  {
    if i < j {
      RunEndIs(s, i + 1, j, p);
    }
  }

  /** The subscript emitted for a digit run, numbered `key`: none when the run is empty. */
  function SubscriptPart(key: nat, digits: string): seq<Part>
  {
    if digits == [] then [] else [Part(key, Subscript, digits)]
  }

  /** What one pass of the loop emits, and the position where the next pass starts. */
  datatype Chunk = Chunk(parts: seq<Part>, end: nat)

  /** The pass of the loop that starts at `i`, numbering its parts from `key`. */
  function Pass(s: string, i: nat, key: nat): (h: Chunk)
    requires i < |s|
    ensures i < h.end <= |s|
  {
    if s[i] == ')' then
      var j := RunEnd(s, i + 1, IsDigit);
      Chunk([Part(key, Plain, ")")] + SubscriptPart(key + 1, s[i + 1..j]), j)
    else if IsUpper(s[i]) then
      var e := RunEnd(s, i + 1, IsLower);
      var j := RunEnd(s, e, IsDigit);
      Chunk([Part(key, Element, s[i..e])] + SubscriptPart(key + 1, s[e..j]), j)
    else if IsChargeStart(s[i]) then
      var j := RunEnd(s, i + 1, IsChargeChar);
      Chunk([Part(key, Charge, s[i..j])], j)
    else Chunk([Part(key, Plain, [s[i]])], i + 1)
  }

  /** The parts of `s` from position `i` on, numbered from `key`. */
  function PartsFrom(s: string, i: nat, key: nat): seq<Part>
    requires i <= |s|
    decreases |s| - i
  {
    if i == |s| then []
    else
      var h := Pass(s, i, key);
      h.parts + PartsFrom(s, h.end, key + |h.parts|)
  }

  /** `if (!formula) return null`: the empty formula renders nothing. */
  function Beautify(formula: string): Option<seq<Part>>
  {
    if formula == [] then None else Some(PartsFrom(formula, 0, 0))
  }

  /** The parts' texts, in order. */
  function Concat(parts: seq<Part>): string
  {
    if parts == [] then "" else parts[0].text + Concat(parts[1..])
  }

  lemma {:induction false} ConcatAppend(a: seq<Part>, b: seq<Part>)
    ensures Concat(a + b) == Concat(a) + Concat(b)
  {
    if a == [] {
      assert a + b == b;
    } else {
      assert (a + b)[1..] == a[1..] + b;
      ConcatAppend(a[1..], b);
    }
  }

  // ---------------------------------------------------------- the shapes

  /** What the text of each kind of part looks like. */
  predicate Shaped(p: Part)
  {
    match p.kind
    case Element => |p.text| >= 1 && IsUpper(p.text[0]) && forall k | 1 <= k < |p.text| :: IsLower(p.text[k])
    case Subscript => |p.text| >= 1 && AllDigits(p.text)
    case Charge => |p.text| >= 1 && IsChargeStart(p.text[0]) && forall k | 1 <= k < |p.text| :: IsChargeChar(p.text[k])
    case Plain => |p.text| == 1 && !IsUpper(p.text[0]) && !IsChargeStart(p.text[0])
  }

  /** A part that a subscript may follow: an element or `)`. */
  predicate TakesSubscript(p: Part)
  {
    p.kind == Element || p == Part(p.key, Plain, ")")
  }

  /**
   * How neighbouring parts meet: each run is maximal (an element takes every
   * lowercase letter, a subscript every digit, a charge every digit and sign)
   * and a subscript comes exactly where digits follow an element or `)`.
   */
  predicate Follows(a: Part, b: Part)
    requires Shaped(a) && Shaped(b)
  {
    && (b.kind == Subscript ==> TakesSubscript(a))
    && (TakesSubscript(a) && IsDigit(b.text[0]) ==> b.kind == Subscript)
    && (a.kind == Element ==> !IsLower(b.text[0]))
    && (a.kind == Subscript ==> !IsDigit(b.text[0]))
    && (a.kind == Charge ==> !IsChargeChar(b.text[0]))
  }

  /** Keys run from `key` in emission order, every part is shaped, neighbours fit, and no subscript comes first. */
  predicate Tokenized(parts: seq<Part>, key: nat)
  {
    && (forall i | 0 <= i < |parts| :: parts[i].key == key + i && Shaped(parts[i]))
    && (parts != [] ==> parts[0].kind != Subscript)
    && (forall i | 0 < i < |parts| :: Follows(parts[i - 1], parts[i]))
  }

  /** A pass starts with a part, numbered `key`, that is not a subscript and starts with the character at `i`. */
  lemma PassFirst(s: string, i: nat, key: nat)
    requires i < |s|
    ensures var h := Pass(s, i, key);
      h.parts != [] && h.parts[0].key == key && h.parts[0].kind != Subscript &&
      h.parts[0].text != [] && h.parts[0].text[0] == s[i]
  {
  }

  /** A head of one or two parts followed by the parts of the rest. */
  lemma TokenizedJoin(head: seq<Part>, rest: seq<Part>, key: nat)
    requires head != [] && Tokenized(head, key)
    requires Tokenized(rest, key + |head|)
    requires rest != [] ==> Follows(head[|head| - 1], rest[0])
    ensures Tokenized(head + rest, key)
  {
    var all := head + rest;
    forall i | 0 < i < |all| ensures Follows(all[i - 1], all[i]) {
      if i < |head| {
        assert all[i - 1] == head[i - 1] && all[i] == head[i];
      } else if i == |head| {
        assert all[i - 1] == head[|head| - 1] && all[i] == rest[0];
      } else {
        assert all[i - 1] == rest[i - 1 - |head|] && all[i] == rest[i - |head|];
      }
    }
  }

  /** What a part accepts as the first character of the part after it, when that part is not a subscript. */
  predicate Accepts(a: Part, c: char)
  {
    && (TakesSubscript(a) ==> !IsDigit(c))
    && (a.kind == Element ==> !IsLower(c))
    && (a.kind == Subscript ==> !IsDigit(c))
    && (a.kind == Charge ==> !IsChargeChar(c))
  }

  /** A pass emits the characters it consumes, as tokenized parts that end where the next pass can start. */
  predicate GoodPass(s: string, i: nat, key: nat, h: Chunk)
    requires i < h.end <= |s|
  {
    && h.parts != []
    && Concat(h.parts) == s[i..h.end]
    && Tokenized(h.parts, key)
    && (h.end < |s| ==> Accepts(h.parts[|h.parts| - 1], s[h.end]))
  }

  lemma ClosePass(s: string, i: nat, key: nat)
    requires i < |s| && s[i] == ')'
    ensures GoodPass(s, i, key, Pass(s, i, key))
  {
    var j := RunEnd(s, i + 1, IsDigit);
    RunEndMeaning(s, i + 1, IsDigit);
    var digits := s[i + 1..j];
    var close := Part(key, Plain, ")");
    var sub := SubscriptPart(key + 1, digits);
    assert Pass(s, i, key).parts == [close] + sub;
    assert s[i..j] == ")" + digits;
    ConcatAppend([close], sub);
    forall k | 0 <= k < |digits| ensures IsDigit(digits[k]) {
      assert digits[k] == s[i + 1 + k];
    }
  }

  lemma ElementPassText(s: string, i: nat, key: nat)
    requires i < |s| && IsUpper(s[i])
    ensures Concat(Pass(s, i, key).parts) == s[i..Pass(s, i, key).end]
  {
    var e := RunEnd(s, i + 1, IsLower);
    var j := RunEnd(s, e, IsDigit);
    var element := Part(key, Element, s[i..e]);
    var sub := SubscriptPart(key + 1, s[e..j]);
    assert Pass(s, i, key).parts == [element] + sub;
    assert s[i..j] == s[i..e] + s[e..j];
    ConcatAppend([element], sub);
  }

  lemma ElementPass(s: string, i: nat, key: nat)
    requires i < |s| && IsUpper(s[i])
    ensures GoodPass(s, i, key, Pass(s, i, key))
  {
    ElementPassText(s, i, key);
    var e := RunEnd(s, i + 1, IsLower);
    RunEndMeaning(s, i + 1, IsLower);
    var j := RunEnd(s, e, IsDigit);
    RunEndMeaning(s, e, IsDigit);
    var symbol, digits := s[i..e], s[e..j];
    forall k | 1 <= k < |symbol| ensures IsLower(symbol[k]) {
      assert symbol[k] == s[i + k];
    }
    forall k | 0 <= k < |digits| ensures IsDigit(digits[k]) {
      assert digits[k] == s[e + k];
    }
  }

  lemma ChargePass(s: string, i: nat, key: nat)
    requires i < |s| && IsChargeStart(s[i])
    ensures GoodPass(s, i, key, Pass(s, i, key))
  {
    var j := RunEnd(s, i + 1, IsChargeChar);
    RunEndMeaning(s, i + 1, IsChargeChar);
    var charge := s[i..j];
    forall k | 1 <= k < |charge| ensures IsChargeChar(charge[k]) {
      assert charge[k] == s[i + k];
    }
  }

  lemma PassMeaning(s: string, i: nat, key: nat)
    requires i < |s|
    ensures GoodPass(s, i, key, Pass(s, i, key))
  {
    if s[i] == ')' {
      ClosePass(s, i, key);
    } else if IsUpper(s[i]) {
      ElementPass(s, i, key);
    } else if IsChargeStart(s[i]) {
      ChargePass(s, i, key);
    } else {
      assert s[i..i + 1] == [s[i]];
    }
  }

  /** Concatenating the parts gives back the formula, character for character. */
  lemma {:induction false} PartsText(s: string, i: nat, key: nat)
    requires i <= |s|
    ensures Concat(PartsFrom(s, i, key)) == s[i..]
    decreases |s| - i
  {
    if i < |s| {
      var h := Pass(s, i, key);
      var rest := PartsFrom(s, h.end, key + |h.parts|);
      PartsText(s, h.end, key + |h.parts|);
      PassText(s, i, key);
      TextJoin(s, i, h.end, h.parts, rest);
    }
  }

  lemma PassText(s: string, i: nat, key: nat)
    requires i < |s|
    ensures Concat(Pass(s, i, key).parts) == s[i..Pass(s, i, key).end]
  {
    PassMeaning(s, i, key);
  }

  /** Two runs of parts that spell two adjacent pieces of the text spell both together. */
  lemma TextJoin(s: string, i: nat, j: nat, parts: seq<Part>, rest: seq<Part>)
    requires i <= j <= |s|
    requires Concat(parts) == s[i..j] && Concat(rest) == s[j..]
    ensures Concat(parts + rest) == s[i..]
  {
    ConcatAppend(parts, rest);
    assert s[i..] == s[i..j] + s[j..];
  }

  /**
   * The parts are tokenized: numbered in order, each of its kind's shape,
   * each run maximal, and a subscript exactly after an element or `)` that
   * digits follow.
   */
  lemma {:induction false} PartsTokenized(s: string, i: nat, key: nat)
    requires i <= |s|
    ensures Tokenized(PartsFrom(s, i, key), key)
    decreases |s| - i
  {
    if i < |s| {
      var h := Pass(s, i, key);
      var rest := PartsFrom(s, h.end, key + |h.parts|);
      PartsTokenized(s, h.end, key + |h.parts|);
      PassMeaning(s, i, key);
      if h.end < |s| {
        PassFirst(s, h.end, key + |h.parts|);
      }
      PassThenRest(s, i, key, h, rest);
    }
  }

  /** A good pass followed by tokenized parts that start with the next character, not as a subscript. */
  lemma PassThenRest(s: string, i: nat, key: nat, h: Chunk, rest: seq<Part>)
    requires i < h.end <= |s| && GoodPass(s, i, key, h)
    requires Tokenized(rest, key + |h.parts|)
    requires h.end == |s| ==> rest == []
    requires h.end < |s| ==> rest != [] && rest[0].kind != Subscript && rest[0].text != [] && rest[0].text[0] == s[h.end]
    ensures Tokenized(h.parts + rest, key)
  {
    if h.end < |s| {
      var last := h.parts[|h.parts| - 1];
      assert Shaped(last) && Shaped(rest[0]);
      assert Accepts(last, rest[0].text[0]);
    }
    TokenizedJoin(h.parts, rest, key);
  }

  /** Every part holds at least one character. */
  lemma {:induction false} ConcatLength(parts: seq<Part>)
    requires forall i | 0 <= i < |parts| :: parts[i].text != []
    ensures |parts| <= |Concat(parts)|
  {
    if parts != [] {
      ConcatLength(parts[1..]);
    }
  }

  /** There is at least one part for a non-empty text, and never more parts than characters. */
  lemma PartsCount(s: string, i: nat, key: nat)
    requires i <= |s|
    ensures i < |s| ==> |PartsFrom(s, i, key)| >= 1
    ensures |PartsFrom(s, i, key)| <= |s| - i
  {
    PartsText(s, i, key);
    PartsTokenized(s, i, key);
    ConcatLength(PartsFrom(s, i, key));
  }

  // -------------------------------------------------------------- steps

  /** `(` or any other single character at `i`. */
  lemma SingleStep(s: string, i: nat, key: nat)
    requires i < |s| && s[i] != ')' && !IsUpper(s[i]) && !IsChargeStart(s[i])
    ensures Pass(s, i, key) == Chunk([Part(key, Plain, [s[i]])], i + 1)
  {
  }

  /** `)` at `i` and its digit run up to `j`. */
  lemma CloseStep(s: string, i: nat, j: nat, key: nat)
    requires i < j <= |s| && s[i] == ')'
    requires forall k | i + 1 <= k < j :: IsDigit(s[k])
    requires j == |s| || !IsDigit(s[j])
    ensures Pass(s, i, key) == Chunk([Part(key, Plain, ")")] + SubscriptPart(key + 1, s[i + 1..j]), j)
  {
    RunEndIs(s, i + 1, j, IsDigit);
  }

  /** An element at `i` whose lowercase run ends at `e` and whose digit run ends at `j`. */
  lemma ElementStep(s: string, i: nat, e: nat, j: nat, key: nat)
    requires i < e <= j <= |s| && IsUpper(s[i])
    requires forall k | i + 1 <= k < e :: IsLower(s[k])
    requires e == |s| || !IsLower(s[e])
    requires forall k | e <= k < j :: IsDigit(s[k])
    requires j == |s| || !IsDigit(s[j])
    ensures Pass(s, i, key) == Chunk([Part(key, Element, s[i..e])] + SubscriptPart(key + 1, s[e..j]), j)
  {
    RunEndIs(s, i + 1, e, IsLower);
    RunEndIs(s, e, j, IsDigit);
  }

  /** A charge at `i` whose run of digits and signs ends at `j`. */
  lemma ChargeStep(s: string, i: nat, j: nat, key: nat)
    requires i < j <= |s| && IsChargeStart(s[i])
    requires forall k | i + 1 <= k < j :: IsChargeChar(s[k])
    requires j == |s| || !IsChargeChar(s[j])
    ensures Pass(s, i, key) == Chunk([Part(key, Charge, s[i..j])], j)
  {
    RunEndIs(s, i + 1, j, IsChargeChar);
  }

  /** The loop's invariant survives a pass that emits what `Pass` says and moves to where it ends. */
  lemma Advance(s: string, i: nat, key: nat, before: seq<Part>, emitted: seq<Part>, next: nat, whole: seq<Part>)
    requires i < |s| && Pass(s, i, key) == Chunk(emitted, next)
    requires before + PartsFrom(s, i, key) == whole
    ensures (before + emitted) + PartsFrom(s, next, key + |emitted|) == whole
  {
    var rest := PartsFrom(s, next, key + |emitted|);
    assert PartsFrom(s, i, key) == emitted + rest;
    assert before + (emitted + rest) == (before + emitted) + rest;
  }

  /** `H2O` renders as the element `H`, the subscript `2` and the element `O`. */
  lemma BeautifyWater()
    ensures Beautify("H2O") == Some([Part(0, Element, "H"), Part(1, Subscript, "2"), Part(2, Element, "O")])
  {
    var s := "H2O";
    ElementStep(s, 0, 1, 2, 0);
    assert s[0..1] == "H" && s[1..2] == "2";
    ElementStep(s, 2, 3, 3, 2);
    assert s[2..3] == "O" && s[3..3] == "";
    assert PartsFrom(s, 3, 3) == [];
    assert PartsFrom(s, 2, 2) == [Part(2, Element, "O")] + PartsFrom(s, 3, 3);
    assert PartsFrom(s, 0, 0) == [Part(0, Element, "H"), Part(1, Subscript, "2")] + PartsFrom(s, 2, 2);
    assert [Part(0, Element, "H"), Part(1, Subscript, "2")] + [Part(2, Element, "O")] + []
      == [Part(0, Element, "H"), Part(1, Subscript, "2"), Part(2, Element, "O")];
    assert Beautify(s) == Some(PartsFrom(s, 0, 0));
    assert PartsFrom(s, 0, 0) == [Part(0, Element, "H"), Part(1, Subscript, "2"), Part(2, Element, "O")];
    assert s == "H2O";
  }

  /** One pass of the loop at `i`: the parts it pushes, numbered from `key`, and where it leaves `i`. */
  method ScanPass(formula: string, i: nat, key: nat) returns (emitted: seq<Part>, next: nat)
    requires i < |formula|
    ensures Pass(formula, i, key) == Chunk(emitted, next)
  {
    var c := formula[i];
    if c == '(' {
      SingleStep(formula, i, key);
      emitted, next := [Part(key, Plain, [c])], i + 1;
    } else if c == ')' {
      var subscript;
      subscript, next := TakeRun(formula, i + 1, IsDigit);
      CloseStep(formula, i, next, key);
      emitted := [Part(key, Plain, [c])];
      if subscript != [] {
        emitted := emitted + [Part(key + 1, Subscript, subscript)];
      }
    } else if IsUpper(c) {
      var lower, symbolEnd := TakeRun(formula, i + 1, IsLower);
      var element := [c] + lower;
      assert element == formula[i..symbolEnd];
      emitted := [Part(key, Element, element)];
      var subscript;
      subscript, next := TakeRun(formula, symbolEnd, IsDigit);
      ElementStep(formula, i, symbolEnd, next, key);
      if subscript != [] {
        emitted := emitted + [Part(key + 1, Subscript, subscript)];
      }
    } else if IsChargeStart(c) {
      var more;
      more, next := TakeRun(formula, i + 1, IsChargeChar);
      var superscript := [c] + more;
      assert superscript == formula[i..next];
      ChargeStep(formula, i, next, key);
      emitted := [Part(key, Charge, superscript)];
    } else {
      SingleStep(formula, i, key);
      emitted, next := [Part(key, Plain, [c])], i + 1;
    }
  }

  /** The scanning loop of `beautifyFormula`. */
  method BeautifyFormula(formula: string) returns (r: Option<seq<Part>>)
    ensures r == Beautify(formula)
  {
    if formula == [] {
      return None;
    }
    var parts: seq<Part> := [];
    var i := 0;
    var key := 0;
    while i < |formula|
      invariant 0 <= i <= |formula| && key == |parts|
      invariant parts + PartsFrom(formula, i, key) == PartsFrom(formula, 0, 0)
    {
      var emitted, next := ScanPass(formula, i, key);
      Advance(formula, i, key, parts, emitted, next, PartsFrom(formula, 0, 0));
      parts := parts + emitted;
      key := key + |emitted|;
      i := next;
    }
    assert parts == parts + PartsFrom(formula, i, key);
    r := Some(parts);
  }
}
