/**
 * `formatAtomCounts`: the entries of an atom count sorted by element symbol,
 * each written as its count, a space and the symbol, joined by ", ".
 */
module AtomFormat {
  import opened Text
  import opened Seqs
  import opened AtomCounts

  /** No element is smaller than one before it. */
  predicate Sorted(s: seq<string>)
  {
    forall i, j | 0 <= i < j < |s| :: !Less(s[j], s[i])
  }

  /** `k` placed after every element not greater than it, as a stable sort places it. */
  function Insert(s: seq<string>, k: string): (r: seq<string>)
    ensures |r| == |s| + 1
    ensures multiset(r) == multiset(s) + multiset{k}
  {
    if s == [] then [k]
    else if Less(k, s[0]) then [k] + s
    else
      assert s == [s[0]] + s[1..];
      [s[0]] + Insert(s[1..], k)
  }

  /** The keys in the order `.sort(([a], [b]) => a.localeCompare(b))` leaves them. */
  function Sort(s: seq<string>): (r: seq<string>)
    ensures |r| == |s| && multiset(r) == multiset(s)
  {
    if s == [] then []
    else
      assert s == s[..|s| - 1] + [s[|s| - 1]];
      Insert(Sort(s[..|s| - 1]), s[|s| - 1])
  }

  lemma {:induction false} InsertSorted(s: seq<string>, k: string)
    requires Sorted(s)
    ensures Sorted(Insert(s, k))
  {
    if s != [] && !Less(k, s[0]) {
      InsertSorted(s[1..], k);
      var r := Insert(s[1..], k);
      forall j | 0 <= j < |r| ensures !Less(r[j], s[0]) {
        assert r[j] in multiset(r);
      }
    } else if s != [] {
      forall j | 0 <= j < |s| ensures !Less(s[j], k) {
        if Less(s[j], k) {
          LessTransitive(s[j], k, s[0]);
          LessIrreflexive(s[0]);
        }
      }
    }
  }

  /** Sorting yields a sorted arrangement of the keys. */
  lemma {:induction false} SortSorted(s: seq<string>)
    ensures Sorted(Sort(s))
  {
    if s != [] {
      SortSorted(s[..|s| - 1]);
      InsertSorted(Sort(s[..|s| - 1]), s[|s| - 1]);
    }
  }

  /** Under a total order there is one sorted arrangement of a multiset. */
  lemma {:induction false} SortedUnique(a: seq<string>, b: seq<string>)
    requires Sorted(a) && Sorted(b) && multiset(a) == multiset(b)
    ensures a == b
    decreases |a|
  {
    if a != [] {
      SameFirst(a, b);
      SortedTail(a);
      SortedTail(b);
      SortedUnique(a[1..], b[1..]);
      assert a == [a[0]] + a[1..] && b == [b[0]] + b[1..];
    }
  }

  /** Two sorted arrangements of one multiset start with the same element. */
  lemma SameFirst(a: seq<string>, b: seq<string>)
    requires Sorted(a) && Sorted(b) && multiset(a) == multiset(b) && a != []
    ensures b != [] && a[0] == b[0]
    ensures multiset(a[1..]) == multiset(b[1..])
  {
    assert |b| == |a| by {
      assert |multiset(b)| == |multiset(a)|;
    }
    assert a[0] in multiset(b) && b[0] in multiset(a);
    if a[0] != b[0] {
      var j :| 0 <= j < |b| && b[j] == a[0];
      var i :| 0 <= i < |a| && a[i] == b[0];
      LessTotal(a[0], b[0]);
    }
    assert a == [a[0]] + a[1..] && b == [b[0]] + b[1..];
    assert multiset(a[1..]) == multiset(a) - multiset{a[0]};
    assert multiset(b[1..]) == multiset(b) - multiset{b[0]};
  }

  /** What follows the first element of a sorted sequence is sorted. */
  lemma SortedTail(a: seq<string>)
    requires Sorted(a) && a != []
    ensures Sorted(a[1..])
  {
  }

  /** `${count} ${element}` */
  function Entry(a: AtomCount, element: string): string
  {
    IntToString(Get(a, element)) + " " + element
  }

  /** `parts.join(sep)` */
  function Join(parts: seq<string>, sep: string): string
  {
    if parts == [] then ""
    else if |parts| == 1 then parts[0]
    else parts[0] + sep + Join(parts[1..], sep)
  }

  /** The entries in display order: one per key, sorted by element. */
  function Entries(a: AtomCount): (r: seq<string>)
    ensures |r| == |a.keys|
    ensures forall i | 0 <= i < |r| :: r[i] == Entry(a, Sort(a.keys)[i])
  {
    Map(k => Entry(a, k), Sort(a.keys))
  }

  /**
   * The entries of a sorted arrangement of the keys, joined by ", ": empty
   * exactly when there are no keys, a single entry when there is one.
   */
  function FormatAtomCounts(a: AtomCount): (r: string)
    ensures a.keys == [] <==> r == ""
    ensures |a.keys| == 1 ==> r == Entry(a, a.keys[0])
    ensures var ks := Sort(a.keys);
      Sorted(ks) && multiset(ks) == multiset(a.keys) && r == Join(Map(k => Entry(a, k), ks), ", ")
  {
    SortSorted(a.keys);
    var es := Entries(a);
    assert a.keys != [] ==> |es[0]| > 0;
    Join(es, ", ")
  }

  lemma NoDupMultiset(a: seq<string>, b: seq<string>)
    requires NoDup(a) && NoDup(b)
    requires forall x :: x in a <==> x in b
    ensures multiset(a) == multiset(b)
  {
    NoDupCounts(a);
    NoDupCounts(b);
  }

  lemma {:induction false} NoDupCounts(a: seq<string>)
    requires NoDup(a)
    ensures forall x :: multiset(a)[x] == if x in a then 1 else 0
  {
    if a != [] {
      var init := a[..|a| - 1];
      assert a == init + [a[|a| - 1]];
      assert NoDup(init) by {
        assert forall i | 0 <= i < |init| :: init[i] == a[i];
      }
      NoDupCounts(init);
      assert a[|a| - 1] !in init;
    }
  }

  /**
   * The text shows the counts and nothing of the order in which the elements
   * were first met: two counts with the same entries format the same.
   */
  lemma FormatDependsOnlyOnCounts(a: AtomCount, b: AtomCount)
    requires Valid(a) && Valid(b) && a.count == b.count
    ensures FormatAtomCounts(a) == FormatAtomCounts(b)
  {
    NoDupMultiset(a.keys, b.keys);
    SortSorted(a.keys);
    SortSorted(b.keys);
    SortedUnique(Sort(a.keys), Sort(b.keys));
    assert Entries(a) == Entries(b);
  }

  lemma SortTwo()
    ensures Sort(["O", "H"]) == ["H", "O"] && Sort(["H", "O"]) == ["H", "O"]
  {
    assert Less("H", "O") && !Less("O", "H");
    assert ["O", "H"][..1] == ["O"] && ["H", "O"][..1] == ["H"];
    assert Sort(["O"]) == ["O"] && Sort(["H"]) == ["H"];
  }

  lemma TwoEntries(a: AtomCount)
    requires Sort(a.keys) == ["H", "O"] && a.count == map["H" := 4, "O" := 2]
    ensures FormatAtomCounts(a) == "4 H, 2 O"
  {
    assert IntToString(4) == "4" && IntToString(2) == "2";
    assert Entry(a, "H") == "4 H" && Entry(a, "O") == "2 O";
    var e := Entries(a);
    assert e == ["4 H", "2 O"];
    assert Join(["2 O"], ", ") == "2 O";
    assert Join(e, ", ") == "4 H" + ", " + "2 O";
    assert FormatAtomCounts(a) == Join(e, ", ");
  }

  /** `{H: 4, O: 2}` formats as "4 H, 2 O", in whichever order the elements were first met. */
  lemma FormatExample()
    ensures FormatAtomCounts(AtomCount(["H", "O"], map["H" := 4, "O" := 2])) == "4 H, 2 O"
    ensures FormatAtomCounts(AtomCount(["O", "H"], map["H" := 4, "O" := 2])) == "4 H, 2 O"
  {
    SortTwo();
    TwoEntries(AtomCount(["H", "O"], map["H" := 4, "O" := 2]));
    TwoEntries(AtomCount(["O", "H"], map["H" := 4, "O" := 2]));
  }
}
