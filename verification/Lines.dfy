/**
 * Requested lines and their fingerprint (apps/inventory/providers/local.py,
 * `_fingerprint`). A hash is taken to be injective, so the fingerprint is the
 * canonical form itself: the lines in ascending variant order, ties kept in the
 * order given, as a stable sort leaves them.
 */
module Lines {
  import opened Totals

  datatype Line = Line(variant: int, qty: int)

  /** Inserts a line after every line of no larger variant. */
  function Insert(sorted: seq<Line>, x: Line): seq<Line> {
    if sorted == [] || sorted[|sorted| - 1].variant <= x.variant then sorted + [x]
    else Insert(sorted[..|sorted| - 1], x) + [sorted[|sorted| - 1]]
  }

  /** The lines in ascending variant order, as a stable sort leaves them. */
  function SortLines(lines: seq<Line>): seq<Line> {
    if lines == [] then [] else Insert(SortLines(lines[..|lines| - 1]), lines[|lines| - 1])
  }

  predicate Ascending(lines: seq<Line>) {
    |lines| <= 1
    || (lines[|lines| - 2].variant <= lines[|lines| - 1].variant && Ascending(lines[..|lines| - 1]))
  }

  predicate DistinctVariants(lines: seq<Line>) {
    forall i, j :: 0 <= i < j < |lines| ==> lines[i].variant != lines[j].variant
  }

  /** What is asked of one variant, in order. */
  function OfVariant(lines: seq<Line>, v: int): seq<Line> {
    if lines == [] then []
    else
      OfVariant(lines[..|lines| - 1], v)
      + if lines[|lines| - 1].variant == v then [lines[|lines| - 1]] else []
  }

  /** How many units a line asks of variant `v`; a measure for `Total`. */
  function UnitsOf(v: int): Line -> int {
    (x: Line) => if x.variant == v then x.qty else 0
  }

  function Units(lines: seq<Line>, v: int): int {
    Total(lines, UnitsOf(v))
  }

  lemma OfVariantSnoc(lines: seq<Line>, x: Line, v: int)
    ensures OfVariant(lines + [x], v) == OfVariant(lines, v) + if x.variant == v then [x] else []
  {
    assert (lines + [x])[..|lines|] == lines;
  }

  lemma AscendingSnoc(s: seq<Line>, x: Line)
    ensures Ascending(s + [x]) <==> Ascending(s) && (s == [] || s[|s| - 1].variant <= x.variant)
  {
    assert (s + [x])[..|s|] == s;
  }

  /** Inserting keeps the order, and ends the list in the new line or in its old end. */
  lemma {:induction false} InsertAscending(sorted: seq<Line>, x: Line)
    requires Ascending(sorted)
    ensures |Insert(sorted, x)| == |sorted| + 1 && Ascending(Insert(sorted, x))
    ensures var last := Insert(sorted, x)[|sorted|]; last == x || (sorted != [] && last == sorted[|sorted| - 1])
  {
    var n := |sorted| - 1;
    if sorted == [] || sorted[n].variant <= x.variant {
      AscendingSnoc(sorted, x);
    } else {
      var init, last := sorted[..n], sorted[n];
      assert sorted == init + [last];
      AscendingSnoc(init, last);
      InsertAscending(init, x);
      AscendingSnoc(Insert(init, x), last);
    }
  }

  lemma {:induction false} InsertKeeps(sorted: seq<Line>, x: Line, v: int)
    ensures OfVariant(Insert(sorted, x), v) == OfVariant(sorted + [x], v)
    ensures Units(Insert(sorted, x), v) == Units(sorted + [x], v)
  {
    var n := |sorted| - 1;
    if !(sorted == [] || sorted[n].variant <= x.variant) {
      var init, last := sorted[..n], sorted[n];
      assert sorted == init + [last];
      InsertKeeps(init, x, v);
      OfVariantSnoc(Insert(init, x), last, v);
      OfVariantSnoc(init, x, v);
      OfVariantSnoc(init, last, v);
      OfVariantSnoc(sorted, x, v);
      TotalSnoc(Insert(init, x), last, UnitsOf(v));
      TotalSnoc(init, x, UnitsOf(v));
      TotalSnoc(init, last, UnitsOf(v));
      TotalSnoc(sorted, x, UnitsOf(v));
    }
  }

  lemma {:induction false} InsertMultiset(sorted: seq<Line>, x: Line)
    ensures multiset(Insert(sorted, x)) == multiset(sorted) + multiset{x}
  {
    var n := |sorted| - 1;
    if !(sorted == [] || sorted[n].variant <= x.variant) {
      InsertMultiset(sorted[..n], x);
      assert sorted == sorted[..n] + [sorted[n]];
    }
  }

  lemma {:induction false} SortAscending(lines: seq<Line>)
    ensures |SortLines(lines)| == |lines| && Ascending(SortLines(lines))
  {
    if lines != [] {
      SortAscending(lines[..|lines| - 1]);
      InsertAscending(SortLines(lines[..|lines| - 1]), lines[|lines| - 1]);
    }
  }

  /** Sorting keeps each variant's own lines in order, and its total. */
  lemma {:induction false} SortKeeps(lines: seq<Line>, v: int)
    ensures OfVariant(SortLines(lines), v) == OfVariant(lines, v)
    ensures Units(SortLines(lines), v) == Units(lines, v)
  {
    if lines != [] {
      var init, last := lines[..|lines| - 1], lines[|lines| - 1];
      assert lines == init + [last];
      SortKeeps(init, v);
      InsertKeeps(SortLines(init), last, v);
      OfVariantSnoc(SortLines(init), last, v);
      OfVariantSnoc(init, last, v);
      TotalSnoc(SortLines(init), last, UnitsOf(v));
      TotalSnoc(init, last, UnitsOf(v));
    }
  }

  lemma {:induction false} SortMultiset(lines: seq<Line>)
    ensures multiset(SortLines(lines)) == multiset(lines)
  {
    if lines != [] {
      SortMultiset(lines[..|lines| - 1]);
      InsertMultiset(SortLines(lines[..|lines| - 1]), lines[|lines| - 1]);
      assert lines == lines[..|lines| - 1] + [lines[|lines| - 1]];
    }
  }

  /** A variant asked for anything in an ascending list is at most the last one. */
  lemma {:induction false} AtMostLast(lines: seq<Line>, v: int)
    requires Ascending(lines) && OfVariant(lines, v) != []
    ensures lines != [] && v <= lines[|lines| - 1].variant
  {
    var n := |lines| - 1;
    if lines[n].variant != v {
      AtMostLast(lines[..n], v);
    }
  }

  /** Both ask every variant for the same lines in the same order. */
  ghost predicate SameAsks(a: seq<Line>, b: seq<Line>) {
    forall v :: OfVariant(a, v) == OfVariant(b, v)
  }

  /** A list ends in the last line asked of its last variant. */
  lemma EndsInItsVariant(lines: seq<Line>)
    requires lines != []
    ensures var last, own := lines[|lines| - 1], OfVariant(lines, lines[|lines| - 1].variant);
            own != [] && own[|own| - 1] == last
  {}

  /** A variant an ascending list ends in is the largest both ask for. */
  lemma LastVariantAtMost(a: seq<Line>, b: seq<Line>)
    requires Ascending(b) && SameAsks(a, b) && a != []
    ensures b != [] && a[|a| - 1].variant <= b[|b| - 1].variant
  {
    var v := a[|a| - 1].variant;
    EndsInItsVariant(a);
    assert OfVariant(a, v) == OfVariant(b, v);
    AtMostLast(b, v);
  }

  /** Ascending lists that ask for the same end in the same line. */
  lemma SameLast(a: seq<Line>, b: seq<Line>)
    requires Ascending(a) && Ascending(b) && SameAsks(a, b) && a != []
    ensures b != [] && a[|a| - 1] == b[|b| - 1]
  {
    LastVariantAtMost(a, b);
    LastVariantAtMost(b, a);
    EndsInItsVariant(a);
    EndsInItsVariant(b);
    assert OfVariant(a, a[|a| - 1].variant) == OfVariant(b, a[|a| - 1].variant);
  }

  /** An ascending list is determined by what it asks of each variant. */
  lemma {:induction false} AscendingDetermined(a: seq<Line>, b: seq<Line>)
    requires Ascending(a) && Ascending(b) && SameAsks(a, b)
    ensures a == b
  {
    if a == [] {
      if b != [] {
        SameLast(b, a);
      }
    } else {
      SameLast(a, b);
      var i, j, x := a[..|a| - 1], b[..|b| - 1], a[|a| - 1];
      assert a == i + [x] && b == j + [x];
      forall v ensures OfVariant(i, v) == OfVariant(j, v) {
        assert OfVariant(a, v) == OfVariant(b, v);
        DropLast(i, j, x, v);
      }
      AscendingDetermined(i, j);
    }
  }

  lemma DropLast(i: seq<Line>, j: seq<Line>, x: Line, v: int)
    requires OfVariant(i + [x], v) == OfVariant(j + [x], v)
    ensures OfVariant(i, v) == OfVariant(j, v)
  {
    OfVariantSnoc(i, x, v);
    OfVariantSnoc(j, x, v);
    var tail := if x.variant == v then [x] else [];
    assert OfVariant(i, v) == (OfVariant(i, v) + tail)[..|OfVariant(i, v)|];
    assert OfVariant(j, v) == (OfVariant(j, v) + tail)[..|OfVariant(j, v)|];
  }

  /**
   * Two payloads have the same fingerprint exactly when they ask each variant for
   * the same quantities in the same order.
   */
  lemma FingerprintExact(a: seq<Line>, b: seq<Line>)
    ensures SortLines(a) == SortLines(b) <==> SameAsks(a, b)
  {
    SortAscending(a);
    SortAscending(b);
    if SortLines(a) == SortLines(b) {
      forall v ensures OfVariant(a, v) == OfVariant(b, v) {
        SortKeeps(a, v);
        SortKeeps(b, v);
      }
    }
    if SameAsks(a, b) {
      forall v ensures OfVariant(SortLines(a), v) == OfVariant(SortLines(b), v) {
        SortKeeps(a, v);
        SortKeeps(b, v);
        assert OfVariant(a, v) == OfVariant(b, v);
      }
      AscendingDetermined(SortLines(a), SortLines(b));
    }
  }

  lemma {:induction false} OfVariantMember(lines: seq<Line>, x: Line)
    ensures x in lines <==> x in OfVariant(lines, x.variant)
    ensures forall y :: y in OfVariant(lines, x.variant) ==> y.variant == x.variant
  {
    if lines != [] {
      OfVariantMember(lines[..|lines| - 1], x);
      assert lines == lines[..|lines| - 1] + [lines[|lines| - 1]];
    }
  }

  /** Distinct variants: each is asked for at most once. */
  lemma {:induction false} AtMostOnce(lines: seq<Line>, v: int)
    requires DistinctVariants(lines)
    ensures |OfVariant(lines, v)| <= 1
  {
    if lines != [] {
      var init, last := lines[..|lines| - 1], lines[|lines| - 1];
      AtMostOnce(init, v);
      if OfVariant(init, v) != [] && last.variant == v {
        var y := OfVariant(init, v)[0];
        OfVariantMember(init, Line(v, 0));
        OfVariantMember(init, y);
      }
    }
  }

  /**
   * Reordering a payload keeps its fingerprint when its variants are distinct: then
   * two such payloads have one fingerprint exactly when they hold the same lines.
   */
  lemma {:induction false} FingerprintIgnoresOrder(a: seq<Line>, b: seq<Line>)
    requires DistinctVariants(a) && DistinctVariants(b)
    ensures SortLines(a) == SortLines(b) <==> multiset(a) == multiset(b)
  {
    SortMultiset(a);
    SortMultiset(b);
    if multiset(a) == multiset(b) {
      forall v ensures OfVariant(a, v) == OfVariant(b, v) {
        AtMostOnce(a, v);
        AtMostOnce(b, v);
        SameSingletons(a, b, v);
      }
      FingerprintExact(a, b);
    }
  }

  lemma SameSingletons(a: seq<Line>, b: seq<Line>, v: int)
    requires multiset(a) == multiset(b)
    requires |OfVariant(a, v)| <= 1 && |OfVariant(b, v)| <= 1
    ensures OfVariant(a, v) == OfVariant(b, v)
  {
    if OfVariant(a, v) != [] {
      var x := OfVariant(a, v)[0];
      OfVariantMember(a, Line(v, 0));
      OfVariantMember(a, x);
      assert x in multiset(a);
      OfVariantMember(b, x);
    }
    if OfVariant(b, v) != [] {
      var x := OfVariant(b, v)[0];
      OfVariantMember(b, Line(v, 0));
      OfVariantMember(b, x);
      assert x in multiset(b);
      OfVariantMember(a, x);
    }
  }

  /** With a variant named twice, reordering the payload changes the fingerprint. */
  lemma FingerprintSeesOrderOfDuplicates(v: int, p: int, q: int)
    requires p != q
    ensures multiset([Line(v, p), Line(v, q)]) == multiset([Line(v, q), Line(v, p)])
    ensures SortLines([Line(v, p), Line(v, q)]) != SortLines([Line(v, q), Line(v, p)])
  {
    var a, b := [Line(v, p), Line(v, q)], [Line(v, q), Line(v, p)];
    FingerprintExact(a, b);
    assert a == [Line(v, p)] + [Line(v, q)] && b == [Line(v, q)] + [Line(v, p)];
    OfVariantSnoc([Line(v, p)], Line(v, q), v);
    OfVariantSnoc([Line(v, q)], Line(v, p), v);
    assert OfVariant([Line(v, p)], v)[0] == Line(v, p) && OfVariant([Line(v, q)], v)[0] == Line(v, q);
    assert OfVariant(a, v)[0] == Line(v, p) && OfVariant(b, v)[0] == Line(v, q);
  }
}
