/** What one ledger transaction does to the sums the shop's promises are about. */
module LedgerEffects {
  import opened Wrappers
  import opened Totals
  import opened Lines
  import opened Books
  import opened Ledgers

  // ------------------------------------------------------------ facts about groups

  /** Every line asks for at least one unit of a variant the shop keeps. */
  ghost predicate Stocked(lines: seq<Line>, stock: map<int, Counters>) {
    forall i :: 0 <= i < |lines| ==> lines[i].variant in stock && lines[i].qty >= 1
  }

  /** No variant is asked for twice. */
  ghost predicate OncePerVariant(lines: seq<Line>) {
    forall v :: |OfVariant(lines, v)| <= 1
  }

  /** With one line per variant, a variant's total is its line's quantity. */
  lemma {:induction false} UnitsOfOnly(lines: seq<Line>, v: int)
    requires |OfVariant(lines, v)| <= 1
    ensures Units(lines, v) == if OfVariant(lines, v) == [] then 0 else OfVariant(lines, v)[0].qty
  {
    if lines != [] {
      UnitsOfOnly(lines[..|lines| - 1], v);
    }
  }

  lemma LineIsTotal(lines: seq<Line>, k: nat)
    requires OncePerVariant(lines) && k < |lines|
    ensures Units(lines, lines[k].variant) == lines[k].qty
  {
    OfVariantMember(lines, lines[k]);
    UnitsOfOnly(lines, lines[k].variant);
  }

  /** One more line of a list that asks for the variant once: nothing before it, or nothing of it. */
  lemma LinesSnoc(g: seq<Line>, x: Line, v: int)
    requires |OfVariant(g + [x], v)| <= 1
    ensures |OfVariant(g, v)| <= 1 && Units(g + [x], v) == Units(g, v) + (if x.variant == v then x.qty else 0)
    ensures x.variant == v ==> Units(g, v) == 0
  {
    OfVariantSnoc(g, x, v);
    TotalSnoc(g, x, UnitsOf(v));
    UnitsOfOnly(g, v);
  }

  /** A variant its group asks for in one line is committed in full or not at all. */
  lemma {:induction false} CommittedOnce(holds: seq<Hold>, c: CheckoutId, v: int)
    requires |OfVariant(GroupLines(holds, c), v)| <= 1
    ensures Total(holds, CommittedOf(c, v)) == 0 || Total(holds, CommittedOf(c, v)) == Units(GroupLines(holds, c), v)
  {
    if holds != [] {
      var h, rest := holds[|holds| - 1], holds[..|holds| - 1];
      var g, x := GroupLines(rest, c), Line(h.variant, h.qty);
      if h.checkout == c {
        assert GroupLines(holds, c) == g + [x];
        LinesSnoc(g, x, v);
        CommittedOnce(rest, c, v);
      } else {
        assert GroupLines(holds, c) == g + [] == g;
        CommittedOnce(rest, c, v);
      }
    }
  }

  /** A row of the group that was released or expired. */
  ghost predicate LostRow(b: Book, c: CheckoutId) {
    exists i :: 0 <= i < |b.holds| && b.holds[i].checkout == c
                && (b.holds[i].status == Released || b.holds[i].status == Expired)
  }

  /** The only row of a one-line group. */
  lemma {:induction false} OnlyRow(holds: seq<Hold>, c: CheckoutId, x: Line) returns (k: nat)
    requires GroupLines(holds, c) == [x]
    ensures k < |holds| && holds[k].checkout == c && holds[k].variant == x.variant && holds[k].qty == x.qty
    ensures forall i :: 0 <= i < |holds| && holds[i].checkout == c ==> i == k
  {
    var n := |holds| - 1;
    if holds[n].checkout == c {
      k := n;
      var rest := GroupLines(holds[..n], c);
      assert rest + [Line(holds[n].variant, holds[n].qty)] == [x];
      assert rest == [];
      EmptyGroup(holds[..n], c);
      assert forall i :: 0 <= i < n ==> holds[..n][i] == holds[i];
      assert (rest + [Line(holds[n].variant, holds[n].qty)])[0] == x;
    } else {
      assert GroupLines(holds[..n], c) + [] == GroupLines(holds[..n], c);
      k := OnlyRow(holds[..n], c, x);
      assert forall i :: 0 <= i < n ==> holds[..n][i] == holds[i];
    }
  }

  /** Only row `k` of the group: its committed total is that row's. */
  lemma {:induction false} OnlyRowTotal(holds: seq<Hold>, c: CheckoutId, k: nat, v: int)
    requires k < |holds| && holds[k].checkout == c
    requires forall i :: 0 <= i < |holds| && holds[i].checkout == c ==> i == k
    ensures Total(holds, CommittedOf(c, v)) == CommittedOf(c, v)(holds[k])
  {
    var n := |holds| - 1;
    if k == n {
      NoRowsTotal(holds[..n], c, v);
    } else {
      OnlyRowTotal(holds[..n], c, k, v);
    }
  }

  lemma NoRowsTotal(holds: seq<Hold>, c: CheckoutId, v: int)
    requires forall i :: 0 <= i < |holds| ==> holds[i].checkout != c
    ensures Total(holds, CommittedOf(c, v)) == 0
  {
    TotalNonNegative(holds, CommittedOf(c, v));
  }

  /** A settled one-line group sold its line exactly when its row was not lost. */
  lemma SettledSingle(b: Book, c: CheckoutId, x: Line)
    requires GroupLines(b.holds, c) == [x] && Settled(b, c)
    ensures CommittedIn(b, c, x.variant) == if LostRow(b, c) then 0 else x.qty
  {
    var k := OnlyRow(b.holds, c, x);
    OnlyRowTotal(b.holds, c, k, x.variant);
  }

  // ------------------------------------------------------------ four kinds of ledger effect

  /** Nothing committed, claimed, sold or returned for an order: a release, an expiry or an adjustment. */
  ghost predicate Quiet(l: Ledger, l': Ledger) {
    && Later(l, l') && l'.keys == l.keys
    && (forall i :: 0 <= i < |l'.book.holds| && l'.book.holds[i].status == Committed ==>
          i < |l.book.holds| && l.book.holds[i] == l'.book.holds[i])
    && (forall c, v :: CommittedIn(l'.book, c, v) == CommittedIn(l.book, c, v))
    && (forall o, v :: ReturnedUnits(l'.book, o, v) == ReturnedUnits(l.book, o, v))
    && (forall o, v :: SoldUnits(l'.book, o, v) == SoldUnits(l.book, o, v))
  }

  /** Only group `c` gained committed rows, all of them for order `o`. */
  ghost predicate Sells(l: Ledger, l': Ledger, c: CheckoutId, o: OrderId) {
    && Later(l, l') && l'.keys == l.keys
    && (forall i :: 0 <= i < |l'.book.holds| && l'.book.holds[i].status == Committed ==>
          && i < |l.book.holds|
          && (l.book.holds[i] == l'.book.holds[i]
              || (l'.book.holds[i].checkout == c && l'.book.holds[i].order == Some(o)
                  && l.book.holds[i].status == Active)))
    && (forall d, v :: d != c ==> CommittedIn(l'.book, d, v) == CommittedIn(l.book, d, v))
    && (forall p, v :: ReturnedUnits(l'.book, p, v) == ReturnedUnits(l.book, p, v))
    && (forall p, v :: p != o ==> SoldUnits(l'.book, p, v) == SoldUnits(l.book, p, v))
    && (Settled(l.book, c) ==> l' == l)
    && Settled(l'.book, c)
  }

  /** Only the unclaimed id `c` was claimed, with these lines; nothing was sold or returned. */
  ghost predicate Claims(l: Ledger, l': Ledger, c: CheckoutId, lines: seq<Line>) {
    && Later(l, l') && ReserveKey(c) !in l.keys && l'.keys == l.keys[ReserveKey(c) := SortLines(lines)]
    && (forall i :: 0 <= i < |l'.book.holds| && l'.book.holds[i].status == Committed ==>
          i < |l.book.holds| && l.book.holds[i] == l'.book.holds[i])
    && (forall d, v :: CommittedIn(l'.book, d, v) == CommittedIn(l.book, d, v))
    && (forall o, v :: ReturnedUnits(l'.book, o, v) == ReturnedUnits(l.book, o, v))
    && (forall o, v :: SoldUnits(l'.book, o, v) == SoldUnits(l.book, o, v))
  }

  lemma EndRowQuiet(b: Book, pk: nat, terminal: HoldStatus, c: CheckoutId, v: int)
    requires pk < |b.holds| && b.holds[pk].status == Active && EndHold(b, pk, terminal).Ok?
    requires terminal != Committed
    ensures CommittedIn(EndHold(b, pk, terminal).value, c, v) == CommittedIn(b, c, v)
  {
    TotalUpdate(b.holds, pk, EndHold(b, pk, terminal).value.holds[pk], CommittedOf(c, v));
  }

  lemma AdjustQuiet(b: Book, v: int, delta: int, reason: Reason, o: OrderId, w: int)
    requires AdjustStock(b, v, delta, reason, None).Ok?
    ensures var b' := AdjustStock(b, v, delta, reason, None).value;
            SoldUnits(b', o, w) == SoldUnits(b, o, w) && ReturnedUnits(b', o, w) == ReturnedUnits(b, o, w)
  {
    TotalSnoc(b.moves, Movement(v, delta, reason, None), SoldFor(Some(o), w));
    TotalSnoc(b.moves, Movement(v, delta, reason, None), ReturnedFor(Some(o), w));
  }

  /** Releases, expiries and unreferenced adjustments are quiet. */
  lemma StockIsQuiet(l: Ledger, opening: map<int, int>, s: Step)
    requires LedgerOk(l, opening) && (s.Release? || s.Expire? || (s.Adjust? && s.ref == None))
    ensures Quiet(l, Next(l, s))
  {
    StepKeeps(l, opening, s);
    StockQuietCore(l, s);
  }

  lemma StockQuietCore(l: Ledger, s: Step)
    requires (s.Release? || s.Expire? || (s.Adjust? && s.ref == None)) && Later(l, Next(l, s))
    ensures Quiet(l, Next(l, s))
  {
    var l' := Next(l, s);
    if l' != l {
      match s
      case Release(pk) =>
        forall c, v ensures CommittedIn(l'.book, c, v) == CommittedIn(l.book, c, v) {
          EndRowQuiet(l.book, pk, Released, c, v);
        }
      case Expire(pk, now) =>
        forall c, v ensures CommittedIn(l'.book, c, v) == CommittedIn(l.book, c, v) {
          EndRowQuiet(l.book, pk, Expired, c, v);
        }
      case Adjust(v, d, r, _) =>
        forall o, w
          ensures SoldUnits(l'.book, o, w) == SoldUnits(l.book, o, w)
          ensures ReturnedUnits(l'.book, o, w) == ReturnedUnits(l.book, o, w)
        {
          AdjustQuiet(l.book, v, d, r, o, w);
        }
    }
  }

  lemma CommitOthers(l: Ledger, c: CheckoutId, o: OrderId, d: CheckoutId, p: OrderId, v: int)
    requires CommitHolds(l, c, Some(o)).Ok?
    ensures var b' := CommitHolds(l, c, Some(o)).value.0.book;
            && (d != c ==> CommittedIn(b', d, v) == CommittedIn(l.book, d, v))
            && (p != o ==> Total(b'.holds, CommittedFor(Some(p), v)) == Total(l.book.holds, CommittedFor(Some(p), v)))
  {
    CommitShape(l, c, Some(o));
    var b' := CommitHolds(l, c, Some(o)).value.0.book;
    if d != c {
      SameSum(b'.holds, l.book.holds, CommittedOf(d, v));
    }
    if p != o {
      SameSum(b'.holds, l.book.holds, CommittedFor(Some(p), v));
    }
  }

  lemma {:induction false} SameSum(s: seq<Hold>, t: seq<Hold>, f: Hold -> int)
    requires |s| == |t| && forall i :: 0 <= i < |s| ==> f(s[i]) == f(t[i])
    ensures Total(s, f) == Total(t, f)
  {
    if s != [] {
      SameSum(s[..|s| - 1], t[..|t| - 1], f);
    }
  }

  lemma CommitSells(l: Ledger, opening: map<int, int>, c: CheckoutId, o: OrderId)
    requires LedgerOk(l, opening) && CommitHolds(l, c, Some(o)).Ok?
    ensures Sells(l, CommitHolds(l, c, Some(o)).value.0, c, o)
  {
    CommitKeeps(l, opening, c, Some(o));
    CommitSellsCore(l, CommitHolds(l, c, Some(o)).value.0, c, o);
  }

  lemma CommitSellsCore(l: Ledger, l': Ledger, c: CheckoutId, o: OrderId)
    requires CommitHolds(l, c, Some(o)).Ok? && l' == CommitHolds(l, c, Some(o)).value.0
    requires SalesAgree(l.book) && SalesAgree(l'.book) && Later(l, l')
    ensures Sells(l, l', c, o)
  {
    CommitShape(l, c, Some(o));
    forall d, v | d != c ensures CommittedIn(l'.book, d, v) == CommittedIn(l.book, d, v) {
      CommitOthers(l, c, o, d, o, v);
    }
    forall p, v | p != o ensures SoldUnits(l'.book, p, v) == SoldUnits(l.book, p, v) {
      CommitOthers(l, c, o, c, p, v);
      assert Total(l.book.holds, CommittedFor(Some(p), v)) == Total(l.book.moves, SoldFor(Some(p), v));
      assert Total(l'.book.holds, CommittedFor(Some(p), v)) == Total(l'.book.moves, SoldFor(Some(p), v));
    }
    forall p, v ensures ReturnedUnits(l'.book, p, v) == ReturnedUnits(l.book, p, v) {
      CommitReturns(l.book, c, Some(o), |l.book.holds|, p, v);
    }
    if Settled(l.book, c) {
      SettledCommitIsIdle(l.book, c, Some(o), |l.book.holds|);
    }
  }

  lemma ReserveClaims(l: Ledger, opening: map<int, int>, c: CheckoutId, lines: seq<Line>, e: int)
    requires LedgerOk(l, opening) && ReserveKey(c) !in l.keys && ReserveLines(l, c, lines, e).Ok?
    ensures Claims(l, ReserveLines(l, c, lines, e).value, c, lines)
  {
    ReserveFacts(l, opening, c, lines, e);
    ReserveClaimsCore(l, ReserveLines(l, c, lines, e).value, c, lines, e);
  }

  /** Fresh rows commit nothing. */
  lemma FreshCommitsNothing(holds: seq<Hold>, c: CheckoutId, lines: seq<Line>, e: int, d: CheckoutId, v: int)
    ensures Total(holds + Fresh(c, lines, e), CommittedOf(d, v)) == Total(holds, CommittedOf(d, v))
  {
    var f := Fresh(c, lines, e);
    FreshFacts(c, lines, e, c);
    TotalAppend(holds, f, CommittedOf(d, v));
    TotalNonNegative(f, CommittedOf(d, v));
  }

  lemma ReserveClaimsCore(l: Ledger, l': Ledger, c: CheckoutId, lines: seq<Line>, e: int)
    requires ReserveKey(c) !in l.keys && l'.keys == l.keys[ReserveKey(c) := SortLines(lines)] && Later(l, l')
    requires l'.book.holds == l.book.holds + Fresh(c, SortLines(lines), e) && l'.book.moves == l.book.moves
    ensures Claims(l, l', c, lines)
  {
    FreshFacts(c, SortLines(lines), e, c);
    forall d, v ensures CommittedIn(l'.book, d, v) == CommittedIn(l.book, d, v) {
      FreshCommitsNothing(l.book.holds, c, SortLines(lines), e, d, v);
    }
  }

  /** Reserving and committing lose no row. */
  lemma StepLosesNothing(l: Ledger, opening: map<int, int>, s: Step, c: CheckoutId)
    requires LedgerOk(l, opening) && (s.Reserve? || s.Commit?)
    ensures LostRow(Next(l, s).book, c) <==> LostRow(l.book, c)
  {
    StepKeeps(l, opening, s);
    SameLosses(l, opening, s);
    LossesStand(l.book, Next(l, s).book, c);
  }

  /** Rows once lost stay as they are, and none was lost since. */
  lemma LossesStand(b: Book, b': Book, c: CheckoutId)
    requires Extends(b, b')
    requires forall i :: 0 <= i < |b'.holds| && (b'.holds[i].status == Released || b'.holds[i].status == Expired) ==>
               i < |b.holds| && b.holds[i] == b'.holds[i]
    ensures LostRow(b', c) <==> LostRow(b, c)
  {
    if LostRow(b, c) {
      var i :| 0 <= i < |b.holds| && b.holds[i].checkout == c && (b.holds[i].status == Released || b.holds[i].status == Expired);
      assert b'.holds[i] == b.holds[i];
    }
    if LostRow(b', c) {
      var i :| 0 <= i < |b'.holds| && b'.holds[i].checkout == c && (b'.holds[i].status == Released || b'.holds[i].status == Expired);
      assert b.holds[i] == b'.holds[i];
    }
  }

  lemma SameLosses(l: Ledger, opening: map<int, int>, s: Step)
    requires LedgerOk(l, opening) && (s.Reserve? || s.Commit?)
    ensures var b' := Next(l, s).book;
            forall i :: 0 <= i < |b'.holds| && (b'.holds[i].status == Released || b'.holds[i].status == Expired) ==>
              i < |l.book.holds| && l.book.holds[i] == b'.holds[i]
  {
    if Attempt(l, s).Ok? && Next(l, s) != l {
      match s
      case Reserve(c, lines, e) =>
        ReserveFacts(l, opening, c, lines, e);
        FreshFacts(c, SortLines(lines), e, c);
      case Commit(c, o) => CommitShape(l, c, o);
    }
  }

  lemma {:induction false} CommitUpToAvailable(b: Book, c: CheckoutId, order: Option<OrderId>, n: nat, v: int)
    requires n <= |b.holds| && CommitUpTo(b, c, order, n).Ok?
    ensures var b' := CommitUpTo(b, c, order, n).value.0;
            (v in b'.stock <==> v in b.stock) && (v in b.stock ==> b'.stock[v].Available() == b.stock[v].Available())
  {
    if n > 0 {
      CommitUpToAvailable(b, c, order, n - 1, v);
    }
  }

  /** Selling what is held takes nothing off what is available. */
  lemma CommitAvailable(l: Ledger, c: CheckoutId, order: Option<OrderId>, v: int)
    ensures var b' := Next(l, Commit(c, order)).book;
            (v in b'.stock <==> v in l.book.stock) && (v in l.book.stock ==> b'.stock[v].Available() == l.book.stock[v].Available())
  {
    if CommitHolds(l, c, order).Ok? {
      CommitUpToAvailable(l.book, c, order, |l.book.holds|, v);
    }
  }

  // ------------------------------------------------------------ a first refund, exactly

  /** Every line names a variant the shop keeps, and no negative quantity. */
  ghost predicate Returnable(stock: map<int, Counters>, lines: seq<Line>) {
    forall i :: 0 <= i < |lines| ==> lines[i].variant in stock && lines[i].qty >= 0
  }

  /**
   * For `o` each variant came back by what these lines ask, up to what was sold and had not come
   * back; its shelf count rose by as much, and nothing else changed.
   */
  ghost predicate CameBack(b: Book, after: Book, o: OrderId, lines: seq<Line>) {
    && after.holds == b.holds && after.stock.Keys == b.stock.Keys
    && (forall v :: VariantBack(b, after, o, v, Units(lines, v)))
    && (forall p, v :: SoldUnits(after, p, v) == SoldUnits(b, p, v))
    && (forall p, v :: p != o ==> ReturnedUnits(after, p, v) == ReturnedUnits(b, p, v))
  }

  ghost predicate VariantBack(b: Book, after: Book, o: OrderId, v: int, asked: int) {
    var back, out := ReturnedUnits(after, o, v) - ReturnedUnits(b, o, v), SoldUnits(b, o, v) - ReturnedUnits(b, o, v);
    && back == (if out <= 0 then 0 else if asked <= out then asked else out)
    && (v in b.stock && v in after.stock ==> after.stock[v] == Counters(b.stock[v].onHand + back, b.stock[v].reserved))
  }

  lemma RestoreLineExact(b: Book, opening: map<int, int>, o: OrderId, x: Line)
    requires BookOk(b, opening)
    ensures RestoreLine(b, o, x).Ok? <==> x.variant in b.stock && x.qty >= 0
    ensures RestoreLine(b, o, x).Ok? ==>
              var after := RestoreLine(b, o, x).value;
              && BookOk(after, opening) && after.holds == b.holds && after.stock.Keys == b.stock.Keys
              && VariantBack(b, after, o, x.variant, x.qty)
              && forall v :: v in b.stock && v != x.variant ==> after.stock[v] == b.stock[v]
  {
    if RestoreLine(b, o, x).Ok? {
      RestoreLineUnits(b, o, x, o, x.variant);
      if Outstanding(b, o, x) != 0 {
        AdjustStockKeeps(b, opening, x.variant, Outstanding(b, o, x), Return, Some(o));
      }
    }
  }

  /** Of its own variant, one more line brings back what is still out. */
  lemma VariantMore(b: Book, mid: Book, after: Book, o: OrderId, v: int, asked: int, more: int)
    requires VariantBack(b, mid, o, v, asked) && VariantBack(mid, after, o, v, more) && asked >= 0 && more >= 0
    requires SoldUnits(mid, o, v) == SoldUnits(b, o, v) && mid.stock.Keys == b.stock.Keys
    ensures VariantBack(b, after, o, v, asked + more)
  {}

  /** Of any other variant, nothing. */
  lemma VariantSame(b: Book, mid: Book, after: Book, o: OrderId, v: int, asked: int)
    requires VariantBack(b, mid, o, v, asked) && ReturnedUnits(after, o, v) == ReturnedUnits(mid, o, v)
    requires v in mid.stock && v in after.stock ==> after.stock[v] == mid.stock[v]
    requires mid.stock.Keys == b.stock.Keys == after.stock.Keys
    ensures VariantBack(b, after, o, v, asked)
  {}

  /** One more line comes back. */
  lemma CameBackMore(b: Book, mid: Book, opening: map<int, int>, o: OrderId, init: seq<Line>, x: Line)
    requires CameBack(b, mid, o, init) && BookOk(mid, opening) && RestoreLine(mid, o, x).Ok?
    requires Returnable(b.stock, init)
    ensures CameBack(b, RestoreLine(mid, o, x).value, o, init + [x])
  {
    var after := RestoreLine(mid, o, x).value;
    RestoreLineExact(mid, opening, o, x);
    forall p, v
      ensures SoldUnits(after, p, v) == SoldUnits(mid, p, v)
      ensures p != o || v != x.variant ==> ReturnedUnits(after, p, v) == ReturnedUnits(mid, p, v)
    {
      RestoreLineUnits(mid, o, x, p, v);
    }
    forall v ensures VariantBack(b, after, o, v, Units(init + [x], v)) {
      TotalSnoc(init, x, UnitsOf(v));
      if v == x.variant {
        TotalNonNegative(init, UnitsOf(v));
        VariantMore(b, mid, after, o, v, Units(init, v), x.qty);
      } else {
        VariantSame(b, mid, after, o, v, Units(init, v));
      }
    }
  }

  lemma ReturnableSnoc(stock: map<int, Counters>, init: seq<Line>, x: Line)
    ensures Returnable(stock, init + [x]) <==> Returnable(stock, init) && x.variant in stock && x.qty >= 0
  {
    assert (init + [x])[|init|] == x;
    assert forall i :: 0 <= i < |init| ==> (init + [x])[i] == init[i];
  }

  lemma CameBackNone(b: Book, o: OrderId)
    ensures CameBack(b, b, o, [])
  {}

  lemma {:induction false} RestoreAllExact(b: Book, opening: map<int, int>, o: OrderId, lines: seq<Line>)
    requires BookOk(b, opening)
    ensures RestoreAll(b, o, lines).Ok? <==> Returnable(b.stock, lines)
    ensures RestoreAll(b, o, lines).Ok? ==>
              CameBack(b, RestoreAll(b, o, lines).value, o, lines) && BookOk(RestoreAll(b, o, lines).value, opening)
  {
    if lines == [] {
      CameBackNone(b, o);
    } else {
      var init, x := lines[..|lines| - 1], lines[|lines| - 1];
      assert lines == init + [x];
      RestoreAllExact(b, opening, o, init);
      ReturnableSnoc(b.stock, init, x);
      if RestoreAll(b, o, init).Ok? {
        var mid := RestoreAll(b, o, init).value;
        RestoreLineExact(mid, opening, o, x);
        if RestoreLine(mid, o, x).Ok? {
          CameBackMore(b, mid, opening, o, init, x);
        }
      }
    }
  }

  lemma SortedReturnable(stock: map<int, Counters>, lines: seq<Line>)
    ensures Returnable(stock, SortLines(lines)) <==> Returnable(stock, lines)
  {
    var s := SortLines(lines);
    SortMultiset(lines);
    forall i | 0 <= i < |lines| ensures lines[i] in s {
      assert lines[i] in multiset(lines);
    }
    forall i | 0 <= i < |s| ensures s[i] in lines {
      assert s[i] in multiset(s);
    }
  }

  /**
   * A first refund of an order is all or nothing: it succeeds exactly when the shop keeps every
   * variant it names, and then returns of each what it asks, up to what is still out.
   */
  lemma RestoreExact(l: Ledger, opening: map<int, int>, o: OrderId, lines: seq<Line>)
    requires LedgerOk(l, opening) && RefundKey(o) !in l.keys
    ensures Attempt(l, Restore(o, lines)).Ok? <==> Returnable(l.book.stock, lines)
    ensures if Attempt(l, Restore(o, lines)).Ok? then CameBack(l.book, Next(l, Restore(o, lines)).book, o, lines)
            else Next(l, Restore(o, lines)) == l
  {
    RestoreAllExact(l.book, opening, o, SortLines(lines));
    SortedReturnable(l.book.stock, lines);
    forall v ensures Units(SortLines(lines), v) == Units(lines, v) {
      SortKeeps(lines, v);
    }
    if Attempt(l, Restore(o, lines)).Ok? {
      SameBack(l.book, Next(l, Restore(o, lines)).book, o, SortLines(lines), lines);
    }
  }

  lemma SameBack(b: Book, after: Book, o: OrderId, sorted: seq<Line>, lines: seq<Line>)
    requires CameBack(b, after, o, sorted) && forall v :: Units(sorted, v) == Units(lines, v)
    ensures CameBack(b, after, o, lines)
  {
    forall v ensures VariantBack(b, after, o, v, Units(lines, v)) {
      assert VariantBack(b, after, o, v, Units(sorted, v));
    }
  }
}
