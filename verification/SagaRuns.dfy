/** Every move keeps `WorldOk`, so every run does: replies lost or heard, workers crashed or not. */
module SagaRuns {
  import opened Wrappers
  import opened Totals
  import opened Lines
  import opened Books
  import opened Ledgers
  import opened LedgerEffects
  import opened Saga
  import opened SagaInvariant

  // ------------------------------------------------------------ the ledger moves on

  lemma OrderStable(l: Ledger, l': Ledger, ord: Order)
    requires Later(l, l') && OrderOk(l, ord)
    ensures OrderOk(l', ord)
  {
    if ord.receipts[0].state == Consumed {
      Frozen(l, l', Own(ord));
    }
  }

  /** Whatever the ledger does later, what an attempt counts on stays true. */
  lemma JobStable(l: Ledger, l': Ledger, o: OrderId, ord: Order, j: Job)
    requires Later(l, l') && ReserveKey(Own(ord)) in l.keys && JobOk(l, o, ord, j)
    ensures JobOk(l', o, ord, j)
  {
    if Sure(j) {
      Frozen(l, l', Own(ord));
    }
    forall k | 0 <= k < j.item ensures Covered(l', o, ord, ord.items[k]) {
      assert Covered(l, o, ord, ord.items[k]);
      if CommittedIn(l.book, Own(ord), ord.items[k].variant) < ord.items[k].qty {
        Frozen(l, l', Shortfall(o, ord.items[k].variant));
      }
    }
  }

  /** The clauses that any later ledger keeps. */
  lemma LaterFrame(l: Ledger, l': Ledger, w: World)
    requires Later(l, l') && OrdersOk(l, w.orders) && CartsOk(l, w.carts) && JobsOk(l, w.orders, w.jobs)
    ensures OrdersOk(l', w.orders) && CartsOk(l', w.carts) && JobsOk(l', w.orders, w.jobs)
  {
    forall o | o in w.jobs ensures JobOk(l', o, w.orders[o], w.jobs[o]) {
      assert OrderOk(l, w.orders[o]);
      JobStable(l, l', o, w.orders[o], w.jobs[o]);
    }
    forall o | o in w.orders ensures OrderOk(l', w.orders[o]) {
      OrderStable(l, l', w.orders[o]);
    }
  }

  /** A replacement that was there before is as it was. */
  lemma ReplacementStable(l: Ledger, l': Ledger, orders: Orders, o: OrderId, v: int)
    requires Later(l, l') && OrdersOk(l, orders) && ReplacementOk(l, orders, o, v)
    requires ReserveKey(Shortfall(o, v)) in l'.keys ==> ReserveKey(Shortfall(o, v)) in l.keys
    ensures ReplacementOk(l', orders, o, v)
  {
    if ReserveKey(Shortfall(o, v)) in l.keys {
      assert OrderOk(l, orders[o]);
      Frozen(l, l', Own(orders[o]));
    }
  }

  lemma ReplacementsStable(l: Ledger, l': Ledger, orders: Orders)
    requires Later(l, l') && OrdersOk(l, orders) && ReplacementsOk(l, orders)
    requires forall c :: ReserveKey(c) in l'.keys && c.Shortfall? ==> ReserveKey(c) in l.keys
    ensures ReplacementsOk(l', orders)
  {
    forall o, v ensures ReplacementOk(l', orders, o, v) {
      assert ReplacementOk(l, orders, o, v);
      ReplacementStable(l, l', orders, o, v);
    }
  }

  // ------------------------------------------------------------ quiet steps

  lemma QuietOwned(l: Ledger, l': Ledger, orders: Orders)
    requires SalesOwned(l.book, orders) && RefundsOk(l, orders) && Quiet(l, l')
    ensures SalesOwned(l'.book, orders) && RefundsOk(l', orders)
  {
    forall i | 0 <= i < |l'.book.holds| && l'.book.holds[i].status == Committed
      ensures OwnedBy(orders, l'.book.holds[i])
    {
      assert OwnedBy(orders, l.book.holds[i]);
    }
  }

  lemma QuietFrame(w: World, opening: map<int, int>, l': Ledger)
    requires WorldOk(w, opening) && Quiet(w.ledger, l') && LedgerOk(l', opening)
    ensures WorldOk(w.(ledger := l'), opening)
  {
    LaterFrame(w.ledger, l', w);
    ReplacementsStable(w.ledger, l', w.orders);
    QuietOwned(w.ledger, l', w.orders);
  }

  lemma StockKeeps(w: World, opening: map<int, int>, s: Step)
    requires WorldOk(w, opening) && Enabled(w, Stock(s))
    ensures WorldOk(Do(w, Stock(s)), opening)
  {
    StockIsQuiet(w.ledger, opening, s);
    StepKeeps(w.ledger, opening, s);
    QuietFrame(w, opening, Next(w.ledger, s));
  }

  // ------------------------------------------------------------ sales

  /** The group a sale for order `o` may come from. */
  ghost predicate GroupOfOrder(l: Ledger, orders: Orders, c: CheckoutId, o: OrderId) {
    o in orders && (c == Own(orders[o]) || (c.Shortfall? && c.order == o && ReserveKey(c) in l.keys))
  }

  lemma SellsOwned(l: Ledger, l': Ledger, orders: Orders, c: CheckoutId, o: OrderId)
    requires SalesOwned(l.book, orders) && GroupOfOrder(l, orders, c, o) && Sells(l, l', c, o)
    requires c != Own(orders[o]) ==> exists q :: GroupLines(l'.book.holds, c) == [Line(c.variant, q)]
    ensures SalesOwned(l'.book, orders)
  {
    forall i | 0 <= i < |l'.book.holds| && l'.book.holds[i].status == Committed
      ensures OwnedBy(orders, l'.book.holds[i])
    {
      if l'.book.holds[i] == l.book.holds[i] {
        assert OwnedBy(orders, l.book.holds[i]);
      } else if c != Own(orders[o]) {
        var q :| GroupLines(l'.book.holds, c) == [Line(c.variant, q)];
        var k := OnlyRow(l'.book.holds, c, Line(c.variant, q));
      }
    }
  }

  lemma SellsRefunds(l: Ledger, l': Ledger, orders: Orders, c: CheckoutId, o: OrderId)
    requires RefundsOk(l, orders) && o in orders && orders[o].status != Refunded && Sells(l, l', c, o)
    ensures RefundsOk(l', orders)
  {
    assert RefundKey(o) !in l.keys;
  }

  lemma SellsFrame(w: World, opening: map<int, int>, l': Ledger, c: CheckoutId, o: OrderId)
    requires WorldOk(w, opening) && LedgerOk(l', opening) && Sells(w.ledger, l', c, o)
    requires GroupOfOrder(w.ledger, w.orders, c, o) && w.orders[o].status != Refunded
    ensures WorldOk(w.(ledger := l'), opening)
  {
    LaterFrame(w.ledger, l', w);
    ReplacementsStable(w.ledger, l', w.orders);
    if c.Shortfall? {
      assert ReplacementOk(w.ledger, w.orders, o, c.variant) && GroupOk(l', c);
    }
    SellsOwned(w.ledger, l', w.orders, c, o);
    SellsRefunds(w.ledger, l', w.orders, c, o);
  }

  /** Committing a group for its order never raises. */
  lemma GroupUnclaimed(l: Ledger, opening: map<int, int>, orders: Orders, c: CheckoutId, o: OrderId)
    requires LedgerOk(l, opening) && OrdersOk(l, orders) && SalesOwned(l.book, orders) && GroupOfOrder(l, orders, c, o)
    requires forall p :: p in orders && p != o ==> Own(orders[p]) != Own(orders[o])
    ensures CommitHolds(l, c, Some(o)).Ok?
  {
    assert OrderOk(l, orders[o]);
    forall i | 0 <= i < |l.book.holds| && l.book.holds[i].checkout == c && l.book.holds[i].status == Committed
      ensures l.book.holds[i].order == Some(o)
    {
      assert OwnedBy(orders, l.book.holds[i]);
      var p := l.book.holds[i].order.value;
      assert p in orders && OrderOk(l, orders[p]);
    }
    CommitSucceeds(l, opening, c, Some(o));
  }

  /** Committing a group for its order keeps everything, and leaves no active row in it. */
  lemma CommitFrame(w: World, opening: map<int, int>, c: CheckoutId, o: OrderId)
    requires WorldOk(w, opening) && GroupOfOrder(w.ledger, w.orders, c, o)
    requires w.orders[o].status == Refunded ==> Settled(w.ledger.book, c)
    ensures CommitHolds(w.ledger, c, Some(o)).Ok?
    ensures WorldOk(w.(ledger := CommitHolds(w.ledger, c, Some(o)).value.0), opening)
    ensures Sells(w.ledger, CommitHolds(w.ledger, c, Some(o)).value.0, c, o)
  {
    GroupUnclaimed(w.ledger, opening, w.orders, c, o);
    CommitSells(w.ledger, opening, c, o);
    CommitKeeps(w.ledger, opening, c, Some(o));
    if w.orders[o].status != Refunded {
      SellsFrame(w, opening, CommitHolds(w.ledger, c, Some(o)).value.0, c, o);
    }
  }

  // ------------------------------------------------------------ claims

  lemma ClaimsOwned(l: Ledger, l': Ledger, orders: Orders, c: CheckoutId, lines: seq<Line>)
    requires SalesOwned(l.book, orders) && RefundsOk(l, orders) && Claims(l, l', c, lines)
    ensures SalesOwned(l'.book, orders) && RefundsOk(l', orders)
  {
    forall i | 0 <= i < |l'.book.holds| && l'.book.holds[i].status == Committed
      ensures OwnedBy(orders, l'.book.holds[i])
    {
      assert OwnedBy(orders, l.book.holds[i]);
    }
  }

  lemma ClaimsReplacements(l: Ledger, l': Ledger, orders: Orders, c: CheckoutId, lines: seq<Line>)
    requires OrdersOk(l, orders) && ReplacementsOk(l, orders) && Claims(l, l', c, lines)
    requires c.Shortfall? ==> ReplacementOk(l', orders, c.order, c.variant)
    ensures ReplacementsOk(l', orders)
  {
    forall o, v ensures ReplacementOk(l', orders, o, v) {
      if c != Shortfall(o, v) {
        assert ReplacementOk(l, orders, o, v);
        ReplacementStable(l, l', orders, o, v);
      }
    }
  }

  lemma ClaimsFrame(w: World, opening: map<int, int>, l': Ledger, c: CheckoutId, lines: seq<Line>)
    requires WorldOk(w, opening) && LedgerOk(l', opening) && Claims(w.ledger, l', c, lines)
    requires c.Shortfall? ==> ReplacementOk(l', w.orders, c.order, c.variant)
    ensures WorldOk(w.(ledger := l'), opening)
  {
    LaterFrame(w.ledger, l', w);
    ClaimsReplacements(w.ledger, l', w.orders, c, lines);
    ClaimsOwned(w.ledger, l', w.orders, c, lines);
  }

  // ------------------------------------------------------------ refunds

  lemma RestoreLineSucceeds(b: Book, opening: map<int, int>, o: OrderId, x: Line)
    requires BookOk(b, opening) && x.variant in b.stock && x.qty >= 1
    ensures RestoreLine(b, o, x).Ok?
  {
    assert b.stock[x.variant].reserved <= b.stock[x.variant].onHand;
  }

  lemma {:induction false} OncePrefix(lines: seq<Line>)
    requires OncePerVariant(lines) && lines != []
    ensures OncePerVariant(lines[..|lines| - 1])
    ensures Units(lines[..|lines| - 1], lines[|lines| - 1].variant) == 0
  {
    var init, x := lines[..|lines| - 1], lines[|lines| - 1];
    assert |OfVariant(lines, x.variant)| <= 1;
    assert OfVariant(lines, x.variant) == OfVariant(init, x.variant) + [x];
    assert OfVariant(init, x.variant) == [];
    forall v ensures |OfVariant(init, v)| <= 1 {
      assert |OfVariant(lines, v)| <= 1;
    }
    UnitsOfOnly(init, x.variant);
  }

  lemma {:induction false} RestoreAllSucceeds(b: Book, opening: map<int, int>, o: OrderId, lines: seq<Line>)
    requires BookOk(b, opening)
    requires Stocked(lines, b.stock)
    ensures RestoreAll(b, o, lines).Ok?
  {
    if lines != [] {
      RestoreAllSucceeds(b, opening, o, lines[..|lines| - 1]);
      RestoreAllKeeps(b, opening, o, lines[..|lines| - 1]);
      RestoreLineSucceeds(RestoreAll(b, o, lines[..|lines| - 1]).value, opening, o, lines[|lines| - 1]);
    }
  }

  /** A variant the last line asks for is asked for nowhere before. */
  lemma LastIsNew(init: seq<Line>, x: Line)
    requires OncePerVariant(init + [x])
    ensures OncePerVariant(init) && Units(init, x.variant) == 0
    ensures forall v :: Units(init + [x], v) == Units(init, v) + UnitsOf(v)(x)
  {
    assert (init + [x])[..|init|] == init;
    OncePrefix(init + [x]);
    assert |OfVariant(init + [x], x.variant)| <= 1;
    OfVariantSnoc(init, x, x.variant);
    UnitsOfOnly(init, x.variant);
    forall v ensures Units(init + [x], v) == Units(init, v) + UnitsOf(v)(x) {
      TotalSnoc(init, x, UnitsOf(v));
    }
  }

  /** Restoring lines of distinct variants returns what was sold, up to each line's quantity. */
  lemma {:induction false} RestoreAllUnits(b: Book, o: OrderId, lines: seq<Line>, p: OrderId, v: int)
    requires RestoreAll(b, o, lines).Ok? && OncePerVariant(lines) && ReturnedUnits(b, o, v) == 0
    requires forall i :: 0 <= i < |lines| ==> lines[i].qty >= 1
    ensures var after := RestoreAll(b, o, lines).value;
            && SoldUnits(after, p, v) == SoldUnits(b, p, v)
            && (p != o ==> ReturnedUnits(after, p, v) == ReturnedUnits(b, p, v))
            && (p == o ==> ReturnedUnits(after, o, v) == Min(Units(lines, v), Max(0, SoldUnits(b, o, v))))
  {
    if lines != [] {
      var init, x := lines[..|lines| - 1], lines[|lines| - 1];
      assert lines == init + [x];
      LastIsNew(init, x);
      RestoreAllUnits(b, o, init, p, v);
      RestoreLineUnits(RestoreAll(b, o, init).value, o, x, p, v);
    }
  }

  lemma OnceSorted(items: seq<Line>)
    requires OncePerVariant(items)
    ensures OncePerVariant(SortLines(items))
  {
    forall v ensures |OfVariant(SortLines(items), v)| <= 1 {
      SortKeeps(items, v);
      assert |OfVariant(items, v)| <= 1;
    }
  }

  lemma SortedMembers(items: seq<Line>, stock: map<int, Counters>)
    requires Stocked(items, stock)
    ensures Stocked(SortLines(items), stock)
  {
    var s := SortLines(items);
    SortMultiset(items);
    forall i | 0 <= i < |s| ensures s[i] in items {
      assert s[i] in multiset(s);
    }
  }

  /** Only the order's own returns change, to what it was sold up to what it ordered. */
  ghost predicate Returns(b: Book, after: Book, o: OrderId, items: seq<Line>) {
    && (forall p, v :: SoldUnits(after, p, v) == SoldUnits(b, p, v))
    && (forall p, v :: ReturnedUnits(after, p, v)
          == if p == o then Min(Units(items, v), SoldUnits(b, o, v)) else ReturnedUnits(b, p, v))
  }

  /** A refund of a whole order never fails. */
  lemma RestoreSucceeds(l: Ledger, opening: map<int, int>, ord: Order, o: OrderId)
    requires LedgerOk(l, opening) && OrderOk(l, ord)
    ensures RestoreAll(l.book, o, SortLines(ord.items)).Ok?
  {
    var items, b := ord.items, l.book;
    SortedMembers(items, b.stock);
    RestoreAllSucceeds(b, opening, o, SortLines(items));
  }

  lemma RestoreUnits(b: Book, o: OrderId, items: seq<Line>, p: OrderId, v: int)
    requires RestoreAll(b, o, SortLines(items)).Ok? && OncePerVariant(items)
    requires Stocked(items, b.stock)
    requires ReturnedUnits(b, o, v) == 0 && SoldUnits(b, o, v) >= 0
    ensures var after := RestoreAll(b, o, SortLines(items)).value;
            && SoldUnits(after, p, v) == SoldUnits(b, p, v)
            && ReturnedUnits(after, p, v)
               == if p == o then Min(Units(items, v), SoldUnits(b, o, v)) else ReturnedUnits(b, p, v)
  {
    SortedMembers(items, b.stock);
    OnceSorted(items);
    SortKeeps(items, v);
    RestoreAllUnits(b, o, SortLines(items), p, v);
  }

  /** A first refund of an order, and what it returns. */
  lemma RestoreReturns(w: World, opening: map<int, int>, o: OrderId)
    requires WorldOk(w, opening) && o in w.orders && RefundKey(o) !in w.ledger.keys
    ensures RestoreAll(w.ledger.book, o, SortLines(w.orders[o].items)).Ok?
    ensures Returns(w.ledger.book, RestoreAll(w.ledger.book, o, SortLines(w.orders[o].items)).value, o, w.orders[o].items)
  {
    var items, b := w.orders[o].items, w.ledger.book;
    assert OrderOk(w.ledger, w.orders[o]);
    RestoreSucceeds(w.ledger, opening, w.orders[o], o);
    forall v ensures SoldUnits(b, o, v) >= 0 && ReturnedUnits(b, o, v) == 0 {
      SoldParts(w, opening, o, v);
    }
    ReturnsEach(b, o, items);
  }

  lemma ReturnsEach(b: Book, o: OrderId, items: seq<Line>)
    requires RestoreAll(b, o, SortLines(items)).Ok? && OncePerVariant(items)
    requires Stocked(items, b.stock)
    requires forall v :: SoldUnits(b, o, v) >= 0 && ReturnedUnits(b, o, v) == 0
    ensures Returns(b, RestoreAll(b, o, SortLines(items)).value, o, items)
  {
    var after := RestoreAll(b, o, SortLines(items)).value;
    forall p, v
      ensures SoldUnits(after, p, v) == SoldUnits(b, p, v)
      ensures ReturnedUnits(after, p, v)
           == if p == o then Min(Units(items, v), SoldUnits(b, o, v)) else ReturnedUnits(b, p, v)
    {
      RestoreUnits(b, o, items, p, v);
    }
  }

  lemma RestoredRefunds(l: Ledger, l': Ledger, orders: Orders, o: OrderId)
    requires RefundsOk(l, orders) && o in orders && orders[o].status == Refunded && RefundKey(o) !in l.keys
    requires l'.keys == l.keys[RefundKey(o) := SortLines(SortLines(orders[o].items))]
    requires Returns(l.book, l'.book, o, orders[o].items)
    ensures RefundsOk(l', orders)
  {}

  lemma DeliverRefundKeeps(w: World, opening: map<int, int>, k: nat)
    requires WorldOk(w, opening) && Enabled(w, DeliverRefund(k))
    ensures WorldOk(Do(w, DeliverRefund(k)), opening)
  {
    assert MessageOk(w.orders, w.outbox[k]);
    var o := w.outbox[k].payload.order;
    RestoreKeeps(w, opening, o);
  }

  lemma RestoreKeeps(w: World, opening: map<int, int>, o: OrderId)
    requires WorldOk(w, opening) && o in w.orders && w.orders[o].status == Refunded
    ensures Attempt(w.ledger, Restore(o, w.orders[o].items)).Ok?
    ensures var l' := Next(w.ledger, Restore(o, w.orders[o].items)); WorldOk(w.(ledger := l'), opening) && RefundKey(o) in l'.keys
  {
    var l' := Next(w.ledger, Restore(o, w.orders[o].items));
    StepKeeps(w.ledger, opening, Restore(o, w.orders[o].items));
    if RefundKey(o) !in w.ledger.keys {
      RestoreReturns(w, opening, o);
      RestoreAllKeeps(w.ledger.book, opening, o, SortLines(w.orders[o].items));
      assert l'.keys == w.ledger.keys[RefundKey(o) := SortLines(SortLines(w.orders[o].items))];
      LaterFrame(w.ledger, l', w);
      ReplacementsStable(w.ledger, l', w.orders);
      RestoredRefunds(w.ledger, l', w.orders, o);
    }
  }

  // ------------------------------------------------------------ checkout

  lemma OnceEach(items: seq<Line>)
    requires DistinctVariants(items)
    ensures OncePerVariant(items)
  {
    forall v ensures |OfVariant(items, v)| <= 1 {
      AtMostOnce(items, v);
    }
  }

  /** The cart just reserved. */
  lemma CartPlaced(l: Ledger, l': Ledger, opening: map<int, int>, c: CheckoutId, items: seq<Line>, e: int)
    requires LedgerOk(l, opening) && c.Minted? && ReserveKey(c) !in l.keys && DistinctVariants(items)
    requires ReserveLines(l, c, items, e) == Ok(l')
    ensures ReservedFor(l', c, items) && OncePerVariant(items) && Claims(l, l', c, items) && LedgerOk(l', opening)
  {
    ReserveFacts(l, opening, c, items, e);
    ReserveClaims(l, opening, c, items, e);
    ReservationExact(l, opening, c, items, e);
    OnceEach(items);
  }

  /** Under an id nobody has, there is no order and no cart. */
  lemma NobodysId(w: World, c: CheckoutId)
    requires OrdersOk(w.ledger, w.orders) && ReserveKey(c) !in w.ledger.keys
    ensures forall o :: o in w.orders ==> Own(w.orders[o]) != c
  {
    forall o | o in w.orders ensures Own(w.orders[o]) != c {
      assert OrderOk(w.ledger, w.orders[o]);
    }
  }

  lemma CartAdded(l: Ledger, orders: Orders, carts: map<CheckoutId, seq<Line>>, c: CheckoutId, items: seq<Line>)
    requires CartsOk(l, carts) && Apart(orders, carts) && ReservedFor(l, c, items) && OncePerVariant(items)
    requires forall o :: o in orders ==> Own(orders[o]) != c
    ensures CartsOk(l, carts[c := items]) && Apart(orders, carts[c := items])
  {}

  lemma PlaceKeeps(w: World, opening: map<int, int>, c: CheckoutId, items: seq<Line>, e: int)
    requires WorldOk(w, opening) && Enabled(w, Place(c, items, e))
    ensures WorldOk(Do(w, Place(c, items, e)), opening)
  {
    var l' := Next(w.ledger, Reserve(c, items, e));
    CartPlaced(w.ledger, l', opening, c, items, e);
    NobodysId(w, c);
    ClaimsFrame(w, opening, l', c, items);
    CartAdded(l', w.orders, w.carts, c, items);
  }

  lemma NoMessages(outbox: seq<Message>, f: Message -> int)
    requires forall k :: 0 <= k < |outbox| ==> f(outbox[k]) == 0
    ensures Total(outbox, f) == 0
  {
    TotalNonNegative(outbox, f);
  }

  lemma BuildOrders(w: World, c: CheckoutId, o: OrderId, ord: Order)
    requires OrdersOk(w.ledger, w.orders) && CartsOk(w.ledger, w.carts) && Apart(w.orders, w.carts)
    requires c in w.carts && o !in w.orders && ord == Order(Pending, w.carts[c], [Receipt(c, Held)], NoSession)
    ensures OrdersOk(w.ledger, w.orders[o := ord]) && CartsOk(w.ledger, w.carts - {c})
    ensures Apart(w.orders[o := ord], w.carts - {c})
  {
    assert Own(ord) == c;
  }

  lemma BuildSales(l: Ledger, orders: Orders, o: OrderId, ord: Order)
    requires SalesOwned(l.book, orders) && ReplacementsOk(l, orders) && RefundsOk(l, orders) && o !in orders
    ensures SalesOwned(l.book, orders[o := ord]) && ReplacementsOk(l, orders[o := ord]) && RefundsOk(l, orders[o := ord])
  {
    var now := orders[o := ord];
    forall i | 0 <= i < |l.book.holds| && l.book.holds[i].status == Committed
      ensures OwnedBy(now, l.book.holds[i])
    {
      assert OwnedBy(orders, l.book.holds[i]);
    }
    forall p, v ensures ReplacementOk(l, now, p, v) {
      assert ReplacementOk(l, orders, p, v);
    }
  }

  lemma BuildOutbox(orders: Orders, outbox: seq<Message>, o: OrderId, ord: Order)
    requires MessagesOk(orders, outbox) && CountsOk(orders, outbox) && o !in orders && ord.status == Pending
    ensures MessagesOk(orders[o := ord], outbox) && CountsOk(orders[o := ord], outbox)
  {
    forall k | 0 <= k < |outbox|
      ensures MessageOk(orders[o := ord], outbox[k]) && FulfilFor(o)(outbox[k]) == 0 == RestoreFor(o)(outbox[k])
    {
      assert MessageOk(orders, outbox[k]);
    }
    NoMessages(outbox, FulfilFor(o));
    NoMessages(outbox, RestoreFor(o));
  }

  lemma BuildKeeps(w: World, opening: map<int, int>, c: CheckoutId, o: OrderId)
    requires WorldOk(w, opening) && Enabled(w, Build(c, o))
    ensures WorldOk(Do(w, Build(c, o)), opening)
  {
    var ord := Order(Pending, w.carts[c], [Receipt(c, Held)], NoSession);
    BuildOrders(w, c, o, ord);
    BuildSales(w.ledger, w.orders, o, ord);
    BuildOutbox(w.orders, w.outbox, o, ord);
  }

  // ------------------------------------------------------------ one order's row changes

  /** The clauses about sales see only an order's items and its checkout id. */
  lemma SameBody(w: World, o: OrderId, ord: Order)
    requires Apart(w.orders, w.carts) && SalesOwned(w.ledger.book, w.orders) && ReplacementsOk(w.ledger, w.orders)
    requires o in w.orders && Own(ord) == Own(w.orders[o]) && ord.items == w.orders[o].items
    ensures var orders := w.orders[o := ord];
            Apart(orders, w.carts) && SalesOwned(w.ledger.book, orders) && ReplacementsOk(w.ledger, orders)
  {
    var orders := w.orders[o := ord];
    forall i | 0 <= i < |w.ledger.book.holds| && w.ledger.book.holds[i].status == Committed
      ensures OwnedBy(orders, w.ledger.book.holds[i])
    {
      assert OwnedBy(w.orders, w.ledger.book.holds[i]);
    }
    forall p, v ensures ReplacementOk(w.ledger, orders, p, v) {
      assert ReplacementOk(w.ledger, w.orders, p, v);
    }
  }

  /** A paid order never becomes unpaid, and its consumed receipt stays consumed. */
  predicate Onward(ord: Order, ord': Order) {
    && ord'.items == ord.items && Checkouts(ord'.receipts) == Checkouts(ord.receipts)
    && (PaidLike(ord.status) ==> PaidLike(ord'.status))
    && (ord.status == Refunded ==> ord'.status == Refunded)
    && (ord.receipts != [] && PaidLike(ord.status) && ord.receipts[0].state == Consumed ==>
          ord'.receipts != [] && ord'.receipts[0].state == Consumed)
  }

  lemma SameOwn(ord: Order, ord': Order)
    requires Checkouts(ord'.receipts) == Checkouts(ord.receipts)
    ensures Own(ord') == Own(ord) && |ord'.receipts| == |ord.receipts|
  {
    assert |Checkouts(ord.receipts)| == |Checkouts(ord'.receipts)|;
    if ord.receipts != [] {
      assert Checkouts(ord.receipts)[0] == Checkouts(ord'.receipts)[0];
    }
  }

  lemma OnwardMessages(orders: Orders, outbox: seq<Message>, o: OrderId, ord: Order)
    requires MessagesOk(orders, outbox) && o in orders && Onward(orders[o], ord)
    ensures MessagesOk(orders[o := ord], outbox)
  {
    SameOwn(orders[o], ord);
    forall k | 0 <= k < |outbox| ensures MessageOk(orders[o := ord], outbox[k]) {
      assert MessageOk(orders, outbox[k]);
    }
  }

  /** A change that keeps whether the order was paid and whether it was refunded. */
  lemma SameStage(l: Ledger, orders: Orders, outbox: seq<Message>, o: OrderId, ord: Order)
    requires CountsOk(orders, outbox) && RefundsOk(l, orders) && o in orders && ord.items == orders[o].items
    requires (PaidLike(ord.status) <==> PaidLike(orders[o].status)) && (ord.status == Refunded <==> orders[o].status == Refunded)
    ensures CountsOk(orders[o := ord], outbox) && RefundsOk(l, orders[o := ord])
  {}

  /** One order's row changes within its stage; no attempt holds it. */
  lemma RowFrame(w: World, opening: map<int, int>, o: OrderId, ord: Order)
    requires WorldOk(w, opening) && o in w.orders && o !in w.jobs && OrderOk(w.ledger, ord) && Onward(w.orders[o], ord)
    requires (PaidLike(ord.status) <==> PaidLike(w.orders[o].status)) && (ord.status == Refunded <==> w.orders[o].status == Refunded)
    ensures WorldOk(SetOrder(w, o, ord), opening)
  {
    SameOwn(w.orders[o], ord);
    SameBody(w, o, ord);
    OnwardMessages(w.orders, w.outbox, o, ord);
    SameStage(w.ledger, w.orders, w.outbox, o, ord);
  }

  lemma NotInFlight(w: World, o: OrderId)
    requires JobsOk(w.ledger, w.orders, w.jobs) && o in w.orders && !Fulfilling(w.orders[o].status)
    ensures o !in w.jobs
  {}

  /** What a row move makes of its order. */
  function RowAfter(ord: Order, m: Move): Order
    requires RowMove(m) && (m.ReconcileSave? ==> m.receipt < |ord.receipts|)
  {
    match m
    case OpenSession(_) => ord.(payment := Recorded(PayPending))
    case FailSession(_, released) =>
      ord.(payment := SessionFailed, receipts := UpdateAll(ord.receipts, if released then Freed else Unknown))
    case Transition(_, t) => ord.(status := t)
    case CancelByAdmin(_) => ord.(status := Cancelled, receipts := UpdateHeld(ord.receipts, Freed))
    case FailPayment(_) => ord.(status := Cancelled, payment := Recorded(PayFailed))
    case ReconcileSave(_, i) => ord.(receipts := ord.receipts[i := ord.receipts[i].(state := Consumed)])
  }

  /** A move that rewrites one order row. */
  predicate RowMove(m: Move) {
    m.OpenSession? || m.FailSession? || m.Transition? || m.CancelByAdmin? || m.FailPayment? || m.ReconcileSave?
  }

  lemma RowMoveShape(w: World, m: Move)
    requires RowMove(m) && Enabled(w, m)
    ensures m.order in w.orders && (m.ReconcileSave? ==> m.receipt < |w.orders[m.order].receipts|)
    ensures Do(w, m) == SetOrder(w, m.order, RowAfter(w.orders[m.order], m))
  {}

  lemma RowMoveOnward(w: World, m: Move)
    requires RowMove(m) && Enabled(w, m) && m.order in w.orders && StatusOk(w.orders[m.order])
    ensures var ord := w.orders[m.order];
            && (m.ReconcileSave? ==> m.receipt < |ord.receipts|)
            && var ord' := RowAfter(ord, m);
               && Onward(ord, ord') && (PaidLike(ord'.status) <==> PaidLike(ord.status))
               && (ord'.status == Refunded <==> ord.status == Refunded)
               && StatusOk(ord')
               && (ord'.receipts[0].state == Consumed ==>
                     ord.receipts[0].state == Consumed || Settled(w.ledger.book, Own(ord)))
               && (Fulfilling(ord.status) ==> m.order !in w.jobs)
  {
    var ord := w.orders[m.order];
    var ord' := RowAfter(ord, m);
    assert Checkouts(ord'.receipts) == Checkouts(ord.receipts);
  }

  /** Sessions, cancellations, courier updates and reconciled receipts. */
  lemma OrderRowKeeps(w: World, opening: map<int, int>, m: Move)
    requires WorldOk(w, opening) && Enabled(w, m) && RowMove(m)
    ensures WorldOk(Do(w, m), opening)
  {
    RowMoveShape(w, m);
    var ord := w.orders[m.order];
    assert OrderOk(w.ledger, ord);
    RowMoveOnward(w, m);
    SameOwn(ord, RowAfter(ord, m));
    if !Fulfilling(ord.status) {
      NotInFlight(w, m.order);
    }
    RowFrame(w, opening, m.order, RowAfter(ord, m));
  }

  // ------------------------------------------------------------ paying and refunding

  lemma MessageAdded(outbox: seq<Message>, m: Message, o: OrderId)
    ensures Total(outbox + [m], FulfilFor(o)) == Total(outbox, FulfilFor(o)) + FulfilFor(o)(m)
    ensures Total(outbox + [m], RestoreFor(o)) == Total(outbox, RestoreFor(o)) + RestoreFor(o)(m)
  {
    TotalSnoc(outbox, m, FulfilFor(o));
    TotalSnoc(outbox, m, RestoreFor(o));
  }

  /** Becoming paid adds the one fulfilment message; being refunded adds the one restore message. */
  lemma CountedMessage(orders: Orders, outbox: seq<Message>, o: OrderId, ord: Order, m: Message)
    requires CountsOk(orders, outbox) && o in orders
    requires (if PaidLike(ord.status) then 1 else 0) == (if PaidLike(orders[o].status) then 1 else 0) + FulfilFor(o)(m)
    requires (if ord.status == Refunded then 1 else 0) == (if orders[o].status == Refunded then 1 else 0) + RestoreFor(o)(m)
    requires forall p :: p != o ==> FulfilFor(p)(m) == 0 && RestoreFor(p)(m) == 0
    ensures CountsOk(orders[o := ord], outbox + [m])
  {
    forall p ensures Total(outbox + [m], FulfilFor(p)) == Total(outbox, FulfilFor(p)) + FulfilFor(p)(m)
             ensures Total(outbox + [m], RestoreFor(p)) == Total(outbox, RestoreFor(p)) + RestoreFor(p)(m) {
      MessageAdded(outbox, m, p);
    }
  }

  /** An order not yet refunded changes its status. */
  lemma StatusRefunds(l: Ledger, orders: Orders, o: OrderId, ord: Order)
    requires RefundsOk(l, orders) && o in orders && orders[o].status != Refunded && ord.items == orders[o].items
    ensures RefundsOk(l, orders[o := ord])
  {}

  /** An order is paid or refunded, and its instruction recorded with it. */
  lemma InstructedFrame(w: World, opening: map<int, int>, o: OrderId, ord: Order, m: Message)
    requires WorldOk(w, opening) && o in w.orders && o !in w.jobs && w.orders[o].status != Refunded
    requires OrderOk(w.ledger, ord) && Onward(w.orders[o], ord) && MessageOk(w.orders[o := ord], m)
    requires CountsOk(w.orders[o := ord], w.outbox + [m])
    ensures WorldOk(SetOrder(w, o, ord).(outbox := w.outbox + [m]), opening)
  {
    SameOwn(w.orders[o], ord);
    SameBody(w, o, ord);
    OnwardMessages(w.orders, w.outbox, o, ord);
    StatusRefunds(w.ledger, w.orders, o, ord);
  }

  lemma ConfirmKeeps(w: World, opening: map<int, int>, o: OrderId)
    requires WorldOk(w, opening) && Enabled(w, Confirm(o))
    ensures WorldOk(Do(w, Confirm(o)), opening)
  {
    assert OrderOk(w.ledger, w.orders[o]);
    var ord, m := w.orders[o].(status := Paid, payment := Recorded(PayPaid)), Message(FulfilStock(o), Queued);
    CountedMessage(w.orders, w.outbox, o, ord, m);
    InstructedFrame(w, opening, o, ord, m);
  }

  lemma RefundKeeps(w: World, opening: map<int, int>, o: OrderId)
    requires WorldOk(w, opening) && Enabled(w, Refund(o))
    ensures WorldOk(Do(w, Refund(o)), opening)
  {
    assert OrderOk(w.ledger, w.orders[o]);
    var ord := w.orders[o].(status := Refunded);
    var m := Message(RestoreStock(o, ord.items, Checkouts(ord.receipts)), Queued);
    CountedMessage(w.orders, w.outbox, o, ord, m);
    InstructedFrame(w, opening, o, ord, m);
  }

  /** A message's state is no part of what it asks for. */
  lemma Marked(orders: Orders, was: seq<Message>, k: nat, s: MessageState)
    requires MessagesOk(orders, was) && CountsOk(orders, was) && k < |was|
    ensures var outbox := was[k := was[k].(state := s)]; MessagesOk(orders, outbox) && CountsOk(orders, outbox)
  {
    var m := was[k].(state := s);
    var outbox := was[k := m];
    forall o
      ensures Total(outbox, FulfilFor(o)) == Total(was, FulfilFor(o))
      ensures Total(outbox, RestoreFor(o)) == Total(was, RestoreFor(o))
    {
      TotalUpdate(was, k, m, FulfilFor(o));
      TotalUpdate(was, k, m, RestoreFor(o));
    }
    forall i | 0 <= i < |outbox| ensures MessageOk(orders, outbox[i]) {
      assert MessageOk(orders, was[i]);
    }
  }

  lemma MarkKeeps(w: World, opening: map<int, int>, k: nat, s: MessageState)
    requires WorldOk(w, opening) && Enabled(w, Mark(k, s))
    ensures WorldOk(Do(w, Mark(k, s)), opening)
  {
    Marked(w.orders, w.outbox, k, s);
  }

  // ------------------------------------------------------------ fulfilment attempts

  /** An attempt in flight, its order and its group. */
  lemma InFlightFacts(w: World, opening: map<int, int>, o: OrderId)
    requires WorldOk(w, opening) && o in w.jobs
    ensures o in w.orders && OrderOk(w.ledger, w.orders[o]) && JobOk(w.ledger, o, w.orders[o], w.jobs[o])
  {}

  lemma SetJobKeeps(w: World, opening: map<int, int>, o: OrderId, j: Job)
    requires WorldOk(w, opening) && o in w.orders && JobOk(w.ledger, o, w.orders[o], j)
    ensures WorldOk(SetJob(w, o, j), opening)
  {}

  lemma AbortKeeps(w: World, opening: map<int, int>, o: OrderId)
    requires WorldOk(w, opening)
    ensures WorldOk(w.(jobs := Without(w.jobs, o)), opening)
  {}

  lemma BeginKeeps(w: World, opening: map<int, int>, o: OrderId)
    requires WorldOk(w, opening) && Enabled(w, Begin(o))
    ensures WorldOk(Do(w, Begin(o)), opening)
  {
    assert OrderOk(w.ledger, w.orders[o]);
    SetJobKeeps(w, opening, o, Job(w.orders[o].receipts, [], 0, 0, map[], false));
  }

  lemma AddAllGet(m: map<int, int>, n: map<int, int>, v: int)
    ensures Get(AddAll(m, n), v) == Get(m, v) + Get(n, v)
  {}

  /** An attempt still before its receipt: what the receipt is. */
  lemma BeforeReceipt(l: Ledger, o: OrderId, ord: Order, j: Job)
    requires OrderOk(l, ord) && JobOk(l, o, ord, j) && j.pos < |j.receipts|
    ensures j.pos == 0 && j.receipts == ord.receipts && |j.receipts| == 1 && j.staged == [] && j.committed == map[]
    ensures j.item == 0 && !j.covering && j.receipts[0].checkout == Own(ord)
    ensures j.receipts[0].state == Held || j.receipts[0].state == Consumed
  {}

  /** The job after its receipt's commit replied with these totals. */
  function Heeded(o: OrderId, j: Job, m: map<int, int>): Job
    requires j.pos < |j.receipts|
  {
    var r := j.receipts[j.pos];
    j.(receipts := j.receipts[j.pos := r.(state := Consumed)], staged := j.staged + [Message(StockCommit(r.checkout, o), Sent)],
       committed := AddAll(j.committed, m), pos := j.pos + 1)
  }

  /** The job after its receipt's commit was not answered. */
  function Unheard(o: OrderId, j: Job): Job
    requires j.pos < |j.receipts|
  {
    var r := j.receipts[j.pos];
    j.(receipts := j.receipts[j.pos := if r.state == Held then r.(state := Unknown) else r],
       staged := j.staged + [Message(StockCommit(r.checkout, o), Queued)], pos := j.pos + 1)
  }

  lemma RepliedDone(w: World, o: OrderId, l: Ledger, m: map<int, int>)
    requires Enabled(w, CommitReceipt(o, Replied))
    requires var r := w.jobs[o].receipts[w.jobs[o].pos];
             (r.state == Held || r.state == Consumed) && CommitHolds(w.ledger, r.checkout, Some(o)) == Ok((l, m))
    ensures Do(w, CommitReceipt(o, Replied)) == SetJob(w.(ledger := l), o, Heeded(o, w.jobs[o], m))
  {}

  lemma DeafDone(w: World, o: OrderId, outcome: Outcome)
    requires Enabled(w, CommitReceipt(o, outcome)) && outcome != Replied
    requires var r := w.jobs[o].receipts[w.jobs[o].pos]; r.state == Held || r.state == Consumed
    ensures var r := w.jobs[o].receipts[w.jobs[o].pos];
            var l := if outcome == ReplyLost then Next(w.ledger, Commit(r.checkout, Some(o))) else w.ledger;
            Do(w, CommitReceipt(o, outcome)) == SetJob(w.(ledger := l), o, Unheard(o, w.jobs[o]))
  {}

  lemma HeededOk(l: Ledger, l': Ledger, o: OrderId, ord: Order, j: Job, m: map<int, int>)
    requires OrderOk(l, ord) && JobOk(l, o, ord, j) && j.pos < |j.receipts| && Settled(l'.book, Own(ord))
    requires m == CommittedMap(l'.book.holds, Own(ord))
    ensures JobOk(l', o, ord, Heeded(o, j, m)) && Knows(l', ord, Heeded(o, j, m))
  {
    BeforeReceipt(l, o, ord, j);
    forall v ensures Get(Heeded(o, j, m).committed, v) == CommittedIn(l'.book, Own(ord), v) {
      CommittedMapTotals(l'.book.holds, Own(ord), v);
      AddAllGet(map[], m, v);
    }
  }

  /** A held receipt is in doubt; a consumed one still tells the truth, but nothing is counted. */
  lemma UnheardOk(l: Ledger, l': Ledger, o: OrderId, ord: Order, j: Job)
    requires OrderOk(l, ord) && JobOk(l, o, ord, j) && j.pos < |j.receipts|
    requires j.receipts[0].state == Consumed ==> Settled(l'.book, Own(ord))
    ensures JobOk(l', o, ord, Unheard(o, j))
    ensures j.receipts[j.pos].state == Held <==> HasUnknown(Unheard(o, j).receipts)
  {
    BeforeReceipt(l, o, ord, j);
    var j' := Unheard(o, j);
    if j.receipts[0].state == Held {
      assert j'.receipts[0].state == Unknown;
    } else {
      assert j'.receipts == j.receipts;
    }
  }

  /** An order's own group, committed for it. */
  lemma OwnCommit(w: World, opening: map<int, int>, o: OrderId) returns (l': Ledger, m: map<int, int>)
    requires WorldOk(w, opening) && o in w.orders && w.orders[o].status != Refunded
    ensures CommitHolds(w.ledger, Own(w.orders[o]), Some(o)) == Ok((l', m)) && WorldOk(w.(ledger := l'), opening)
    ensures Settled(l'.book, Own(w.orders[o])) && m == CommittedMap(l'.book.holds, Own(w.orders[o]))
  {
    CommitFrame(w, opening, Own(w.orders[o]), o);
    CommitShape(w.ledger, Own(w.orders[o]), Some(o));
    l', m := CommitHolds(w.ledger, Own(w.orders[o]), Some(o)).value.0, CommitHolds(w.ledger, Own(w.orders[o]), Some(o)).value.1;
  }

  /** A commit that replied: the attempt now counts exactly what its settled group sold. */
  lemma RepliedFacts(w: World, opening: map<int, int>, o: OrderId) returns (l': Ledger, j': Job)
    requires WorldOk(w, opening) && Enabled(w, CommitReceipt(o, Replied))
    ensures l' == Next(w.ledger, Commit(Own(w.orders[o]), Some(o))) && WorldOk(w.(ledger := l'), opening)
    ensures Do(w, CommitReceipt(o, Replied)) == SetJob(w.(ledger := l'), o, j')
    ensures JobOk(l', o, w.orders[o], j') && Knows(l', w.orders[o], j')
    ensures forall k :: 0 <= k < |j'.staged| ==> j'.staged[k].state != Queued
  {
    var ord, j := w.orders[o], w.jobs[o];
    InFlightFacts(w, opening, o);
    BeforeReceipt(w.ledger, o, ord, j);
    var m;
    l', m := OwnCommit(w, opening, o);
    j' := Heeded(o, j, m);
    RepliedDone(w, o, l', m);
    HeededOk(w.ledger, l', o, ord, j, m);
  }

  lemma RepliedKeeps(w: World, opening: map<int, int>, o: OrderId)
    requires WorldOk(w, opening) && Enabled(w, CommitReceipt(o, Replied))
    ensures WorldOk(Do(w, CommitReceipt(o, Replied)), opening)
  {
    var l', j' := RepliedFacts(w, opening, o);
    SetJobKeeps(w.(ledger := l'), opening, o, j');
  }

  /** The ledger after a commit that may or may not have been applied. */
  lemma DeafLedger(w: World, opening: map<int, int>, o: OrderId, outcome: Outcome) returns (l': Ledger)
    requires WorldOk(w, opening) && o in w.orders && w.orders[o].status != Refunded
    ensures l' == if outcome == ReplyLost then Next(w.ledger, Commit(Own(w.orders[o]), Some(o))) else w.ledger
    ensures WorldOk(w.(ledger := l'), opening)
    ensures Settled(w.ledger.book, Own(w.orders[o])) ==> l' == w.ledger
  {
    CommitFrame(w, opening, Own(w.orders[o]), o);
    l' := if outcome == ReplyLost then CommitHolds(w.ledger, Own(w.orders[o]), Some(o)).value.0 else w.ledger;
  }

  /** A commit whose reply was lost, whether or not it was applied, and whether or not it was a replay. */
  lemma DeafKeeps(w: World, opening: map<int, int>, o: OrderId, outcome: Outcome)
    requires WorldOk(w, opening) && Enabled(w, CommitReceipt(o, outcome)) && outcome != Replied
    ensures WorldOk(Do(w, CommitReceipt(o, outcome)), opening)
  {
    var ord, j := w.orders[o], w.jobs[o];
    InFlightFacts(w, opening, o);
    BeforeReceipt(w.ledger, o, ord, j);
    var l' := DeafLedger(w, opening, o, outcome);
    DeafDone(w, o, outcome);
    UnheardOk(w.ledger, l', o, ord, j);
    SetJobKeeps(w.(ledger := l'), opening, o, Unheard(o, j));
  }

  lemma ReceiptKeeps(w: World, opening: map<int, int>, o: OrderId, outcome: Outcome)
    requires WorldOk(w, opening) && Enabled(w, CommitReceipt(o, outcome))
    ensures WorldOk(Do(w, CommitReceipt(o, outcome)), opening)
  {
    if outcome == Replied {
      RepliedKeeps(w, opening, o);
    } else {
      DeafKeeps(w, opening, o, outcome);
    }
  }

  /** At an item, with nothing in doubt: what is short is the whole line, or nothing. */
  lemma ShortAllOrNone(l: Ledger, opening: map<int, int>, o: OrderId, ord: Order, j: Job)
    requires LedgerOk(l, opening) && OrderOk(l, ord) && JobOk(l, o, ord, j)
    requires Sure(j) && j.item < |ord.items|
    ensures var x := ord.items[j.item];
            var own := CommittedIn(l.book, Own(ord), x.variant);
            && Units(ord.items, x.variant) == x.qty >= 1
            && (ShortfallOf(ord, j) == x.qty || (ShortfallOf(ord, j) == 0 && own == x.qty))
            && (ShortfallOf(ord, j) == x.qty && Knows(l, ord, j) ==> own == 0)
  {
    LineIsTotal(ord.items, j.item);
    OwnAllOrNone(l, opening, ord, ord.items[j.item].variant);
    assert Counts(l, ord, j);
  }

  lemma PassedJobOk(l: Ledger, opening: map<int, int>, o: OrderId, ord: Order, j: Job)
    requires LedgerOk(l, opening) && OrderOk(l, ord) && JobOk(l, o, ord, j)
    requires Sure(j) && j.item < |ord.items| && !j.covering && ShortfallOf(ord, j) <= 0
    ensures JobOk(l, o, ord, j.(item := j.item + 1))
  {
    ShortAllOrNone(l, opening, o, ord, j);
    assert Covered(l, o, ord, ord.items[j.item]);
  }

  lemma PassDone(w: World, o: OrderId)
    requires Enabled(w, PassItem(o))
    ensures var j := w.jobs[o];
            && Do(w, PassItem(o)) == SetJob(w, o, j.(item := j.item + 1)) && o in w.orders
            && j.pos == |j.receipts| && !HasUnknown(j.receipts) && j.item < |w.orders[o].items| && !j.covering
            && ShortfallOf(w.orders[o], j) <= 0
  {}

  lemma PassFacts(w: World, opening: map<int, int>, o: OrderId) returns (j': Job)
    requires WorldOk(w, opening) && Enabled(w, PassItem(o))
    ensures Do(w, PassItem(o)) == SetJob(w, o, j') && o in w.orders && JobOk(w.ledger, o, w.orders[o], j')
  {
    j' := w.jobs[o].(item := w.jobs[o].item + 1);
    InFlightFacts(w, opening, o);
    PassDone(w, o);
    PassedJobOk(w.ledger, opening, o, w.orders[o], w.jobs[o]);
  }

  lemma PassItemKeeps(w: World, opening: map<int, int>, o: OrderId)
    requires WorldOk(w, opening) && Enabled(w, PassItem(o))
    ensures WorldOk(Do(w, PassItem(o)), opening)
  {
    var j' := PassFacts(w, opening, o);
    SetJobKeeps(w, opening, o, j');
  }

  lemma SortSingle(x: Line)
    ensures SortLines([x]) == [x]
  {
    assert [x][..0] == [];
  }

  /** A replacement reserved for the first time claims its whole line. */
  lemma ReplacementMade(l: Ledger, l': Ledger, orders: Orders, o: OrderId, x: Line)
    requires o in orders && ReserveKey(Own(orders[o])) in l.keys && Settled(l.book, Own(orders[o]))
    requires x.qty == Units(orders[o].items, x.variant) && Claims(l, l', Shortfall(o, x.variant), [x])
    ensures ReplacementOk(l', orders, o, x.variant)
  {
    Frozen(l, l', Own(orders[o]));
    SortSingle(x);
  }

  lemma FirstReplacement(w: World, opening: map<int, int>, o: OrderId, x: Line, e: int, l': Ledger)
    requires WorldOk(w, opening) && o in w.orders && Settled(w.ledger.book, Own(w.orders[o]))
    requires x.qty == Units(w.orders[o].items, x.variant) && ReserveKey(Shortfall(o, x.variant)) !in w.ledger.keys
    requires ReserveLines(w.ledger, Shortfall(o, x.variant), [x], e) == Ok(l')
    ensures WorldOk(w.(ledger := l'), opening)
  {
    ReserveFacts(w.ledger, opening, Shortfall(o, x.variant), [x], e);
    ReserveClaims(w.ledger, opening, Shortfall(o, x.variant), [x], e);
    assert OrderOk(w.ledger, w.orders[o]);
    ReplacementMade(w.ledger, l', w.orders, o, x);
    ClaimsFrame(w, opening, l', Shortfall(o, x.variant), [x]);
  }

  /** A replacement of a whole line, reserved now or before. */
  lemma ReplacementReserved(w: World, opening: map<int, int>, o: OrderId, x: Line, e: int, l': Ledger)
    requires WorldOk(w, opening) && o in w.orders && Settled(w.ledger.book, Own(w.orders[o]))
    requires x.qty == Units(w.orders[o].items, x.variant)
    requires ReserveLines(w.ledger, Shortfall(o, x.variant), [x], e) == Ok(l')
    ensures WorldOk(w.(ledger := l'), opening) && Later(w.ledger, l') && ReserveKey(Shortfall(o, x.variant)) in l'.keys
  {
    StepKeeps(w.ledger, opening, Reserve(Shortfall(o, x.variant), [x], e));
    if ReserveKey(Shortfall(o, x.variant)) !in w.ledger.keys {
      FirstReplacement(w, opening, o, x, e, l');
    }
  }

  lemma CoveringJobOk(l: Ledger, l': Ledger, o: OrderId, ord: Order, j: Job)
    requires JobOk(l, o, ord, j) && OrderOk(l, ord) && Later(l, l') && Sure(j)
    requires j.item < |ord.items| && ReserveKey(Shortfall(o, ord.items[j.item].variant)) in l'.keys
    ensures JobOk(l', o, ord, j.(covering := true))
  {
    JobStable(l, l', o, ord, j);
    assert Counts(l', ord, j);
  }

  /** The line an attempt at this item is short of, as its replacement asks for it. */
  function Short(ord: Order, j: Job): Line
    requires j.item < |ord.items|
  {
    Line(ord.items[j.item].variant, ShortfallOf(ord, j))
  }

  /** An attempt about to replace: its group is settled, and it is short of the whole line. */
  lemma AboutToReplace(w: World, opening: map<int, int>, o: OrderId, e: int)
    requires WorldOk(w, opening) && Enabled(w, ReserveReplacement(o, e))
    ensures var ord, j := w.orders[o], w.jobs[o];
            && OrderOk(w.ledger, ord) && JobOk(w.ledger, o, ord, j) && Sure(j) && Settled(w.ledger.book, Own(ord))
            && ShortfallOf(ord, j) == Units(ord.items, ord.items[j.item].variant) == ord.items[j.item].qty
            && (Knows(w.ledger, ord, j) ==> CommittedIn(w.ledger.book, Own(ord), ord.items[j.item].variant) == 0)
  {
    var ord, j := w.orders[o], w.jobs[o];
    assert OrderOk(w.ledger, ord) && JobOk(w.ledger, o, ord, j);
    ShortAllOrNone(w.ledger, opening, o, ord, j);
    assert Counts(w.ledger, ord, j);
  }

  lemma ReserveDone(w: World, o: OrderId, e: int)
    requires Enabled(w, ReserveReplacement(o, e))
    ensures var x := Short(w.orders[o], w.jobs[o]);
            Do(w, ReserveReplacement(o, e))
            == match ReserveLines(w.ledger, Shortfall(o, x.variant), [x], e)
               case Err(_) => w.(jobs := Without(w.jobs, o))
               case Ok(l) => SetJob(w.(ledger := l), o, w.jobs[o].(covering := true))
  {}

  lemma ReserveReplacementKeeps(w: World, opening: map<int, int>, o: OrderId, e: int)
    requires WorldOk(w, opening) && Enabled(w, ReserveReplacement(o, e))
    ensures WorldOk(Do(w, ReserveReplacement(o, e)), opening)
  {
    var ord, j := w.orders[o], w.jobs[o];
    var x := Short(ord, j);
    ReserveDone(w, o, e);
    AboutToReplace(w, opening, o, e);
    match ReserveLines(w.ledger, Shortfall(o, x.variant), [x], e)
    case Err(_) => AbortKeeps(w, opening, o);
    case Ok(l') =>
      ReplacementReserved(w, opening, o, x, e, l');
      CoveringJobOk(w.ledger, l', o, ord, j);
      SetJobKeeps(w.(ledger := l'), opening, o, j.(covering := true));
  }

  /** The job once its item is counted as covered. */
  function ItemDone(ord: Order, j: Job): Job
    requires j.item < |ord.items|
  {
    j.(committed := Plus(j.committed, ord.items[j.item].variant, ShortfallOf(ord, j)), covering := false, item := j.item + 1)
  }

  /** What a replacement's sale does to the attempt. */
  lemma CommitReplacementDone(w: World, o: OrderId)
    requires Enabled(w, CommitReplacement(o))
    ensures Do(w, CommitReplacement(o))
         == match CommitHolds(w.ledger, Shortfall(o, w.orders[o].items[w.jobs[o].item].variant), Some(o))
            case Err(_) => w.(jobs := Without(w.jobs, o))
            case Ok((l', _)) => SetJob(w.(ledger := l'), o, ItemDone(w.orders[o], w.jobs[o]))
  {}

  lemma {:induction false} TwiceAsked(lines: seq<Line>, i: nat, k: nat)
    requires i < k < |lines| && lines[i].variant == lines[k].variant
    ensures |OfVariant(lines, lines[i].variant)| >= 2
  {
    var init := lines[..|lines| - 1];
    if k < |init| {
      TwiceAsked(init, i, k);
    } else {
      OfVariantMember(init, lines[i]);
      assert init[i] == lines[i];
    }
  }

  /** The later lines are of other variants, so what is counted for them is untouched. */
  lemma ItemDoneGets(ord: Order, j: Job, k: nat)
    requires OncePerVariant(ord.items) && j.item < k < |ord.items|
    ensures Get(ItemDone(ord, j).committed, ord.items[k].variant) == Get(j.committed, ord.items[k].variant)
  {
    assert ord.items[k].variant != ord.items[j.item].variant by {
      if ord.items[k].variant == ord.items[j.item].variant {
        TwiceAsked(ord.items, j.item, k);
      }
    }
  }

  lemma ItemCovered(l: Ledger, o: OrderId, ord: Order, j: Job)
    requires JobOk(l, o, ord, j) && j.covering && Sure(j) && OncePerVariant(ord.items) && j.item < |ord.items|
    requires Settled(l.book, Shortfall(o, ord.items[j.item].variant))
    ensures JobOk(l, o, ord, ItemDone(ord, j)) && (Knows(l, ord, j) ==> Knows(l, ord, ItemDone(ord, j)))
  {
    assert Covered(l, o, ord, ord.items[j.item]);
    forall k | j.item < k < |ord.items|
      ensures Get(ItemDone(ord, j).committed, ord.items[k].variant) == Get(j.committed, ord.items[k].variant)
    {
      ItemDoneGets(ord, j, k);
    }
  }

  lemma CommitReplacementKeeps(w: World, opening: map<int, int>, o: OrderId)
    requires WorldOk(w, opening) && Enabled(w, CommitReplacement(o))
    ensures WorldOk(Do(w, CommitReplacement(o)), opening)
  {
    var ord, j := w.orders[o], w.jobs[o];
    var d := Shortfall(o, ord.items[j.item].variant);
    CommitReplacementDone(w, o);
    InFlightFacts(w, opening, o);
    CommitFrame(w, opening, d, o);
    var l' := CommitHolds(w.ledger, d, Some(o)).value.0;
    JobStable(w.ledger, l', o, ord, j);
    ItemCovered(l', o, ord, j);
    SetJobKeeps(w.(ledger := l'), opening, o, ItemDone(ord, j));
  }

  lemma FinishDone(w: World, o: OrderId)
    requires Enabled(w, Finish(o))
    ensures var j := w.jobs[o];
            && o in w.orders && j.pos == |j.receipts| && !HasUnknown(j.receipts)
            && Do(w, Finish(o))
               == SetOrder(w.(jobs := Without(w.jobs, o)), o, w.orders[o].(receipts := j.receipts)).(outbox := w.outbox + j.staged)
  {}

  lemma StagedAdded(orders: Orders, outbox: seq<Message>, staged: seq<Message>)
    requires MessagesOk(orders, outbox) && CountsOk(orders, outbox)
    requires forall k :: 0 <= k < |staged| ==> staged[k].payload.StockCommit? && MessageOk(orders, staged[k])
    ensures MessagesOk(orders, outbox + staged) && CountsOk(orders, outbox + staged)
  {
    forall o
      ensures Total(outbox + staged, FulfilFor(o)) == Total(outbox, FulfilFor(o))
      ensures Total(outbox + staged, RestoreFor(o)) == Total(outbox, RestoreFor(o))
    {
      TotalAppend(outbox, staged, FulfilFor(o));
      TotalAppend(outbox, staged, RestoreFor(o));
      NoMessages(staged, FulfilFor(o));
      NoMessages(staged, RestoreFor(o));
    }
  }

  lemma FinishKeeps(w: World, opening: map<int, int>, o: OrderId)
    requires WorldOk(w, opening) && Enabled(w, Finish(o))
    ensures WorldOk(Do(w, Finish(o)), opening)
  {
    FinishDone(w, o);
    var ord, j := w.orders[o], w.jobs[o];
    var ord' := ord.(receipts := j.receipts);
    assert OrderOk(w.ledger, ord) && JobOk(w.ledger, o, ord, j) && Counts(w.ledger, ord, j);
    AbortKeeps(w, opening, o);
    assert Checkouts(ord'.receipts) == Checkouts(ord.receipts);
    RowFrame(w.(jobs := Without(w.jobs, o)), opening, o, ord');
    StagedAdded(w.orders[o := ord'], w.outbox, j.staged);
  }

  // ------------------------------------------------------------ reconciliation and redelivery

  /** A receipt in doubt is its order's only one, and the order is not paid. */
  lemma DoubtFacts(w: World, opening: map<int, int>, o: OrderId, i: nat)
    requires WorldOk(w, opening) && Enabled(w, ReconcileCommit(o, i))
    ensures o in w.orders && OrderOk(w.ledger, w.orders[o]) && !PaidLike(w.orders[o].status)
    ensures i == 0 && |w.orders[o].receipts| == 1 && w.orders[o].receipts[i].checkout == Own(w.orders[o])
    ensures Do(w, ReconcileCommit(o, i)) == w.(ledger := Next(w.ledger, Commit(Own(w.orders[o]), Some(o))))
  {
    assert OrderOk(w.ledger, w.orders[o]);
  }

  lemma ReconcileCommitKeeps(w: World, opening: map<int, int>, o: OrderId, i: nat)
    requires WorldOk(w, opening) && Enabled(w, ReconcileCommit(o, i))
    ensures WorldOk(Do(w, ReconcileCommit(o, i)), opening)
  {
    DoubtFacts(w, opening, o, i);
    CommitFrame(w, opening, Own(w.orders[o]), o);
  }

  /** What a stock commit in the outbox names. */
  lemma StockCommitFacts(w: World, opening: map<int, int>, k: nat)
    requires WorldOk(w, opening) && k < |w.outbox| && w.outbox[k].payload.StockCommit?
    ensures var p := w.outbox[k].payload;
            && p.order in w.orders && PaidLike(w.orders[p.order].status) && p.checkout == Own(w.orders[p.order])
            && |w.orders[p.order].receipts| == 1 && w.orders[p.order].receipts[0].state == Consumed
            && Settled(w.ledger.book, p.checkout)
  {
    assert MessageOk(w.orders, w.outbox[k]);
    assert OrderOk(w.ledger, w.orders[w.outbox[k].payload.order]);
  }

  /** Committing a settled group changes nothing. */
  lemma SettledIsFinal(l: Ledger, c: CheckoutId, o: OrderId)
    requires Settled(l.book, c)
    ensures Next(l, Commit(c, Some(o))) == l
  {
    if CommitHolds(l, c, Some(o)).Ok? {
      SettledCommitIsIdle(l.book, c, Some(o), |l.book.holds|);
    }
  }

  lemma NothingToRedeliver(w: World, k: nat)
    requires k < |w.outbox| ==> !w.outbox[k].payload.StockCommit?
    ensures NextWorld(w, RedeliverCommit(k)) == w && NextWorld(w, RedeliverSave(k)) == w
  {}

  lemma RedeliverDone(w: World, k: nat)
    requires k < |w.outbox| && w.outbox[k].payload.StockCommit?
    requires var p := w.outbox[k].payload;
             && Next(w.ledger, Commit(p.checkout, Some(p.order))) == w.ledger && p.order in w.orders
             && w.orders[p.order := w.orders[p.order].(receipts := UpdateGroup(w.orders[p.order].receipts, p.checkout, Consumed))] == w.orders
    ensures NextWorld(w, RedeliverCommit(k)) == w && NextWorld(w, RedeliverSave(k)) == w
  {}

  /** A redelivered stock commit finds its group settled: it changes nothing anywhere. */
  lemma RedeliverIsIdle(w: World, opening: map<int, int>, k: nat)
    requires WorldOk(w, opening)
    ensures NextWorld(w, RedeliverCommit(k)) == w && NextWorld(w, RedeliverSave(k)) == w
  {
    if k < |w.outbox| && w.outbox[k].payload.StockCommit? {
      var c, o := w.outbox[k].payload.checkout, w.outbox[k].payload.order;
      StockCommitFacts(w, opening, k);
      SettledIsFinal(w.ledger, c, o);
      SavedAlready(w.orders, c, o);
      RedeliverDone(w, k);
    } else {
      NothingToRedeliver(w, k);
    }
  }

  lemma SavedAlready(orders: Orders, c: CheckoutId, o: OrderId)
    requires o in orders && |orders[o].receipts| == 1 && orders[o].receipts[0].state == Consumed
    ensures orders[o := orders[o].(receipts := UpdateGroup(orders[o].receipts, c, Consumed))] == orders
  {
    assert UpdateGroup(orders[o].receipts, c, Consumed) == orders[o].receipts;
  }

  // ------------------------------------------------------------ every move, every run

  /** A move of a fulfilment attempt. */
  predicate AttemptMove(m: Move) {
    m.Begin? || m.CommitReceipt? || m.PassItem? || m.ReserveReplacement? || m.CommitReplacement? || m.Finish? || m.Abort?
  }

  /** The moves of an attempt that go to the ledger. */
  lemma AskingMoveKeeps(w: World, opening: map<int, int>, m: Move)
    requires WorldOk(w, opening) && Enabled(w, m) && (m.CommitReceipt? || m.ReserveReplacement? || m.CommitReplacement?)
    ensures WorldOk(Do(w, m), opening)
  {
    match m
    case CommitReceipt(o, outcome) => ReceiptKeeps(w, opening, o, outcome);
    case ReserveReplacement(o, e) => ReserveReplacementKeeps(w, opening, o, e);
    case CommitReplacement(o) => CommitReplacementKeeps(w, opening, o);
  }

  lemma AttemptMoveKeeps(w: World, opening: map<int, int>, m: Move)
    requires WorldOk(w, opening) && Enabled(w, m) && AttemptMove(m)
    ensures WorldOk(Do(w, m), opening)
  {
    if m.Begin? {
      BeginKeeps(w, opening, m.order);
    } else if m.PassItem? {
      PassItemKeeps(w, opening, m.order);
    } else if m.Finish? {
      FinishKeeps(w, opening, m.order);
    } else if m.Abort? {
      AbortKeeps(w, opening, m.order);
    } else {
      AskingMoveKeeps(w, opening, m);
    }
  }

  /** Handlers, sweeps and the warehouse. */
  lemma HandlerMoveKeeps(w: World, opening: map<int, int>, m: Move)
    requires WorldOk(w, opening) && Enabled(w, m)
    requires m.DeliverRefund? || m.ReconcileCommit? || m.RedeliverCommit? || m.RedeliverSave? || m.Mark? || m.Stock?
    ensures WorldOk(Do(w, m), opening)
  {
    match m
    case DeliverRefund(k) => DeliverRefundKeeps(w, opening, k);
    case ReconcileCommit(o, i) => ReconcileCommitKeeps(w, opening, o, i);
    case RedeliverCommit(k) => RedeliverIsIdle(w, opening, k);
    case RedeliverSave(k) => RedeliverIsIdle(w, opening, k);
    case Mark(k, s) => MarkKeeps(w, opening, k, s);
    case Stock(s) => StockKeeps(w, opening, s);
  }

  lemma OtherMoveKeeps(w: World, opening: map<int, int>, m: Move)
    requires WorldOk(w, opening) && Enabled(w, m) && !AttemptMove(m) && !RowMove(m)
    ensures WorldOk(Do(w, m), opening)
  {
    if m.Place? {
      PlaceKeeps(w, opening, m.checkout, m.items, m.expiresAt);
    } else if m.Build? {
      BuildKeeps(w, opening, m.checkout, m.order);
    } else if m.Confirm? {
      ConfirmKeeps(w, opening, m.order);
    } else if m.Refund? {
      RefundKeeps(w, opening, m.order);
    } else {
      HandlerMoveKeeps(w, opening, m);
    }
  }

  /** Every committed transaction of either database keeps every clause. */
  lemma MoveKeeps(w: World, opening: map<int, int>, m: Move)
    requires WorldOk(w, opening)
    ensures WorldOk(NextWorld(w, m), opening)
  {
    if Enabled(w, m) {
      if AttemptMove(m) {
        AttemptMoveKeeps(w, opening, m);
      } else if RowMove(m) {
        OrderRowKeeps(w, opening, m);
      } else {
        OtherMoveKeeps(w, opening, m);
      }
    }
  }

  lemma StartOk(opening: map<int, int>)
    requires forall v :: v in opening ==> opening[v] >= 0
    ensures WorldOk(Start(opening), opening) && HeardOk(Start(opening))
  {
    OpenedOk(opening);
    forall o, v ensures SoldUnits(Start(opening).ledger.book, o, v) == 0 && ReturnedUnits(Start(opening).ledger.book, o, v) == 0 {}
  }

  /** So every run keeps them, and its ledger only grows older. */
  lemma {:induction false} RunKeepsWorld(w: World, opening: map<int, int>, moves: seq<Move>)
    requires WorldOk(w, opening)
    ensures WorldOk(RunWorld(w, moves), opening) && Later(w.ledger, RunWorld(w, moves).ledger)
  {
    if moves == [] {
      SameLater(w.ledger);
    } else {
      var n := |moves| - 1;
      var u := RunWorld(w, moves[..n]);
      RunKeepsWorld(w, opening, moves[..n]);
      MoveKeeps(u, opening, moves[n]);
      MoveLater(u, opening, moves[n]);
      LaterTransitive(w.ledger, u.ledger, RunWorld(w, moves).ledger);
    }
  }

  lemma EveryRunOk(opening: map<int, int>, moves: seq<Move>)
    requires forall v :: v in opening ==> opening[v] >= 0
    ensures WorldOk(RunWorld(Start(opening), moves), opening)
  {
    StartOk(opening);
    RunKeepsWorld(Start(opening), opening, moves);
  }
}
