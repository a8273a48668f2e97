/**
 * What every state of every run satisfies (`WorldOk`), and what holds besides in runs
 * whose commits are answered (`HeardOk`). Each clause names only the tables it is about.
 */
module SagaInvariant {
  import opened Wrappers
  import opened Totals
  import opened Lines
  import opened Books
  import opened Ledgers
  import opened LedgerEffects
  import opened Saga

  type Orders = map<OrderId, Order>

  // ------------------------------------------------------------ every run

  /** Payment and receipt agree with the status. */
  predicate StatusOk(ord: Order) {
    && (PaidLike(ord.status) <==> ord.payment == Recorded(PayPaid))
    && |ord.receipts| == 1
    && (ord.payment != SessionFailed && ord.status != Cancelled ==>
          ord.receipts[0].state == Held || ord.receipts[0].state == Consumed)
  }

  /** The items a checkout id was reserved for. */
  ghost predicate ReservedFor(l: Ledger, c: CheckoutId, items: seq<Line>) {
    && c.Minted? && ReserveKey(c) in l.keys && l.keys[ReserveKey(c)] == SortLines(items)
    && Stocked(items, l.book.stock)
  }

  /** The order's own group was reserved for its items, and a receipt recorded as consumed tells the truth. */
  ghost predicate OrderOk(l: Ledger, ord: Order) {
    && StatusOk(ord) && ReservedFor(l, Own(ord), ord.items) && OncePerVariant(ord.items)
    && (ord.receipts[0].state == Consumed ==> Settled(l.book, Own(ord)))
  }

  ghost predicate OrdersOk(l: Ledger, orders: Orders) {
    forall o :: o in orders ==> OrderOk(l, orders[o])
  }

  ghost predicate CartsOk(l: Ledger, carts: map<CheckoutId, seq<Line>>) {
    forall c :: c in carts ==> ReservedFor(l, c, carts[c]) && OncePerVariant(carts[c])
  }

  /** No two orders, and no order and cart, share a checkout id. */
  ghost predicate Apart(orders: Orders, carts: map<CheckoutId, seq<Line>>) {
    && (forall o, p :: o in orders && p in orders && o != p ==> Own(orders[o]) != Own(orders[p]))
    && (forall o :: o in orders ==> Own(orders[o]) !in carts)
  }

  /** A sold row names its order, and sits in that order's group or in its replacement group. */
  predicate OwnedBy(orders: Orders, h: Hold) {
    && h.order.Some? && h.order.value in orders
    && (h.checkout == Own(orders[h.order.value]) || h.checkout == Shortfall(h.order.value, h.variant))
  }

  ghost predicate SalesOwned(b: Book, orders: Orders) {
    forall i :: 0 <= i < |b.holds| && b.holds[i].status == Committed ==> OwnedBy(orders, b.holds[i])
  }

  /** A replacement is reserved for its whole line, once the order's own group is settled. */
  ghost predicate ReplacementOk(l: Ledger, orders: Orders, o: OrderId, v: int) {
    ReserveKey(Shortfall(o, v)) in l.keys ==>
      && o in orders && Settled(l.book, Own(orders[o]))
      && l.keys[ReserveKey(Shortfall(o, v))] == [Line(v, Units(orders[o].items, v))]
  }

  ghost predicate ReplacementsOk(l: Ledger, orders: Orders) {
    forall o, v :: ReplacementOk(l, orders, o, v)
  }

  /** What a line's group did not sell has a settled replacement. */
  ghost predicate Covered(l: Ledger, o: OrderId, ord: Order, x: Line) {
    CommittedIn(l.book, Own(ord), x.variant) < x.qty ==>
      ReserveKey(Shortfall(o, x.variant)) in l.keys && Settled(l.book, Shortfall(o, x.variant))
  }

  /** Past its receipt, an attempt counts for each line to come what its group sold, or nothing. */
  ghost predicate Counts(l: Ledger, ord: Order, j: Job) {
    && |j.receipts| == 1 && j.receipts[0].state == Consumed && Settled(l.book, Own(ord))
    && forall k :: j.item <= k < |ord.items| ==>
         Get(j.committed, ord.items[k].variant) in {0, CommittedIn(l.book, Own(ord), ord.items[k].variant)}
  }

  /** Past its receipt, with nothing in doubt. */
  predicate Sure(j: Job) { j.pos == 1 && !HasUnknown(j.receipts) }

  ghost predicate JobOk(l: Ledger, o: OrderId, ord: Order, j: Job) {
    && Fulfilling(ord.status)
    && |j.receipts| == 1 && j.receipts[0].checkout == Own(ord)
    && j.pos <= 1 && j.item <= |ord.items|
    && (forall k :: 0 <= k < |j.staged| ==> j.staged[k].payload == StockCommit(Own(ord), o))
    && (j.pos == 0 ==> j.receipts == ord.receipts && j.staged == [] && j.committed == map[])
    && (!Sure(j) ==> j.item == 0 && !j.covering)
    && (Sure(j) ==> Counts(l, ord, j))
    && (j.covering ==> j.item < |ord.items| && ReserveKey(Shortfall(o, ord.items[j.item].variant)) in l.keys)
    && (forall k :: 0 <= k < j.item ==> Covered(l, o, ord, ord.items[k]))
  }

  ghost predicate JobsOk(l: Ledger, orders: Orders, jobs: map<OrderId, Job>) {
    forall o :: o in jobs ==> o in orders && JobOk(l, o, orders[o], jobs[o])
  }

  function FulfilFor(o: OrderId): Message -> int {
    (m: Message) => if m.payload == FulfilStock(o) then 1 else 0
  }

  function RestoreFor(o: OrderId): Message -> int {
    (m: Message) => if m.payload.RestoreStock? && m.payload.order == o then 1 else 0
  }

  /** A stock commit names a paid order's own group, which Orders records as consumed. */
  predicate MessageOk(orders: Orders, m: Message) {
    match m.payload
    case FulfilStock(o) => o in orders
    case StockCommit(c, o) =>
      && o in orders && c == Own(orders[o]) && PaidLike(orders[o].status)
      && orders[o].receipts != [] && orders[o].receipts[0].state == Consumed
    case RestoreStock(o, lines, cs) =>
      o in orders && orders[o].status == Refunded && lines == orders[o].items && cs == Checkouts(orders[o].receipts)
  }

  ghost predicate MessagesOk(orders: Orders, outbox: seq<Message>) {
    forall k :: 0 <= k < |outbox| ==> MessageOk(orders, outbox[k])
  }

  /** One fulfilment message per paid order, one restore message per refunded one. */
  ghost predicate CountsOk(orders: Orders, outbox: seq<Message>) {
    forall o :: o in orders ==>
      && Total(outbox, FulfilFor(o)) == (if PaidLike(orders[o].status) then 1 else 0)
      && Total(outbox, RestoreFor(o)) == (if orders[o].status == Refunded then 1 else 0)
  }

  /** A restored order got back what it was sold, up to what it ordered; no other order got anything back. */
  ghost predicate RefundsOk(l: Ledger, orders: Orders) {
    && (forall o :: RefundKey(o) in l.keys ==>
          && o in orders && orders[o].status == Refunded
          && l.keys[RefundKey(o)] == SortLines(SortLines(orders[o].items)))
    && (forall o, v :: ReturnedUnits(l.book, o, v)
          == if RefundKey(o) in l.keys && o in orders
             then Min(Units(orders[o].items, v), SoldUnits(l.book, o, v)) else 0)
  }

  ghost predicate WorldOk(w: World, opening: map<int, int>) {
    && LedgerOk(w.ledger, opening)
    && OrdersOk(w.ledger, w.orders) && CartsOk(w.ledger, w.carts) && Apart(w.orders, w.carts)
    && SalesOwned(w.ledger.book, w.orders) && ReplacementsOk(w.ledger, w.orders)
    && JobsOk(w.ledger, w.orders, w.jobs)
    && MessagesOk(w.orders, w.outbox) && CountsOk(w.orders, w.outbox) && RefundsOk(w.ledger, w.orders)
  }

  // ------------------------------------------------------------ heard runs

  /** Only lines the order's own group did not sell were replaced. */
  ghost predicate ReplacedUnsold(l: Ledger, orders: Orders) {
    forall o, v :: o in orders && ReserveKey(Shortfall(o, v)) in l.keys ==> CommittedIn(l.book, Own(orders[o]), v) == 0
  }

  /** The attempt knows what its group sold, for every line it has yet to look at. */
  ghost predicate Knows(l: Ledger, ord: Order, j: Job) {
    forall k :: j.item <= k < |ord.items| ==>
      Get(j.committed, ord.items[k].variant) == CommittedIn(l.book, Own(ord), ord.items[k].variant)
  }

  ghost predicate HeardJob(l: Ledger, ord: Order, j: Job) {
    && (forall k :: 0 <= k < |j.staged| && j.staged[k].state == Queued ==> HasUnknown(j.receipts))
    && (Sure(j) ==> Knows(l, ord, j))
  }

  ghost predicate HeardJobs(l: Ledger, orders: Orders, jobs: map<OrderId, Job>) {
    forall o :: o in jobs && o in orders ==> HeardJob(l, orders[o], jobs[o])
  }

  /** No stock commit is left for redelivery. */
  ghost predicate NoneQueued(outbox: seq<Message>) {
    forall k :: 0 <= k < |outbox| && outbox[k].payload.StockCommit? ==> outbox[k].state != Queued
  }

  ghost predicate HeardOk(w: World) {
    ReplacedUnsold(w.ledger, w.orders) && HeardJobs(w.ledger, w.orders, w.jobs) && NoneQueued(w.outbox)
  }

  // ------------------------------------------------------------ what it says about sales

  /** An order's sales are what its own group and its replacement group committed. */
  lemma SoldSplit(l: Ledger, opening: map<int, int>, orders: Orders, o: OrderId, v: int)
    requires LedgerOk(l, opening) && OrdersOk(l, orders) && SalesOwned(l.book, orders) && o in orders
    requires forall p :: p in orders && p != o ==> Own(orders[p]) != Own(orders[o])
    ensures SoldUnits(l.book, o, v) == CommittedIn(l.book, Own(orders[o]), v) + CommittedIn(l.book, Shortfall(o, v), v)
  {
    var b, c := l.book, Own(orders[o]);
    assert OrderOk(l, orders[o]);
    forall i | 0 <= i < |b.holds|
      ensures CommittedFor(Some(o), v)(b.holds[i])
           == CommittedOf(c, v)(b.holds[i]) + CommittedOf(Shortfall(o, v), v)(b.holds[i])
    {
      if b.holds[i].status == Committed {
        assert OwnedBy(orders, b.holds[i]);
        var p := b.holds[i].order.value;
        assert p in orders && OrderOk(l, orders[p]);
      }
    }
    TotalSplit(b.holds, CommittedFor(Some(o), v), CommittedOf(c, v), CommittedOf(Shortfall(o, v), v));
  }

  /** An unclaimed id has committed nothing and lost nothing. */
  lemma UnclaimedSoldNothing(l: Ledger, opening: map<int, int>, c: CheckoutId, v: int)
    requires LedgerOk(l, opening) && ReserveKey(c) !in l.keys
    ensures CommittedIn(l.book, c, v) == 0 && !LostRow(l.book, c) && Settled(l.book, c)
  {
    assert GroupOk(l, c);
    EmptyGroup(l.book.holds, c);
    NoRowsTotal(l.book.holds, c, v);
  }

  lemma SingleUnits(v: int, q: int)
    ensures Units([Line(v, q)], v) == q && |OfVariant([Line(v, q)], v)| <= 1
  {
    TotalSnoc([], Line(v, q), UnitsOf(v));
    OfVariantSnoc([], Line(v, q), v);
    assert [] + [Line(v, q)] == [Line(v, q)];
  }

  /** An order's own group sells all of a line or none of it. */
  lemma OwnAllOrNone(l: Ledger, opening: map<int, int>, ord: Order, v: int)
    requires LedgerOk(l, opening) && OrderOk(l, ord)
    ensures CommittedIn(l.book, Own(ord), v) == 0 || CommittedIn(l.book, Own(ord), v) == Units(ord.items, v)
  {
    assert GroupOk(l, Own(ord)) && |OfVariant(ord.items, v)| <= 1;
    SortKeeps(ord.items, v);
    CommittedOnce(l.book.holds, Own(ord), v);
  }

  /** So does its replacement. */
  lemma ReplacementAllOrNone(l: Ledger, opening: map<int, int>, orders: Orders, o: OrderId, v: int)
    requires LedgerOk(l, opening) && ReplacementsOk(l, orders) && o in orders
    ensures var sold := CommittedIn(l.book, Shortfall(o, v), v); sold == 0 || sold == Units(orders[o].items, v)
  {
    if ReserveKey(Shortfall(o, v)) in l.keys {
      assert ReplacementOk(l, orders, o, v) && GroupOk(l, Shortfall(o, v));
      SingleUnits(v, Units(orders[o].items, v));
      CommittedOnce(l.book.holds, Shortfall(o, v), v);
    } else {
      UnclaimedSoldNothing(l, opening, Shortfall(o, v), v);
    }
  }

  /** A replacement's row has at least one unit, so there was something to replace. */
  lemma ReplacementRow(l: Ledger, opening: map<int, int>, d: CheckoutId, x: Line)
    requires LedgerOk(l, opening) && GroupLines(l.book.holds, d) == [x]
    ensures x.qty >= 1
  {
    var k := OnlyRow(l.book.holds, d, x);
    assert HoldOk(l.book, l.book.holds[k]);
  }

  /** A settled replacement sold its whole line exactly when its row was not lost. */
  lemma ReplacementSold(l: Ledger, opening: map<int, int>, orders: Orders, o: OrderId, v: int)
    requires LedgerOk(l, opening) && ReplacementsOk(l, orders)
    requires ReserveKey(Shortfall(o, v)) in l.keys && Settled(l.book, Shortfall(o, v))
    ensures o in orders && Units(orders[o].items, v) >= 1
    ensures CommittedIn(l.book, Shortfall(o, v), v) == if LostRow(l.book, Shortfall(o, v)) then 0 else Units(orders[o].items, v)
  {
    assert ReplacementOk(l, orders, o, v) && GroupOk(l, Shortfall(o, v));
    ReplacementRow(l, opening, Shortfall(o, v), Line(v, Units(orders[o].items, v)));
    SettledSingle(l.book, Shortfall(o, v), Line(v, Units(orders[o].items, v)));
  }

  /** In every state of every run, a line's own group and its replacement each sold all of it or nothing. */
  lemma SoldParts(w: World, opening: map<int, int>, o: OrderId, v: int)
    requires WorldOk(w, opening) && o in w.orders
    ensures var own, replaced := CommittedIn(w.ledger.book, Own(w.orders[o]), v), CommittedIn(w.ledger.book, Shortfall(o, v), v);
            var ordered := Units(w.orders[o].items, v);
            && SoldUnits(w.ledger.book, o, v) == own + replaced
            && (own == 0 || own == ordered) && (replaced == 0 || replaced == ordered)
            && 0 <= own && 0 <= replaced && 0 <= ordered
  {
    assert OrderOk(w.ledger, w.orders[o]);
    SoldSplit(w.ledger, opening, w.orders, o, v);
    OwnAllOrNone(w.ledger, opening, w.orders[o], v);
    ReplacementAllOrNone(w.ledger, opening, w.orders, o, v);
    TotalNonNegative(w.orders[o].items, UnitsOf(v));
    assert OncePerVariant(w.orders[o].items);
  }

  /** In a heard state a line is never sold twice. */
  lemma SoldAtMostOnce(w: World, opening: map<int, int>, o: OrderId, v: int)
    requires WorldOk(w, opening) && HeardOk(w) && o in w.orders
    ensures 0 <= SoldUnits(w.ledger.book, o, v) <= Units(w.orders[o].items, v)
  {
    SoldParts(w, opening, o, v);
    if ReserveKey(Shortfall(o, v)) !in w.ledger.keys {
      UnclaimedSoldNothing(w.ledger, opening, Shortfall(o, v), v);
    }
  }

  /** A covered line is sold in full by its own group, or by a replacement that was not lost. */
  lemma CoveredSold(w: World, opening: map<int, int>, o: OrderId, k: nat)
    requires WorldOk(w, opening) && o in w.orders && k < |w.orders[o].items|
    requires Covered(w.ledger, o, w.orders[o], w.orders[o].items[k])
    ensures var x := w.orders[o].items[k];
            var own := CommittedIn(w.ledger.book, Own(w.orders[o]), x.variant);
            && x.qty >= 1 && Units(w.orders[o].items, x.variant) == x.qty && (own == 0 || own == x.qty)
            && (SoldUnits(w.ledger.book, o, x.variant) >= x.qty
                <==> own == x.qty || !LostRow(w.ledger.book, Shortfall(o, x.variant)))
  {
    var x := w.orders[o].items[k];
    assert OrderOk(w.ledger, w.orders[o]);
    LineIsTotal(w.orders[o].items, k);
    SoldParts(w, opening, o, x.variant);
    if CommittedIn(w.ledger.book, Own(w.orders[o]), x.variant) < x.qty {
      ReplacementSold(w.ledger, opening, w.orders, o, x.variant);
    }
  }
}
