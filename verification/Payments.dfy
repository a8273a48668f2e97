/**
 * Payment and lifecycle transactions on the Orders database
 * (apps/payments/providers/simulated.py, apps/payments/providers/paymongo.py,
 * apps/orders/models.py `transition_to`, apps/orders/admin.py, apps/payments/holds.py
 * `consume_order_holds`).
 */
module Payments {
  import opened Wrappers
  import opened Books
  import opened Ledgers
  import opened LocalProvider
  import opened Saga
  import opened Fulfilment

  /** `Order.transition_to`: the one way a stored status changes. */
  method TransitionTo(shop: Shop, o: OrderId, target: OrderStatus) returns (r: Result<(), ShopError>)
    modifies shop`orders
    ensures r.Ok? <==> o in old(shop.orders) && Allowed(old(shop.orders)[o].status, target)
    ensures r.Ok? <==> o in old(shop.orders) && (old(shop.orders)[o].status, target) in
                         {(Pending, Paid), (Pending, Cancelled), (Paid, Packed), (Packed, Shipped), (Shipped, Delivered),
                          (Paid, Refunded), (Packed, Refunded), (Shipped, Refunded), (Delivered, Refunded)}
    ensures r.Err? ==> r.error == if o in old(shop.orders) then IllegalTransition else Missing
    ensures shop.orders
         == if r.Ok? then old(shop.orders)[o := old(shop.orders)[o].(status := target)] else old(shop.orders)
  {
    if o !in shop.orders {
      return Err(Missing);
    }
    if !Allowed(shop.orders[o].status, target) {
      return Err(IllegalTransition);
    }
    shop.orders := shop.orders[o := shop.orders[o].(status := target)];
    return Ok(());
  }

  /** Other than to paid and to refunded, which carry an instruction, a transition is a move of its own. */
  lemma TransitionIsMove(w: World, o: OrderId, target: OrderStatus)
    requires w.jobs == map[] && target != Paid && target != Refunded
    ensures NextWorld(w, Transition(o, target))
         == if o in w.orders && Allowed(w.orders[o].status, target)
            then w.(orders := w.orders[o := w.orders[o].(status := target)]) else w
  {}

  /**
   * `confirm_order_paid`: the payment, the order's status and the fulfilment
   * instruction commit together or not at all; a repeat returns False and writes nothing.
   */
  method ConfirmOrderPaid(shop: Shop, o: OrderId) returns (r: Result<bool, ShopError>)
    modifies shop`orders, shop`outbox
    ensures shop.Now() == NextWorld(old(shop.Now()), Confirm(o))
    ensures r == Ok(true) <==> Enabled(old(shop.Now()), Confirm(o))
    ensures r == Ok(false) <==> AlreadyPaid(old(shop.orders), o)
    ensures r.Err? <==> CannotBePaid(old(shop.orders), o)
    ensures r == Ok(true) <==>
              && o in old(shop.orders) && old(shop.orders)[o].status == Pending
              && old(shop.orders)[o].payment in {Recorded(PayPending), Recorded(PayFailed)}
    ensures r == Ok(false) <==> o in old(shop.orders) && old(shop.orders)[o].payment == Recorded(PayPaid)
    ensures r == Ok(true) ==>
              && shop.orders == old(shop.orders)[o := old(shop.orders)[o].(status := Paid, payment := Recorded(PayPaid))]
              && shop.outbox == old(shop.outbox) + [Message(FulfilStock(o), Queued)]
    ensures r != Ok(true) ==> shop.orders == old(shop.orders) && shop.outbox == old(shop.outbox)
    ensures r.Err? ==> r.error == if o in old(shop.orders) && old(shop.orders)[o].payment.Recorded? then IllegalTransition else Missing
  {
    if o !in shop.orders || !shop.orders[o].payment.Recorded? {
      return Err(Missing);
    }
    if shop.orders[o].payment.status == PayPaid {
      return Ok(false);
    }
    var savedOrders, savedOutbox := shop.orders, shop.outbox;
    shop.orders := shop.orders[o := shop.orders[o].(payment := Recorded(PayPaid))];
    shop.outbox := shop.outbox + [Message(FulfilStock(o), Queued)];
    var moved := TransitionTo(shop, o, Paid);
    if moved.Err? {
      shop.orders, shop.outbox := savedOrders, savedOutbox;
      return Err(moved.error);
    }
    PaidRow(savedOrders, o);
    return Ok(true);
  }

  lemma PaidRow(orders: map<OrderId, Order>, o: OrderId)
    requires o in orders
    ensures var p := orders[o := orders[o].(payment := Recorded(PayPaid))];
            p[o := p[o].(status := Paid)] == orders[o := orders[o].(status := Paid, payment := Recorded(PayPaid))]
  {}

  /** `simulate_failure` and `simulate_cancellation`: a pending payment fails and its order is cancelled. */
  method SimulateFailure(shop: Shop, o: OrderId) returns (r: Result<bool, ShopError>)
    modifies shop`orders
    ensures shop.Now() == NextWorld(old(shop.Now()), FailPayment(o))
    ensures r == Ok(true) <==> Enabled(old(shop.Now()), FailPayment(o))
    ensures r == Ok(true) <==>
              o in old(shop.orders) && old(shop.orders)[o].status == Pending && old(shop.orders)[o].payment == Recorded(PayPending)
    ensures r == Ok(false) <==>
              o in old(shop.orders) && old(shop.orders)[o].payment in {Recorded(PayPaid), Recorded(PayFailed)}
    ensures shop.orders == if r == Ok(true)
                           then old(shop.orders)[o := old(shop.orders)[o].(status := Cancelled, payment := Recorded(PayFailed))]
                           else old(shop.orders)
  {
    if o !in shop.orders || !shop.orders[o].payment.Recorded? {
      return Err(Missing);
    }
    if shop.orders[o].payment.status != PayPending {
      return Ok(false);
    }
    var saved := shop.orders;
    shop.orders := shop.orders[o := shop.orders[o].(payment := Recorded(PayFailed))];
    var moved := TransitionTo(shop, o, Cancelled);
    if moved.Err? {
      shop.orders := saved;
      return Err(moved.error);
    }
    FailedRow(saved, o);
    return Ok(true);
  }

  lemma FailedRow(orders: map<OrderId, Order>, o: OrderId)
    requires o in orders
    ensures var p := orders[o := orders[o].(payment := Recorded(PayFailed))];
            p[o := p[o].(status := Cancelled)] == orders[o := orders[o].(status := Cancelled, payment := Recorded(PayFailed))]
  {}

  // ------------------------------------------------------------ payment, then the on-commit attempt

  /** `_retire`: the instruction was satisfied by the synchronous attempt. */
  method Retire(shop: Shop, k: nat)
    requires k < |shop.outbox|
    modifies shop`outbox
    ensures shop.outbox == old(shop.outbox)[k := old(shop.outbox)[k].(state := Sent)]
  {
    shop.outbox := shop.outbox[k := shop.outbox[k].(state := Sent)];
  }

  lemma MarkNext(w: World, k: nat)
    requires k < |w.outbox|
    ensures NextWorld(w, Mark(k, Sent)) == w.(outbox := w.outbox[k := w.outbox[k].(state := Sent)])
  {}

  lemma Retires(w: World, trace: seq<Move>, k: nat)
    requires k < |RunWorld(w, trace).outbox|
    ensures var w1 := RunWorld(w, trace);
            RunWorld(w, trace + [Mark(k, Sent)]) == w1.(outbox := w1.outbox[k := w1.outbox[k].(state := Sent)])
  {
    RunWorldSnoc(w, trace, Mark(k, Sent));
    MarkNext(RunWorld(w, trace), k);
  }

  /**
   * What an on-commit attempt at a paid order leaves of Orders: on success its held
   * receipts are consumed, their instructions recorded and its own instruction retired;
   * on failure nothing has changed and the instruction stays queued.
   */
  predicate AttemptLeaves(was: World, now: World, o: OrderId, k: nat, link: seq<Outcome>, done: bool)
    requires o in was.orders && k < |was.outbox|
  {
    var rows := was.orders[o].receipts;
    if done then
      && now.orders == SetReceipts(was.orders, o, UpdateHeld(rows, Consumed))
      && now.outbox == (was.outbox + Intents(rows, o, link, |rows|))[k := was.outbox[k].(state := Sent)]
    else now.orders == was.orders && now.outbox == was.outbox
  }

  /** An attempt at a paid order was made; in process, unless a receipt was in doubt, it went on to its end. */
  ghost predicate AttemptMade(was: World, trace: seq<Move>, o: OrderId, link: seq<Outcome>, done: bool) {
    && o in was.orders && trace != [] && trace[0] == Begin(o)
    && (link == [] && !HasUnknown(was.orders[o].receipts) ==> Unbroken(trace))
    && (done ==> Finished(was, trace[..|trace| - 1], o))
  }

  lemma RetiredTrace(was: World, trace: seq<Move>, o: OrderId, link: seq<Outcome>, k: nat)
    requires o in was.orders && trace != [] && trace[0] == Begin(o) && Finished(was, trace, o)
    requires link == [] && !HasUnknown(was.orders[o].receipts) ==> Unbroken(trace)
    ensures AttemptMade(was, trace + [Mark(k, Sent)], o, link, true)
  {
    var all := trace + [Mark(k, Sent)];
    assert all[..|all| - 1] == trace;
  }

  /** The attempt registered on commit: its failure is logged, its success retires the instruction. */
  method OnCommitAttempt(shop: Shop, o: OrderId, k: nat, link: seq<Outcome>, now: int)
    returns (done: bool, ghost trace: seq<Move>)
    requires k < |shop.outbox| && shop.outbox[k].payload == FulfilStock(o)
    requires o in shop.orders && shop.orders[o].status in {Paid, Packed, Shipped, Delivered}
    modifies shop`orders, shop`outbox, shop.ledger
    ensures shop.Now() == RunWorld(old(shop.Now()), trace)
    ensures AttemptLeaves(old(shop.Now()), shop.Now(), o, k, link, done)
    ensures AttemptMade(old(shop.Now()), trace, o, link, done)
  {
    ghost var was := shop.Now();
    var r;
    r, trace := shop.DeliverOrderStock(o, link, now);
    done := r.Ok?;
    if done {
      Retires(was, trace, k);
      RetiredTrace(was, trace, o, link, k);
      trace := trace + [Mark(k, Sent)];
      Retire(shop, k);
    }
  }

  /**
   * A first confirmation and its attempt. The attempt is made whatever comes of it; when
   * it fails the order stays paid and its instruction stays queued.
   */
  method ConfirmAndAttempt(shop: Shop, o: OrderId, link: seq<Outcome>, now: int)
    returns (r: Result<bool, ShopError>, done: bool, ghost trace: seq<Move>)
    modifies shop`orders, shop`outbox, shop.ledger
    ensures shop.Now() == RunWorld(old(shop.Now()), trace)
    ensures r == Ok(true) <==> Enabled(old(shop.Now()), Confirm(o))
    ensures r == Ok(true) ==>
              var paid, k := NextWorld(old(shop.Now()), Confirm(o)), |old(shop.outbox)|;
              && o in paid.orders && k < |paid.outbox| && paid.outbox[k] == Message(FulfilStock(o), Queued)
              && AttemptLeaves(paid, shop.Now(), o, k, link, done)
              && trace != [] && trace[0] == Confirm(o) && AttemptMade(paid, trace[1..], o, link, done)
    ensures r != Ok(true) ==> shop.Now() == old(shop.Now())
  {
    ghost var w := shop.Now();
    var k := |shop.outbox|;
    r := ConfirmOrderPaid(shop, o);
    trace := [Confirm(o)];
    done := false;
    RunWorldOne(w, Confirm(o));
    if r == Ok(true) {
      assert shop.outbox[k] == Message(FulfilStock(o), Queued);
      ghost var more;
      done, more := OnCommitAttempt(shop, o, k, link, now);
      RunWorldAppend(w, trace, more);
      assert (trace + more)[1..] == more;
      trace := trace + more;
    }
  }

  // ------------------------------------------------------------ cancellation by the merchant

  /** The row releases of a ledger call, as moves. */
  function StockMoves(steps: seq<Step>): seq<Move> { seq(|steps|, i requires 0 <= i < |steps| => Stock(steps[i])) }

  ghost predicate OnlyStock(trace: seq<Move>) { forall m :: m in trace ==> m.Stock? }

  lemma ReleaseMove(w: World, pk: nat)
    ensures NextWorld(w, Stock(Release(pk))) == w.(ledger := Next(w.ledger, Release(pk)))
  {}

  lemma {:induction false} StockRun(w: World, pks: seq<nat>)
    ensures RunWorld(w, StockMoves(Releases(pks))) == w.(ledger := Run(w.ledger, Releases(pks)))
  {
    if pks == [] {
      assert StockMoves(Releases(pks)) == [];
    } else {
      var n := |pks| - 1;
      var before, l := StockMoves(Releases(pks[..n])), Run(w.ledger, Releases(pks[..n]));
      StockRun(w, pks[..n]);
      RunSnoc(w.ledger, Releases(pks[..n]), Release(pks[n]));
      ReleaseMove(w.(ledger := l), pks[n]);
      ComposeOne(w, before, Stock(Release(pks[n])), w.(ledger := l), w.(ledger := Next(l, Release(pks[n]))));
      assert Releases(pks) == Releases(pks[..n]) + [Release(pks[n])];
      assert StockMoves(Releases(pks)) == before + [Stock(Release(pks[n]))];
    }
  }

  /** `order.stock_holds.filter(state=ACTIVE)`, by checkout id. */
  function HeldCheckouts(rows: seq<Receipt>): seq<CheckoutId> {
    if rows == [] then []
    else
      HeldCheckouts(rows[..|rows| - 1])
      + if rows[|rows| - 1].state == Held then [rows[|rows| - 1].checkout] else []
  }

  lemma {:induction false} HeldIsListed(rows: seq<Receipt>, i: nat)
    requires i < |rows| && rows[i].state == Held
    ensures rows[i].checkout in HeldCheckouts(rows)
  {
    if i < |rows| - 1 {
      HeldIsListed(rows[..|rows| - 1], i);
    }
  }

  lemma {:induction false} OnlyHeldIsListed(rows: seq<Receipt>, c: CheckoutId)
    requires c in HeldCheckouts(rows)
    ensures exists i :: 0 <= i < |rows| && rows[i].state == Held && rows[i].checkout == c
  {
    var n := |rows| - 1;
    if rows[n].state != Held || rows[n].checkout != c {
      OnlyHeldIsListed(rows[..n], c);
      var i :| 0 <= i < n && rows[..n][i].state == Held && rows[..n][i].checkout == c;
      assert rows[i] == rows[..n][i];
    }
  }

  /** The groups of the held receipts have no active row left. */
  ghost predicate HeldSettled(rows: seq<Receipt>, l: Ledger) {
    forall i :: 0 <= i < |rows| && rows[i].state == Held ==> Settled(l.book, rows[i].checkout)
  }

  /** The order is cancelled, its held receipts are freed, and their stock is back on the shelf. */
  ghost predicate ReleasedCancel(was: map<OrderId, Order>, now: map<OrderId, Order>, o: OrderId, l: Ledger) {
    && o in was
    && now == was[o := was[o].(status := Cancelled, receipts := UpdateHeld(was[o].receipts, Freed))]
    && HeldSettled(was[o].receipts, l)
  }

  /** A run of ledger moves from one ledger to another, whatever the rest of the world holds. */
  ghost predicate LedgerRun(trace: seq<Move>, l: Ledger, l': Ledger) {
    OnlyStock(trace) && forall w: World :: w.ledger == l ==> RunWorld(w, trace) == w.(ledger := l')
  }

  lemma LedgerRunAppend(a: seq<Move>, b: seq<Move>, l0: Ledger, l1: Ledger, l2: Ledger)
    requires LedgerRun(a, l0, l1) && LedgerRun(b, l1, l2)
    ensures LedgerRun(a + b, l0, l2)
  {
    forall w: World | w.ledger == l0 ensures RunWorld(w, a + b) == w.(ledger := l2) {
      Compose(w, a, b, w.(ledger := l1), w.(ledger := l2));
    }
  }

  /** Every active row of these groups was released, and nothing else happened to any row, movement or key. */
  ghost predicate GivenBack(l: Ledger, l': Ledger, groups: set<CheckoutId>) {
    && l'.keys == l.keys && l'.book.moves == l.book.moves && |l'.book.holds| == |l.book.holds|
    && forall i :: 0 <= i < |l.book.holds| ==>
         l'.book.holds[i]
         == if l.book.holds[i].status == Active && l.book.holds[i].checkout in groups
            then l.book.holds[i].(status := Released) else l.book.holds[i]
  }

  lemma GivenBackNone(l: Ledger)
    ensures GivenBack(l, l, {})
  {}

  lemma GivenBackMore(l: Ledger, l1: Ledger, l2: Ledger, a: set<CheckoutId>, b: set<CheckoutId>)
    requires GivenBack(l, l1, a) && GivenBack(l1, l2, b)
    ensures GivenBack(l, l2, a + b)
  {}

  lemma GivenBackSettled(l: Ledger, l': Ledger, groups: set<CheckoutId>, c: CheckoutId)
    requires GivenBack(l, l', groups) && (c in groups || Settled(l.book, c))
    ensures Settled(l'.book, c)
  {}

  lemma {:induction false} ReleasesFrame(l: Ledger, pks: seq<nat>)
    ensures Run(l, Releases(pks)).keys == l.keys && Run(l, Releases(pks)).book.moves == l.book.moves
  {
    if pks == [] {
      assert Releases(pks) == [];
    } else {
      var n := |pks| - 1;
      ReleasesFrame(l, pks[..n]);
      assert Releases(pks) == Releases(pks[..n]) + [Release(pks[n])];
      RunSnoc(l, Releases(pks[..n]), Release(pks[n]));
    }
  }

  lemma GroupGivenBack(l: Ledger, l': Ledger, c: CheckoutId, pks: seq<nat>)
    requires l' == Run(l, Releases(pks)) && Ended(l.book.holds, l'.book.holds, InGroup(c), Released)
    ensures GivenBack(l, l', {c})
  {
    ReleasesFrame(l, pks);
  }

  /** `release_holds` as a run of the machine: the group's active rows are given back, and nothing else changes. */
  method ReleaseGroup(shop: Shop, c: CheckoutId) returns (ghost moves: seq<Move>)
    requires shop.Valid()
    modifies shop.ledger
    ensures shop.Valid() && LedgerRun(moves, old(shop.ledger.State()), shop.ledger.State())
    ensures GivenBack(old(shop.ledger.State()), shop.ledger.State(), {c})
  {
    ghost var l := shop.ledger.State();
    var r;
    ghost var pks;
    r, pks := shop.ledger.ReleaseHolds(c);
    moves := StockMoves(Releases(pks));
    forall w: World | w.ledger == l ensures RunWorld(w, moves) == w.(ledger := shop.ledger.State()) {
      StockRun(w, pks);
    }
    RunKeeps(l, shop.ledger.opening, Releases(pks));
    GroupGivenBack(l, shop.ledger.State(), c, pks);
  }

  /** One group's release, which may never reach the ledger, or whose answer may be lost. */
  method AskRelease(shop: Shop, c: CheckoutId, fate: Outcome) returns (ghost moves: seq<Move>)
    requires shop.Valid()
    modifies shop.ledger
    ensures shop.Valid() && LedgerRun(moves, old(shop.ledger.State()), shop.ledger.State())
    ensures GivenBack(old(shop.ledger.State()), shop.ledger.State(), if fate == NeverSent then {} else {c})
  {
    if fate == NeverSent {
      GivenBackNone(shop.ledger.State());
      return [];
    }
    moves := ReleaseGroup(shop, c);
  }

  /** The groups the first `n` calls reached. */
  function Reached(checkouts: seq<CheckoutId>, link: seq<Outcome>, n: nat): set<CheckoutId>
    requires n <= |checkouts|
  {
    if n == 0 then {}
    else Reached(checkouts, link, n - 1) + if Fate(link, n - 1) == NeverSent then {} else {checkouts[n - 1]}
  }

  /** How many of `total` calls are made, from the `n`-th on: up to and with the first that raises. */
  function Calls(link: seq<Outcome>, n: nat, total: nat): (r: nat)
    requires n <= total
    ensures r <= total
    decreases total - n
  {
    if n == total then total else if Fate(link, n) != Replied then n + 1 else Calls(link, n + 1, total)
  }

  /** The last call made is the first that goes unanswered, or the last of all. */
  lemma {:induction false} CallsExactly(link: seq<Outcome>, n: nat, total: nat)
    requires n <= total
    ensures var made := Calls(link, n, total);
            && n <= made <= total && (n < total ==> n < made)
            && (forall k :: n <= k < made - 1 && k < |link| ==> link[k] == Replied)
            && (made < total ==> made <= |link| && link[made - 1] != Replied)
    decreases total - n
  {
    if n < total && Fate(link, n) == Replied {
      CallsExactly(link, n + 1, total);
    }
  }

  /** The groups reached are those of the calls made whose request was sent. */
  lemma {:induction false} ReachedExactly(checkouts: seq<CheckoutId>, link: seq<Outcome>, n: nat, c: CheckoutId)
    requires n <= |checkouts|
    ensures c in Reached(checkouts, link, n)
       <==> exists k :: 0 <= k < n && checkouts[k] == c && (k < |link| ==> link[k] != NeverSent)
  {
    if n > 0 {
      ReachedExactly(checkouts, link, n - 1, c);
    }
  }

  /** Every one of these calls was answered. */
  predicate AllAnswered(link: seq<Outcome>, total: nat) {
    forall k :: 0 <= k < total ==> Fate(link, k) == Replied
  }

  lemma {:induction false} AllReached(checkouts: seq<CheckoutId>, link: seq<Outcome>, n: nat)
    requires n <= |checkouts| && AllAnswered(link, n)
    ensures forall k :: 0 <= k < n ==> checkouts[k] in Reached(checkouts, link, n)
  {
    if n > 0 {
      AllReached(checkouts, link, n - 1);
    }
  }

  lemma AnsweredCalls(link: seq<Outcome>, n: nat, total: nat)
    requires n <= total && forall k :: n <= k < total ==> Fate(link, k) == Replied
    ensures Calls(link, n, total) == total
    decreases total - n
  {
    if n < total {
      AnsweredCalls(link, n + 1, total);
    }
  }

  /** The release loop after `n` answered calls. */
  ghost predicate Releasing(l0: Ledger, l: Ledger, trace: seq<Move>, checkouts: seq<CheckoutId>, link: seq<Outcome>, n: nat) {
    n <= |checkouts| && LedgerRun(trace, l0, l) && GivenBack(l0, l, Reached(checkouts, link, n))
  }

  /** One more call, answered or not. */
  method ReleaseNext(shop: Shop, checkouts: seq<CheckoutId>, link: seq<Outcome>, n: nat, ghost l0: Ledger, ghost before: seq<Move>)
    returns (ghost trace: seq<Move>)
    requires shop.Valid() && n < |checkouts| && Releasing(l0, shop.ledger.State(), before, checkouts, link, n)
    modifies shop.ledger
    ensures shop.Valid() && Releasing(l0, shop.ledger.State(), trace, checkouts, link, n + 1)
  {
    ghost var mid := shop.ledger.State();
    ghost var moves := AskRelease(shop, checkouts[n], Fate(link, n));
    GivenBackMore(l0, mid, shop.ledger.State(), Reached(checkouts, link, n),
                  if Fate(link, n) == NeverSent then {} else {checkouts[n]});
    LedgerRunAppend(before, moves, l0, mid, shop.ledger.State());
    trace := before + moves;
  }

  /** `for checkout_id in ...: release_holds(checkout_id)`, up to a call that raises. */
  method ReleaseAll(shop: Shop, checkouts: seq<CheckoutId>, link: seq<Outcome>) returns (ok: bool, ghost trace: seq<Move>)
    requires shop.Valid()
    modifies shop.ledger
    ensures ok <==> AllAnswered(link, |checkouts|)
    ensures shop.Valid() && LedgerRun(trace, old(shop.ledger.State()), shop.ledger.State())
    ensures GivenBack(old(shop.ledger.State()), shop.ledger.State(), Reached(checkouts, link, Calls(link, 0, |checkouts|)))
  {
    ghost var l0 := shop.ledger.State();
    trace := [];
    GivenBackNone(l0);
    for n := 0 to |checkouts|
      invariant shop.Valid() && Releasing(l0, shop.ledger.State(), trace, checkouts, link, n)
      invariant AllAnswered(link, n) && Calls(link, n, |checkouts|) == Calls(link, 0, |checkouts|)
    {
      trace := ReleaseNext(shop, checkouts, link, n, l0, trace);
      if Fate(link, n) != Replied {
        return false, trace;
      }
    }
    return true, trace;
  }

  /** With every call answered, none of the groups has an active row left. */
  lemma AllSettled(checkouts: seq<CheckoutId>, link: seq<Outcome>, l: Ledger, l': Ledger)
    requires AllAnswered(link, |checkouts|) && GivenBack(l, l', Reached(checkouts, link, Calls(link, 0, |checkouts|)))
    ensures forall k :: 0 <= k < |checkouts| ==> Settled(l'.book, checkouts[k])
  {
    AnsweredCalls(link, 0, |checkouts|);
    AllReached(checkouts, link, |checkouts|);
  }

  lemma Cancels(w: World, trace: seq<Move>, o: OrderId, l: Ledger)
    requires RunWorld(w, trace) == w.(ledger := l) && Enabled(w, CancelByAdmin(o))
    ensures var ord := w.orders[o];
            RunWorld(w, trace + [CancelByAdmin(o)])
            == w.(ledger := l,
                  orders := w.orders[o := ord.(status := Cancelled, receipts := UpdateHeld(ord.receipts, Freed))])
  {
    RunWorldSnoc(w, trace, CancelByAdmin(o));
  }

  lemma HeldGivenBack(rows: seq<Receipt>, l: Ledger)
    requires forall k :: 0 <= k < |HeldCheckouts(rows)| ==> Settled(l.book, HeldCheckouts(rows)[k])
    ensures HeldSettled(rows, l)
  {
    forall i | 0 <= i < |rows| && rows[i].state == Held ensures Settled(l.book, rows[i].checkout) {
      HeldIsListed(rows, i);
      var k :| 0 <= k < |HeldCheckouts(rows)| && HeldCheckouts(rows)[k] == rows[i].checkout;
    }
  }

  /** The groups a cancellation's calls reach, in the order of its held receipts. */
  ghost predicate CancelReleased(rows: seq<Receipt>, link: seq<Outcome>, l: Ledger, l': Ledger) {
    GivenBack(l, l', Reached(HeldCheckouts(rows), link, Calls(link, 0, |HeldCheckouts(rows)|)))
  }

  /** Every hold that changed was active in the group of a held receipt, and was released. */
  ghost predicate HeldReleased(rows: seq<Receipt>, l: Ledger, l': Ledger) {
    && |l'.book.holds| == |l.book.holds|
    && forall i :: 0 <= i < |l.book.holds| && l'.book.holds[i] != l.book.holds[i] ==>
         && l.book.holds[i].status == Active && l'.book.holds[i] == l.book.holds[i].(status := Released)
         && exists k :: 0 <= k < |rows| && rows[k].state == Held && rows[k].checkout == l.book.holds[i].checkout
  }

  lemma {:induction false} ReachedIsAsked(checkouts: seq<CheckoutId>, link: seq<Outcome>, n: nat)
    requires n <= |checkouts|
    ensures forall c :: c in Reached(checkouts, link, n) ==> c in checkouts
  {
    if n > 0 {
      ReachedIsAsked(checkouts, link, n - 1);
    }
  }

  lemma OnlyHeldReleased(rows: seq<Receipt>, link: seq<Outcome>, l: Ledger, l': Ledger)
    requires CancelReleased(rows, link, l, l')
    ensures HeldReleased(rows, l, l')
  {
    var checkouts := HeldCheckouts(rows);
    ReachedIsAsked(checkouts, link, Calls(link, 0, |checkouts|));
    forall i | 0 <= i < |l.book.holds| && l'.book.holds[i] != l.book.holds[i]
      ensures exists k :: 0 <= k < |rows| && rows[k].state == Held && rows[k].checkout == l.book.holds[i].checkout
    {
      OnlyHeldIsListed(rows, l.book.holds[i].checkout);
    }
  }

  /** The release loop over an order's held receipts. */
  method ReleaseHeld(shop: Shop, rows: seq<Receipt>, link: seq<Outcome>) returns (ok: bool, ghost trace: seq<Move>)
    requires shop.Valid()
    modifies shop.ledger
    ensures ok <==> AllAnswered(link, |HeldCheckouts(rows)|)
    ensures LedgerRun(trace, old(shop.ledger.State()), shop.ledger.State())
    ensures CancelReleased(rows, link, old(shop.ledger.State()), shop.ledger.State())
    ensures HeldReleased(rows, old(shop.ledger.State()), shop.ledger.State())
    ensures ok ==> HeldSettled(rows, shop.ledger.State())
  {
    ghost var l := shop.ledger.State();
    ok, trace := ReleaseAll(shop, HeldCheckouts(rows), link);
    OnlyHeldReleased(rows, link, l, shop.ledger.State());
    if ok {
      AllSettled(HeldCheckouts(rows), link, l, shop.ledger.State());
      HeldGivenBack(rows, shop.ledger.State());
    }
  }

  /**
   * `mark_as_cancelled`: the transition is checked first, each held receipt's group is
   * released, and the receipts are marked. A release that raises rolls the cancellation
   * back, though groups released by then stay released. No other hold is touched.
   */
  method MarkAsCancelled(shop: Shop, o: OrderId, link: seq<Outcome>) returns (r: Result<(), ShopError>, ghost trace: seq<Move>)
    requires shop.Valid()
    modifies shop`orders, shop.ledger
    ensures shop.Now() == RunWorld(old(shop.Now()), trace)
    ensures r.Ok? <==>
              Enabled(old(shop.Now()), CancelByAdmin(o)) && AllAnswered(link, |HeldCheckouts(old(shop.orders)[o].receipts)|)
    ensures !Enabled(old(shop.Now()), CancelByAdmin(o)) ==> shop.Now() == old(shop.Now())
    ensures r.Err? ==> shop.orders == old(shop.orders)
    ensures r.Ok? ==> ReleasedCancel(old(shop.orders), shop.orders, o, shop.ledger.State())
    ensures Enabled(old(shop.Now()), CancelByAdmin(o)) ==>
              CancelReleased(old(shop.orders)[o].receipts, link, old(shop.ledger.State()), shop.ledger.State())
    ensures Enabled(old(shop.Now()), CancelByAdmin(o)) <==> o in old(shop.orders) && old(shop.orders)[o].status == Pending
    ensures o in old(shop.orders) ==> HeldReleased(old(shop.orders)[o].receipts, old(shop.ledger.State()), shop.ledger.State())
    ensures r.Ok? ==>
              && shop.orders[o].status == Cancelled && |shop.orders[o].receipts| == |old(shop.orders)[o].receipts|
              && forall i :: 0 <= i < |shop.orders[o].receipts| ==>
                   var row := old(shop.orders)[o].receipts[i];
                   shop.orders[o].receipts[i] == if row.state == Held then Receipt(row.checkout, Freed) else row
  {
    ghost var w := shop.Now();
    var saved := shop.orders;
    trace := [];
    r := TransitionTo(shop, o, Cancelled);
    if r.Err? {
      return;
    }
    var rows := shop.orders[o].receipts;
    var ok;
    ok, trace := ReleaseHeld(shop, rows, link);
    assert RunWorld(w, trace) == w.(ledger := shop.ledger.State());
    if !ok {
      shop.orders := saved;
      return Err(ReleaseFailed), trace;
    }
    shop.orders := shop.orders[o := shop.orders[o].(receipts := UpdateHeld(rows, Freed))];
    Cancels(w, trace, o, shop.ledger.State());
    trace := trace + [CancelByAdmin(o)];
  }
}
