/**
 * Durable stock restoration after a full refund (apps/orders/refunds.py,
 * apps/orders/admin.py `mark_as_refunded`).
 */
module Refunds {
  import opened Wrappers
  import opened Lines
  import opened Books
  import opened Ledgers
  import opened Saga
  import opened SagaTheorems
  import opened Fulfilment
  import opened Payments

  /** `mark_as_refunded`: the transition and the durable instruction commit together or not at all. */
  method MarkAsRefunded(shop: Shop, o: OrderId) returns (r: Result<(), ShopError>)
    modifies shop`orders, shop`outbox
    ensures shop.Now() == NextWorld(old(shop.Now()), Refund(o))
    ensures r.Ok? <==> Enabled(old(shop.Now()), Refund(o))
    ensures r.Ok? <==> o in old(shop.orders) && old(shop.orders)[o].status in {Paid, Packed, Shipped, Delivered}
    ensures r.Err? ==> shop.orders == old(shop.orders) && shop.outbox == old(shop.outbox)
    ensures r.Ok? ==>
              var ord := old(shop.orders)[o];
              && shop.orders == old(shop.orders)[o := ord.(status := Refunded)]
              && |shop.outbox| == |old(shop.outbox)| + 1 && shop.outbox[..|old(shop.outbox)|] == old(shop.outbox)
              && var sent := shop.outbox[|old(shop.outbox)|];
                 && sent.state == Queued && sent.payload.RestoreStock? && sent.payload.order == o && sent.payload.lines == ord.items
                 && |sent.payload.checkouts| == |ord.receipts|
                 && forall i :: 0 <= i < |ord.receipts| ==> sent.payload.checkouts[i] == ord.receipts[i].checkout
  {
    r := TransitionTo(shop, o, Refunded);
    if r.Ok? {
      var ord := shop.orders[o];
      shop.outbox := shop.outbox + [Message(RestoreStock(o, ord.items, Checkouts(ord.receipts)), Queued)];
    }
  }

  lemma RefundNext(w: World, k: nat)
    requires k < |w.outbox| && w.outbox[k].payload.RestoreStock?
    ensures NextWorld(w, DeliverRefund(k))
         == w.(ledger := Next(w.ledger, Restore(w.outbox[k].payload.order, w.outbox[k].payload.lines)))
  {}

  /** The moves of a refund's delivery: row releases, then the restoration. */
  lemma RefundRun(w: World, k: nat, trace: seq<Move>, l: Ledger)
    requires LedgerRun(trace, w.ledger, l) && k < |w.outbox| && w.outbox[k].payload.RestoreStock?
    ensures RunWorld(w, trace + [DeliverRefund(k)])
         == w.(ledger := Next(l, Restore(w.outbox[k].payload.order, w.outbox[k].payload.lines)))
  {
    assert RunWorld(w, trace) == w.(ledger := l);
    RunWorldSnoc(w, trace, DeliverRefund(k));
    RefundNext(w.(ledger := l), k);
  }

  /** Restoring a refund touches no hold. */
  lemma RestoreKeepsSettled(l: Ledger, opening: map<int, int>, o: OrderId, lines: seq<Line>, checkouts: seq<CheckoutId>)
    requires LedgerOk(l, opening) && forall k :: 0 <= k < |checkouts| ==> Settled(l.book, checkouts[k])
    ensures forall k :: 0 <= k < |checkouts| ==> Settled(Next(l, Restore(o, lines)).book, checkouts[k])
  {
    if Attempt(l, Restore(o, lines)).Ok? && RefundKey(o) !in l.keys {
      RestoreAllKeeps(l.book, opening, o, SortLines(lines));
    }
  }

  /** Every variant of the order is as much returned as sold. */
  ghost predicate Neutral(l: Ledger, o: OrderId) {
    forall v :: SoldUnits(l.book, o, v) == ReturnedUnits(l.book, o, v)
  }

  /** Row releases lead from reachable states to reachable states. */
  lemma ReleasesReachable(opening: map<int, int>, w: World, trace: seq<Move>, l: Ledger)
    requires Reachable(opening, w) && LedgerRun(trace, w.ledger, l)
    ensures Reachable(opening, w.(ledger := l))
  {
    assert RunWorld(w, trace) == w.(ledger := l);
    AnsweredRunIsHeard(w, trace);
    ReachableOnward(opening, w, w.(ledger := l), |trace|);
  }

  /** From a reachable state the restoration succeeds and the order is neutral. */
  lemma RefundDelivered(opening: map<int, int>, w: World, k: nat)
    requires Reachable(opening, w) && k < |w.outbox| && w.outbox[k].payload.RestoreStock?
    ensures var p := w.outbox[k].payload;
            Attempt(w.ledger, Restore(p.order, p.lines)).Ok? && Neutral(Next(w.ledger, Restore(p.order, p.lines)), p.order)
  {
    RefundNext(w, k);
    var w' := NextWorld(w, DeliverRefund(k));
    assert HeardRun(w', w', 0);
    forall v
      ensures SoldUnits(w'.ledger.book, w.outbox[k].payload.order, v) == ReturnedUnits(w'.ledger.book, w.outbox[k].payload.order, v)
    {
      RefundNeutrality(opening, w, k, w', 0, v);
    }
    RefundNeutrality(opening, w, k, w', 0, 0);
  }

  /** The ledger between the releases and the restoration, and the one the handler leaves. */
  ghost predicate Restoring(l: Ledger, released: Ledger, l': Ledger, p: Payload, link: seq<Outcome>)
    requires p.RestoreStock?
  {
    && GivenBack(l, released, Reached(p.checkouts, link, Calls(link, 0, |p.checkouts|)))
    && l' == if AllAnswered(link, |p.checkouts|) then Next(released, Restore(p.order, p.lines)) else released
  }

  lemma RefundReachable(opening: map<int, int>, w: World, k: nat, trace: seq<Move>, released: Ledger)
    requires Reachable(opening, w) && LedgerRun(trace, w.ledger, released)
    requires k < |w.outbox| && w.outbox[k].payload.RestoreStock?
    ensures var p := w.outbox[k].payload;
            && Attempt(released, Restore(p.order, p.lines)).Ok?
            && Neutral(Next(released, Restore(p.order, p.lines)), p.order)
            && Reachable(opening, w.(ledger := Next(released, Restore(p.order, p.lines))))
  {
    ReleasesReachable(opening, w, trace, released);
    RefundDelivered(opening, w.(ledger := released), k);
    ReachableNext(opening, w.(ledger := released), DeliverRefund(k));
    RefundNext(w.(ledger := released), k);
  }

  /**
   * The `order.restore_stock` handler: releases the order's groups, then returns what
   * is still out. A release that raises leaves the restoration for the next delivery. No
   * hold outside the groups it names is touched. From every reachable state, with its
   * releases answered, it succeeds and leaves the order neutral.
   */
  method RestoreRefunded(shop: Shop, k: nat, link: seq<Outcome>)
    returns (r: Result<(), ShopError>, ghost trace: seq<Move>, ghost released: Ledger)
    requires shop.Valid() && k < |shop.outbox| && shop.outbox[k].payload.RestoreStock?
    modifies shop.ledger
    ensures shop.Now() == RunWorld(old(shop.Now()), trace)
    ensures Restoring(old(shop.ledger.State()), released, shop.ledger.State(), shop.outbox[k].payload, link)
    ensures var p := shop.outbox[k].payload;
            && (r.Ok? <==> AllAnswered(link, |p.checkouts|) && Attempt(released, Restore(p.order, p.lines)).Ok?)
            && (AllAnswered(link, |p.checkouts|) ==>
                  && (forall i :: 0 <= i < |p.checkouts| ==> Settled(shop.ledger.State().book, p.checkouts[i]))
                  && (Reachable(shop.ledger.opening, old(shop.Now())) ==>
                        && r.Ok?
                        && (forall v :: ReturnedUnits(shop.ledger.State().book, p.order, v)
                                        == SoldUnits(shop.ledger.State().book, p.order, v))
                        && Reachable(shop.ledger.opening, shop.Now())))
  {
    ghost var w := shop.Now();
    var payload := shop.outbox[k].payload;
    var ok;
    ok, trace := ReleaseAll(shop, payload.checkouts, link);
    released := shop.ledger.State();
    assert RunWorld(w, trace) == w.(ledger := released);
    if !ok {
      return Err(ReleaseFailed), trace, released;
    }
    AllSettled(payload.checkouts, link, w.ledger, released);
    RestoreKeepsSettled(released, shop.ledger.opening, payload.order, payload.lines, payload.checkouts);
    RefundRun(w, k, trace, released);
    if Reachable(shop.ledger.opening, w) {
      RefundReachable(shop.ledger.opening, w, k, trace, released);
    }
    var done := shop.ledger.RestoreOrderStock(payload.order, payload.lines);
    trace := trace + [DeliverRefund(k)];
    r := if done.Ok? then Ok(()) else Err(Refused(done.error));
  }
}
