/**
 * The two retries of a commit whose outcome was never learned
 * (apps/payments/holds.py `reconcile_unknown_holds` and `deliver_stock_commit`).
 * Neither looks at the order's status.
 */
module Reconciliation {
  import opened Wrappers
  import opened Books
  import opened Ledgers
  import opened Saga
  import opened Fulfilment

  /** The receipt exists and is in doubt. */
  predicate InDoubt(orders: map<OrderId, Order>, row: (OrderId, nat)) {
    row.0 in orders && row.1 < |orders[row.0].receipts| && orders[row.0].receipts[row.1].state == Unknown
  }

  lemma ReconcileCommits(w: World, o: OrderId, i: nat)
    requires InDoubt(w.orders, (o, i))
    ensures NextWorld(w, ReconcileCommit(o, i))
         == w.(ledger := Next(w.ledger, Commit(w.orders[o].receipts[i].checkout, Some(o))))
  {}

  lemma ReconcileSaves(w: World, o: OrderId, i: nat)
    requires InDoubt(w.orders, (o, i)) && Settled(w.ledger.book, w.orders[o].receipts[i].checkout)
    ensures NextWorld(w, ReconcileSave(o, i)) == w.(orders := SetReceipt(w.orders, o, i, Consumed))
  {}

  predicate InTable(orders: map<OrderId, Order>, row: (OrderId, nat)) {
    row.0 in orders && row.1 < |orders[row.0].receipts|
  }

  /** The group of a receipt. */
  function GroupOf(orders: map<OrderId, Order>, row: (OrderId, nat)): CheckoutId {
    if InTable(orders, row) then orders[row.0].receipts[row.1].checkout else Blank
  }

  /** What one row comes to: resolved, left for the next sweep, or an exception. */
  function Verdict(l: Ledger, c: CheckoutId, o: OrderId, fate: Outcome): Result<bool, ShopError> {
    if fate != Replied then Ok(false)
    else
      match CommitHolds(l, c, Some(o))
      case Ok(_) => Ok(true)
      case Err(e) => if e == ReservationUnavailable then Ok(false) else Err(Refused(e))
  }

  /** The ledger transaction one row asks for, unless its request is never sent. */
  function Asks(c: CheckoutId, o: OrderId, fate: Outcome): seq<Step> {
    if fate == NeverSent then [] else [Commit(c, Some(o))]
  }

  lemma RunNone(l: Ledger, s: Step)
    ensures Run(l, []) == l && Run(l, [s]) == Next(l, s)
  {
    assert [s][..0] == [];
  }

  /** One row of the sweep: asked of the ledger, and saved as consumed only after an answered commit. */
  method ReconcileHold(shop: Shop, o: OrderId, i: nat, fate: Outcome)
    returns (r: Result<bool, ShopError>, ghost moves: seq<Move>)
    requires InDoubt(shop.orders, (o, i))
    modifies shop`orders, shop.ledger
    ensures shop.Now() == RunWorld(old(shop.Now()), moves)
    ensures r == Verdict(old(shop.ledger.State()), GroupOf(old(shop.orders), (o, i)), o, fate)
    ensures shop.ledger.State() == Run(old(shop.ledger.State()), Asks(GroupOf(old(shop.orders), (o, i)), o, fate))
    ensures shop.orders == if r == Ok(true) then SetReceipt(old(shop.orders), o, i, Consumed) else old(shop.orders)
    ensures r == Ok(true) ==> fate == Replied && Settled(shop.ledger.State().book, GroupOf(old(shop.orders), (o, i)))
    ensures var l, c := old(shop.ledger.State()), old(shop.orders)[o].receipts[i].checkout;
            if fate == NeverSent then r == Ok(false) && shop.ledger.State() == l
            else
              && shop.ledger.State() == Next(l, Commit(c, Some(o)))
              && (fate == ReplyLost ==> r == Ok(false))
              && (fate == Replied ==>
                    match CommitHolds(l, c, Some(o))
                    case Ok(_) => r == Ok(true)
                    case Err(e) => r == if e == ReservationUnavailable then Ok(false) else Err(Refused(e)))
  {
    ghost var w := shop.Now();
    var c := shop.orders[o].receipts[i].checkout;
    RunNone(w.ledger, Commit(c, Some(o)));
    moves := [];
    if fate == NeverSent {
      return Ok(false), [];
    }
    var done := shop.ledger.CommitHolds(c, Some(o));
    moves := [ReconcileCommit(o, i)];
    RunWorldOne(w, ReconcileCommit(o, i));
    ReconcileCommits(w, o, i);
    if fate == ReplyLost {
      return Ok(false), moves;
    }
    if done.Err? {
      return if done.error == ReservationUnavailable then Ok(false) else Err(Refused(done.error)), moves;
    }
    CommitShape(w.ledger, c, Some(o));
    ReconcileSaves(shop.Now(), o, i);
    RunTwo(w, ReconcileCommit(o, i), ReconcileSave(o, i));
    shop.orders := shop.orders[o := shop.orders[o].(receipts :=
      shop.orders[o].receipts[i := shop.orders[o].receipts[i].(state := Consumed)])];
    return Ok(true), [ReconcileCommit(o, i), ReconcileSave(o, i)];
  }

  /** An in-process commit never answers "unavailable". */
  lemma {:induction false} CommitIsAvailable(b: Book, c: CheckoutId, order: Option<OrderId>, n: nat)
    requires n <= |b.holds|
    ensures CommitUpTo(b, c, order, n) != Err(ReservationUnavailable)
  {
    if n > 0 {
      CommitIsAvailable(b, c, order, n - 1);
    }
  }

  /** So an in-process row is resolved or raises. */
  lemma AnsweredVerdict(l: Ledger, c: CheckoutId, o: OrderId)
    ensures Verdict(l, c, o, Replied) != Ok(false)
  {
    CommitIsAvailable(l.book, c, Some(o), |l.book.holds|);
  }

  // ------------------------------------------------------------ the sweep over its rows

  /** These rows of the table, saved as consumed, and nothing else. */
  function Saved(orders: map<OrderId, Order>, rows: seq<(OrderId, nat)>): (r: map<OrderId, Order>)
    ensures r.Keys == orders.Keys
    ensures forall o :: o in orders ==> |r[o].receipts| == |orders[o].receipts| && Checkouts(r[o].receipts) == Checkouts(orders[o].receipts)
  {
    if rows == [] then orders
    else
      var before, row := Saved(orders, rows[..|rows| - 1]), rows[|rows| - 1];
      if !InTable(before, row) then before
      else
        SavedOne(before, row.0, row.1);
        SetReceipt(before, row.0, row.1, Consumed)
  }

  lemma SavedOne(orders: map<OrderId, Order>, o: OrderId, i: nat)
    requires o in orders && i < |orders[o].receipts|
    ensures Checkouts(SetReceipt(orders, o, i, Consumed)[o].receipts) == Checkouts(orders[o].receipts)
  {}

  /** Of order `o` these rows became consumed, and nothing else changed. */
  ghost predicate ConsumedThere(was: Order, now: Order, rows: seq<(OrderId, nat)>, o: OrderId) {
    && now == was.(receipts := now.receipts) && |now.receipts| == |was.receipts|
    && forall i :: 0 <= i < |was.receipts| ==>
         now.receipts[i] == if (o, i) in rows then Receipt(was.receipts[i].checkout, Consumed) else was.receipts[i]
  }

  lemma {:induction false} SavedExactly(orders: map<OrderId, Order>, rows: seq<(OrderId, nat)>, o: OrderId)
    requires o in orders
    ensures ConsumedThere(orders[o], Saved(orders, rows)[o], rows, o)
  {
    if rows != [] {
      var n := |rows| - 1;
      SavedExactly(orders, rows[..n], o);
      assert rows == rows[..n] + [rows[n]];
    }
  }

  lemma AllSaved(orders: map<OrderId, Order>, rows: seq<(OrderId, nat)>)
    ensures forall o :: o in orders ==> ConsumedThere(orders[o], Saved(orders, rows)[o], rows, o)
  {
    forall o | o in orders ensures ConsumedThere(orders[o], Saved(orders, rows)[o], rows, o) {
      SavedExactly(orders, rows, o);
    }
  }

  /** What the first `n` rows asked of the ledger. */
  function AskedOf(orders: map<OrderId, Order>, stale: seq<(OrderId, nat)>, link: seq<Outcome>, n: nat): seq<Step>
    requires n <= |stale|
  {
    if n == 0 then []
    else
      AskedOf(orders, stale, link, n - 1)
      + Asks(GroupOf(orders, stale[n - 1]), stale[n - 1].0, Fate(link, n - 1))
  }

  lemma AskedNext(l: Ledger, steps: seq<Step>, c: CheckoutId, o: OrderId, fate: Outcome)
    ensures Run(l, steps + Asks(c, o, fate)) == Run(Run(l, steps), Asks(c, o, fate))
  {
    RunNone(Run(l, steps), Commit(c, Some(o)));
    if fate == NeverSent {
      assert steps + [] == steps;
    } else {
      assert (steps + [Commit(c, Some(o))])[..|steps|] == steps;
    }
  }

  /** Every saved row was read as in doubt, and its group has no active row left. */
  ghost predicate SettledRows(orders: map<OrderId, Order>, rows: seq<(OrderId, nat)>, l: Ledger) {
    forall k :: 0 <= k < |rows| ==> InTable(orders, rows[k]) && Settled(l.book, GroupOf(orders, rows[k]))
  }

  /** A commit settles its group and unsettles none. */
  lemma CommitUnsettlesNone(l: Ledger, c: CheckoutId, order: Option<OrderId>, d: CheckoutId)
    requires Settled(l.book, d)
    ensures Settled(Next(l, Commit(c, order)).book, d)
  {
    if CommitHolds(l, c, order).Ok? {
      CommitShape(l, c, order);
    }
  }

  lemma StaySettled(orders: map<OrderId, Order>, rows: seq<(OrderId, nat)>, l: Ledger, c: CheckoutId, o: OrderId, fate: Outcome)
    requires SettledRows(orders, rows, l)
    ensures SettledRows(orders, rows, Run(l, Asks(c, o, fate)))
  {
    RunNone(l, Commit(c, Some(o)));
    forall k | 0 <= k < |rows| ensures Settled(Run(l, Asks(c, o, fate)).book, GroupOf(orders, rows[k])) {
      CommitUnsettlesNone(l, c, Some(o), GroupOf(orders, rows[k]));
    }
  }

  /** Distinct rows, read as in doubt. */
  ghost predicate Stale(orders: map<OrderId, Order>, rows: seq<(OrderId, nat)>) {
    && (forall k :: 0 <= k < |rows| ==> InDoubt(orders, rows[k]))
    && (forall j, k :: 0 <= j < k < |rows| ==> rows[j] != rows[k])
  }

  /** Where the sweep stands after `n` rows of those it read. */
  ghost predicate Swept(was: map<OrderId, Order>, now: map<OrderId, Order>, stale: seq<(OrderId, nat)>, n: nat,
                        resolved: seq<(OrderId, nat)>, l: Ledger) {
    && n <= |stale| && |resolved| <= n
    && (forall k :: 0 <= k < |resolved| ==> resolved[k] in stale[..n])
    && SettledRows(was, resolved, l) && now == Saved(was, resolved)
    && (forall k :: n <= k < |stale| ==> InDoubt(now, stale[k]))
  }

  /** A row is left as it is. */
  lemma SweptPast(was: map<OrderId, Order>, now: map<OrderId, Order>, stale: seq<(OrderId, nat)>, n: nat,
                  resolved: seq<(OrderId, nat)>, l: Ledger)
    requires n < |stale| && Swept(was, now, stale, n, resolved, l)
    ensures Swept(was, now, stale, n + 1, resolved, l)
  {
    TakeOneMore(stale, n);
  }

  /** A row is resolved, which disturbs no other. */
  lemma SweptOne(was: map<OrderId, Order>, now: map<OrderId, Order>, stale: seq<(OrderId, nat)>, n: nat,
                 resolved: seq<(OrderId, nat)>, l: Ledger)
    requires n < |stale| && Swept(was, now, stale, n, resolved, l)
    requires forall j, k :: 0 <= j < k < |stale| ==> stale[j] != stale[k]
    requires InTable(was, stale[n]) && Settled(l.book, GroupOf(was, stale[n]))
    ensures Swept(was, SetReceipt(now, stale[n].0, stale[n].1, Consumed), stale, n + 1, resolved + [stale[n]], l)
  {
    var now', more := SetReceipt(now, stale[n].0, stale[n].1, Consumed), resolved + [stale[n]];
    TakeOneMore(stale, n);
    assert more[..|resolved|] == resolved;
    forall k | n < k < |stale| ensures InDoubt(now', stale[k]) {
      assert InDoubt(now, stale[k]) && stale[n] != stale[k];
    }
  }

  /** The receipt's group is the one the sweep read. */
  lemma SameGroup(was: map<OrderId, Order>, now: map<OrderId, Order>, rows: seq<(OrderId, nat)>, row: (OrderId, nat))
    requires now == Saved(was, rows) && InTable(was, row)
    ensures GroupOf(now, row) == GroupOf(was, row)
  {
    assert Checkouts(now[row.0].receipts)[row.1] == Checkouts(was[row.0].receipts)[row.1];
  }

  /** One row of the sweep, and where it leaves the sweep. */
  method ReconcileRow(shop: Shop, stale: seq<(OrderId, nat)>, k: nat, link: seq<Outcome>,
                      ghost was: map<OrderId, Order>, ghost l0: Ledger, ghost resolved: seq<(OrderId, nat)>)
    returns (r: Result<bool, ShopError>, ghost moves: seq<Move>, ghost more: seq<(OrderId, nat)>)
    requires k < |stale| && Swept(was, shop.orders, stale, k, resolved, shop.ledger.State())
    requires Stale(was, stale)
    requires shop.ledger.State() == Run(l0, AskedOf(was, stale, link, k))
    modifies shop`orders, shop.ledger
    ensures shop.Now() == RunWorld(old(shop.Now()), moves)
    ensures shop.ledger.State() == Run(l0, AskedOf(was, stale, link, k + 1))
    ensures Swept(was, shop.orders, stale, k + 1, more, shop.ledger.State())
    ensures more == if r.Ok? && r.value then resolved + [stale[k]] else resolved
    ensures Fate(link, k) == Replied && r.Ok? ==> r.value
  {
    ghost var l, c := shop.ledger.State(), GroupOf(was, stale[k]);
    SameGroup(was, shop.orders, resolved, stale[k]);
    AskedNext(l0, AskedOf(was, stale, link, k), c, stale[k].0, Fate(link, k));
    StaySettled(was, resolved, l, c, stale[k].0, Fate(link, k));
    AnsweredVerdict(l, c, stale[k].0);
    ghost var now := shop.orders;
    r, moves := ReconcileHold(shop, stale[k].0, stale[k].1, Fate(link, k));
    more := resolved;
    if r.Ok? && r.value {
      more := resolved + [stale[k]];
      SweptOne(was, now, stale, k, resolved, shop.ledger.State());
    } else {
      SweptPast(was, now, stale, k, resolved, shop.ledger.State());
    }
  }

  /** The run the sweep has made after `n` rows, and what it has resolved. */
  ghost predicate Sweeping(w: World, now: World, trace: seq<Move>, stale: seq<(OrderId, nat)>, n: nat, link: seq<Outcome>,
                           resolved: seq<(OrderId, nat)>) {
    && RunWorld(w, trace) == now && Swept(w.orders, now.orders, stale, n, resolved, now.ledger)
    && now.ledger == Run(w.ledger, AskedOf(w.orders, stale, link, n))
    && (link == [] ==> resolved == stale[..n])
  }

  lemma SweepingOn(w: World, now: World, now': World, trace: seq<Move>, moves: seq<Move>, stale: seq<(OrderId, nat)>, n: nat,
                   link: seq<Outcome>, resolved: seq<(OrderId, nat)>, r: Result<bool, ShopError>, more: seq<(OrderId, nat)>)
    requires Sweeping(w, now, trace, stale, n, link, resolved) && n < |stale|
    requires RunWorld(now, moves) == now' && Swept(w.orders, now'.orders, stale, n + 1, more, now'.ledger)
    requires now'.ledger == Run(w.ledger, AskedOf(w.orders, stale, link, n + 1))
    requires more == if r.Ok? && r.value then resolved + [stale[n]] else resolved
    requires Fate(link, n) == Replied && r.Ok? ==> r.value
    ensures RunWorld(w, trace + moves) == now'
    ensures r.Ok? ==> Sweeping(w, now', trace + moves, stale, n + 1, link, more)
  {
    Compose(w, trace, moves, now, now');
    TakeOneMore(stale, n);
  }

  lemma TakeAll(rows: seq<(OrderId, nat)>)
    ensures rows[..|rows|] == rows
  {}

  lemma TakeOneMore(rows: seq<(OrderId, nat)>, n: nat)
    requires n < |rows|
    ensures rows[..n + 1] == rows[..n] + [rows[n]]
  {}

  /** Of the receipts table, exactly these stale rows were saved, each once its group was settled. */
  ghost predicate SavedOnly(w: World, now: World, stale: seq<(OrderId, nat)>, resolved: seq<(OrderId, nat)>) {
    && SettledRows(w.orders, resolved, now.ledger) && now.orders == Saved(w.orders, resolved)
    && forall k :: 0 <= k < |resolved| ==> resolved[k] in stale
  }

  /** The ledger was asked once for each row whose request was sent; with every answer heard, each row was resolved. */
  ghost predicate AskedEach(w: World, now: World, stale: seq<(OrderId, nat)>, link: seq<Outcome>, resolved: seq<(OrderId, nat)>) {
    && now.ledger == Run(w.ledger, AskedOf(w.orders, stale, link, |stale|))
    && (link == [] ==> resolved == stale)
  }

  lemma SweptSaved(w: World, now: World, stale: seq<(OrderId, nat)>, n: nat, resolved: seq<(OrderId, nat)>)
    requires Swept(w.orders, now.orders, stale, n, resolved, now.ledger)
    ensures SavedOnly(w, now, stale, resolved)
  {}

  lemma SweepingEnd(w: World, now: World, trace: seq<Move>, stale: seq<(OrderId, nat)>, link: seq<Outcome>,
                    resolved: seq<(OrderId, nat)>)
    requires Sweeping(w, now, trace, stale, |stale|, link, resolved)
    ensures SavedOnly(w, now, stale, resolved) && AskedEach(w, now, stale, link, resolved)
  {
    TakeAll(stale);
  }

  lemma SweepingStart(w: World, stale: seq<(OrderId, nat)>, link: seq<Outcome>)
    requires Stale(w.orders, stale)
    ensures Sweeping(w, w, [], stale, 0, link, [])
  {}

  /** One more row of a sweep under way, and the count of resolved rows after it. */
  method SweepRow(shop: Shop, stale: seq<(OrderId, nat)>, k: nat, link: seq<Outcome>, count: nat,
                  ghost w: World, ghost trace: seq<Move>, ghost resolved: seq<(OrderId, nat)>)
    returns (r: Result<nat, ShopError>, ghost trace': seq<Move>, ghost more: seq<(OrderId, nat)>)
    requires Sweeping(w, shop.Now(), trace, stale, k, link, resolved) && k < |stale| && Stale(w.orders, stale)
    requires count == |resolved|
    modifies shop`orders, shop.ledger
    ensures shop.Now() == RunWorld(w, trace') && SavedOnly(w, shop.Now(), stale, more)
    ensures r.Ok? ==> r.value == |more| && Sweeping(w, shop.Now(), trace', stale, k + 1, link, more)
  {
    ghost var mid, moves := shop.Now(), [];
    var done;
    done, moves, more := ReconcileRow(shop, stale, k, link, w.orders, w.ledger, resolved);
    SweepingOn(w, mid, shop.Now(), trace, moves, stale, k, link, resolved, done, more);
    trace' := trace + moves;
    SweptSaved(w, shop.Now(), stale, k + 1, more);
    r := if done.Err? then Err(done.error) else if done.value then Ok(count + 1) else Ok(count);
  }

  /**
   * The sweep over the rows it read. It is a run of the machine: it saves exactly the
   * rows it returns as resolved, each only once its group is settled, and asks the ledger
   * once for each row whose request was sent. Over an in-process ledger it resolves every
   * row or dies of an exception.
   */
  method ReconcileUnknownHolds(shop: Shop, stale: seq<(OrderId, nat)>, link: seq<Outcome>)
    returns (r: Result<nat, ShopError>, ghost trace: seq<Move>, ghost resolved: seq<(OrderId, nat)>)
    requires Stale(shop.orders, stale)
    modifies shop`orders, shop.ledger
    ensures shop.Now() == RunWorld(old(shop.Now()), trace)
    ensures SavedOnly(old(shop.Now()), shop.Now(), stale, resolved)
    ensures r.Ok? ==> r.value == |resolved| && AskedEach(old(shop.Now()), shop.Now(), stale, link, resolved)
    ensures shop.orders.Keys == old(shop.orders).Keys
    ensures forall o :: o in shop.orders ==> ConsumedThere(old(shop.orders)[o], shop.orders[o], resolved, o)
  {
    ghost var w := shop.Now();
    var count := 0;
    trace, resolved := [], [];
    SweepingStart(w, stale, link);
    for k := 0 to |stale|
      invariant count == |resolved| && Sweeping(w, shop.Now(), trace, stale, k, link, resolved)
    {
      r, trace, resolved := SweepRow(shop, stale, k, link, count, w, trace, resolved);
      if r.Err? {
        AllSaved(w.orders, resolved);
        return;
      }
      count := r.value;
    }
    AllSaved(w.orders, resolved);
    SweepingEnd(w, shop.Now(), trace, stale, link, resolved);
    return Ok(count), trace, resolved;
  }

  /**
   * The `stock.commit` handler: commits the group again and marks its receipts. A
   * commit that raises leaves Orders and the ledger as they were.
   */
  method DeliverStockCommit(shop: Shop, k: nat) returns (r: Result<(), ShopError>, ghost trace: seq<Move>)
    requires k < |shop.outbox| && shop.outbox[k].payload.StockCommit? && shop.outbox[k].state == Queued
    requires shop.outbox[k].payload.order in shop.orders
    modifies shop`orders, shop.ledger
    ensures shop.Now() == RunWorld(old(shop.Now()), trace)
    ensures r.Err? ==> shop.Now() == old(shop.Now())
    ensures var c, o := shop.outbox[k].payload.checkout, shop.outbox[k].payload.order;
            && (r.Ok? <==> CommitHolds(old(shop.ledger.State()), c, Some(o)).Ok?)
            && (r.Ok? ==>
                  && shop.ledger.State() == Next(old(shop.ledger.State()), Commit(c, Some(o)))
                  && Settled(shop.ledger.State().book, c)
                  && shop.orders == SetReceipts(old(shop.orders), o, UpdateGroup(old(shop.orders)[o].receipts, c, Consumed))
                  && forall i :: 0 <= i < |shop.orders[o].receipts| ==>
                       var row := old(shop.orders)[o].receipts[i];
                       shop.orders[o].receipts[i] == if row.checkout == c then Receipt(c, Consumed) else row)
  {
    ghost var w := shop.Now();
    var c, o := shop.outbox[k].payload.checkout, shop.outbox[k].payload.order;
    var done := shop.ledger.CommitHolds(c, Some(o));
    trace := [RedeliverCommit(k)];
    RunWorldOne(w, RedeliverCommit(k));
    Redelivers(w, k);
    if done.Err? {
      return Err(Refused(done.error)), trace;
    }
    CommitShape(w.ledger, c, Some(o));
    RedeliverSaves(shop.Now(), k);
    RunTwo(w, RedeliverCommit(k), RedeliverSave(k));
    shop.orders := shop.orders[o := shop.orders[o].(receipts := UpdateGroup(shop.orders[o].receipts, c, Consumed))];
    return Ok(()), [RedeliverCommit(k), RedeliverSave(k)];
  }

  lemma Redelivers(w: World, k: nat)
    requires k < |w.outbox| && w.outbox[k].payload.StockCommit? && w.outbox[k].state == Queued
    ensures NextWorld(w, RedeliverCommit(k))
         == w.(ledger := Next(w.ledger, Commit(w.outbox[k].payload.checkout, Some(w.outbox[k].payload.order))))
  {}

  lemma RedeliverSaves(w: World, k: nat)
    requires k < |w.outbox| && w.outbox[k].payload.StockCommit? && w.outbox[k].state == Queued
    requires w.outbox[k].payload.order in w.orders && Settled(w.ledger.book, w.outbox[k].payload.checkout)
    ensures var c, o := w.outbox[k].payload.checkout, w.outbox[k].payload.order;
            NextWorld(w, RedeliverSave(k))
            == w.(orders := SetReceipts(w.orders, o, UpdateGroup(w.orders[o].receipts, c, Consumed)))
  {}
}
