/**
 * Orders, payments and stock live in two databases that cannot commit together
 * (config/database_layout.py). This is the machine the whole shop runs on: every
 * committed transaction of either database is one move, any moves may interleave,
 * and a process may stop between any two of them.
 *
 * A fulfilment attempt (apps/payments/holds.py, `deliver_order_stock`) holds its
 * Order row for as long as it runs, so it is a job with a place in the code; its
 * ledger transactions stay when the Orders transaction around them rolls back.
 */
module Saga {
  import opened Wrappers
  import opened Lines
  import opened Books
  import opened Ledgers

  datatype OrderStatus = Pending | Paid | Packed | Shipped | Delivered | Cancelled | Refunded

  /** `ALLOWED_TRANSITIONS` */
  predicate Allowed(current: OrderStatus, target: OrderStatus) {
    match current
    case Pending => target == Paid || target == Cancelled
    case Paid => target == Packed || target == Refunded
    case Packed => target == Shipped || target == Refunded
    case Shipped => target == Delivered || target == Refunded
    case Delivered => target == Refunded
    case Cancelled => false
    case Refunded => false
  }

  /** The money was taken at some point. */
  predicate PaidLike(s: OrderStatus) { s != Pending && s != Cancelled }

  /** The statuses in which an attempt goes on to consume stock. */
  predicate Fulfilling(s: OrderStatus) { PaidLike(s) && s != Refunded }

  datatype ReceiptState = Held | Consumed | Freed | Unknown

  /** A StockHold row: what Orders asked the ledger to hold, and what it was told. */
  datatype Receipt = Receipt(checkout: CheckoutId, state: ReceiptState)

  datatype PaymentStatus = PayPending | PayPaid | PayFailed

  /** The Payment row of an order, or why there is none. */
  datatype Payment = NoSession | SessionFailed | Recorded(status: PaymentStatus)

  datatype Order = Order(status: OrderStatus, items: seq<Line>, receipts: seq<Receipt>, payment: Payment)

  datatype Payload =
    | FulfilStock(order: OrderId)
    | StockCommit(checkout: CheckoutId, order: OrderId)
    | RestoreStock(order: OrderId, lines: seq<Line>, checkouts: seq<CheckoutId>)

  datatype MessageState = Queued | Sent | Dead

  datatype Message = Message(payload: Payload, state: MessageState)

  /** A fulfilment attempt in flight: its place in the loops and its uncommitted Orders writes. */
  datatype Job = Job(receipts: seq<Receipt>, staged: seq<Message>, pos: nat, item: nat,
                     committed: map<int, int>, covering: bool)

  datatype World = World(ledger: Ledger, orders: map<OrderId, Order>, outbox: seq<Message>,
                         jobs: map<OrderId, Job>, carts: map<CheckoutId, seq<Line>>)

  function Start(opening: map<int, int>): World { World(Opened(opening), map[], [], map[], map[]) }

  /** What the caller of a remote commit learns. The in-process ledger always replies. */
  datatype Outcome = Replied | ReplyLost | NeverSent

  datatype Move =
    | Place(checkout: CheckoutId, items: seq<Line>, expiresAt: int)
    | Build(checkout: CheckoutId, order: OrderId)
    | OpenSession(order: OrderId)
    | FailSession(order: OrderId, released: bool)
    | Transition(order: OrderId, target: OrderStatus)
    | CancelByAdmin(order: OrderId)
    | FailPayment(order: OrderId)
    | Confirm(order: OrderId)
    | Refund(order: OrderId)
    | Begin(order: OrderId)
    | CommitReceipt(order: OrderId, outcome: Outcome)
    | PassItem(order: OrderId)
    | ReserveReplacement(order: OrderId, expiresAt: int)
    | CommitReplacement(order: OrderId)
    | Finish(order: OrderId)
    | Abort(order: OrderId)
    | DeliverRefund(message: nat)
    | ReconcileCommit(order: OrderId, receipt: nat)
    | ReconcileSave(order: OrderId, receipt: nat)
    | RedeliverCommit(message: nat)
    | RedeliverSave(message: nat)
    | Mark(message: nat, state: MessageState)
    | Stock(step: Step)

  // ------------------------------------------------------------ small pieces

  function Own(ord: Order): CheckoutId {
    if ord.receipts == [] then Blank else ord.receipts[0].checkout
  }

  function Checkouts(receipts: seq<Receipt>): seq<CheckoutId> {
    seq(|receipts|, i requires 0 <= i < |receipts| => receipts[i].checkout)
  }

  predicate HasUnknown(receipts: seq<Receipt>) {
    exists i :: 0 <= i < |receipts| && receipts[i].state == Unknown
  }

  /** `filter(state=ACTIVE).update(state=...)` */
  function UpdateHeld(receipts: seq<Receipt>, state: ReceiptState): seq<Receipt> {
    seq(|receipts|, i requires 0 <= i < |receipts| =>
      if receipts[i].state == Held then receipts[i].(state := state) else receipts[i])
  }

  function UpdateAll(receipts: seq<Receipt>, state: ReceiptState): seq<Receipt> {
    seq(|receipts|, i requires 0 <= i < |receipts| => receipts[i].(state := state))
  }

  function UpdateGroup(receipts: seq<Receipt>, c: CheckoutId, state: ReceiptState): seq<Receipt> {
    seq(|receipts|, i requires 0 <= i < |receipts| =>
      if receipts[i].checkout == c then receipts[i].(state := state) else receipts[i])
  }

  function AddAll(m: map<int, int>, n: map<int, int>): map<int, int> {
    map v | v in m.Keys + n.Keys :: Get(m, v) + Get(n, v)
  }

  predicate HasFulfilMessage(outbox: seq<Message>, o: OrderId) {
    exists k :: 0 <= k < |outbox| && outbox[k].payload == FulfilStock(o)
  }

  /** `item.qty - committed_by_variant.get(item.variant_id, 0)` */
  function ShortfallOf(ord: Order, j: Job): int
    requires j.item < |ord.items|
  {
    ord.items[j.item].qty - Get(j.committed, ord.items[j.item].variant)
  }

  function Without(jobs: map<OrderId, Job>, o: OrderId): map<OrderId, Job> { jobs - {o} }

  /** Where a confirmation answers False. */
  predicate AlreadyPaid(orders: map<OrderId, Order>, o: OrderId) {
    o in orders && orders[o].payment == Recorded(PayPaid)
  }

  /** Where a confirmation raises: no payment to confirm, or an order that may not become paid. */
  predicate CannotBePaid(orders: map<OrderId, Order>, o: OrderId) {
    || o !in orders || !orders[o].payment.Recorded?
    || (orders[o].payment.status != PayPaid && !Allowed(orders[o].status, Paid))
  }

  // ------------------------------------------------------------ when a move can happen

  /** The order exists and no attempt holds its row. */
  predicate Unlocked(w: World, o: OrderId) { o in w.orders && o !in w.jobs }

  /** The attempt is past its receipts, with none of them in doubt. */
  predicate CoveringItems(w: World, o: OrderId) {
    && o in w.orders && o in w.jobs
    && w.jobs[o].pos == |w.jobs[o].receipts| && !HasUnknown(w.jobs[o].receipts)
  }

  /** A row is saved as consumed only after its commit, which leaves no active row in its group. */
  predicate Enabled(w: World, m: Move) {
    match m
    case Place(c, items, e) =>
      && c.Minted? && ReserveKey(c) !in w.ledger.keys && DistinctVariants(items)
      && ReserveLines(w.ledger, c, items, e).Ok?
    case Build(c, o) => c in w.carts && o !in w.orders
    case OpenSession(o) => o in w.orders && w.orders[o].payment == NoSession
    case FailSession(o, _) => o in w.orders && w.orders[o].payment == NoSession
    case Transition(o, t) =>
      Unlocked(w, o) && Allowed(w.orders[o].status, t) && t != Paid && t != Refunded
    case CancelByAdmin(o) => Unlocked(w, o) && Allowed(w.orders[o].status, Cancelled)
    case FailPayment(o) =>
      Unlocked(w, o) && w.orders[o].payment == Recorded(PayPending) && Allowed(w.orders[o].status, Cancelled)
    case Confirm(o) =>
      && Unlocked(w, o) && w.orders[o].payment.Recorded? && w.orders[o].payment.status != PayPaid
      && Allowed(w.orders[o].status, Paid)
    case Refund(o) => Unlocked(w, o) && Allowed(w.orders[o].status, Refunded)
    case Begin(o) => Unlocked(w, o) && HasFulfilMessage(w.outbox, o) && Fulfilling(w.orders[o].status)
    case CommitReceipt(o, _) => o in w.orders && o in w.jobs && w.jobs[o].pos < |w.jobs[o].receipts|
    case PassItem(o) =>
      && CoveringItems(w, o) && w.jobs[o].item < |w.orders[o].items| && !w.jobs[o].covering
      && ShortfallOf(w.orders[o], w.jobs[o]) <= 0
    case ReserveReplacement(o, _) =>
      && CoveringItems(w, o) && w.jobs[o].item < |w.orders[o].items| && !w.jobs[o].covering
      && ShortfallOf(w.orders[o], w.jobs[o]) > 0
    case CommitReplacement(o) => CoveringItems(w, o) && w.jobs[o].item < |w.orders[o].items| && w.jobs[o].covering
    case Finish(o) => CoveringItems(w, o) && w.jobs[o].item == |w.orders[o].items|
    case Abort(o) => o in w.jobs
    case DeliverRefund(k) => k < |w.outbox| && w.outbox[k].payload.RestoreStock?
    case ReconcileCommit(o, i) =>
      o in w.orders && i < |w.orders[o].receipts| && w.orders[o].receipts[i].state == Unknown
    case ReconcileSave(o, i) =>
      && o in w.orders && i < |w.orders[o].receipts| && w.orders[o].receipts[i].state == Unknown
      && Settled(w.ledger.book, w.orders[o].receipts[i].checkout)
    case RedeliverCommit(k) => k < |w.outbox| && w.outbox[k].payload.StockCommit? && w.outbox[k].state == Queued
    case RedeliverSave(k) =>
      && k < |w.outbox| && w.outbox[k].payload.StockCommit? && w.outbox[k].state == Queued
      && w.outbox[k].payload.order in w.orders && Settled(w.ledger.book, w.outbox[k].payload.checkout)
    case Mark(k, s) => k < |w.outbox| && s != Queued
    case Stock(s) => s.Release? || s.Expire? || (s.Adjust? && s.ref == None)
  }

  // ------------------------------------------------------------ what it does

  function SetOrder(w: World, o: OrderId, ord: Order): World { w.(orders := w.orders[o := ord]) }

  function SetJob(w: World, o: OrderId, j: Job): World { w.(jobs := w.jobs[o := j]) }

  /** One receipt of the attempt's first loop. */
  function DoCommitReceipt(w: World, o: OrderId, outcome: Outcome): World
    requires Enabled(w, CommitReceipt(o, outcome))
  {
    var j := w.jobs[o];
    var r := j.receipts[j.pos];
    if r.state != Held && r.state != Consumed then SetJob(w, o, j.(pos := j.pos + 1))
    else
      var intent := StockCommit(r.checkout, o);
      match outcome
      case Replied =>
        (match CommitHolds(w.ledger, r.checkout, Some(o))
         case Err(_) => w.(jobs := Without(w.jobs, o))
         case Ok((l, m)) =>
           SetJob(w.(ledger := l), o,
                  j.(receipts := j.receipts[j.pos := r.(state := Consumed)],
                     staged := j.staged + [Message(intent, Sent)],
                     committed := AddAll(j.committed, m),
                     pos := j.pos + 1)))
      case _ =>
        var l := if outcome == ReplyLost then Next(w.ledger, Commit(r.checkout, Some(o))) else w.ledger;
        SetJob(w.(ledger := l), o,
               j.(receipts := j.receipts[j.pos := if r.state == Held then r.(state := Unknown) else r],
                  staged := j.staged + [Message(intent, Queued)],
                  pos := j.pos + 1))
  }

  function DoReserveReplacement(w: World, o: OrderId, e: int): World
    requires Enabled(w, ReserveReplacement(o, e))
  {
    var j, v := w.jobs[o], w.orders[o].items[w.jobs[o].item].variant;
    match ReserveLines(w.ledger, Shortfall(o, v), [Line(v, ShortfallOf(w.orders[o], j))], e)
    case Err(_) => w.(jobs := Without(w.jobs, o))
    case Ok(l) => SetJob(w.(ledger := l), o, j.(covering := true))
  }

  /** The totals `commit_holds` returns are not read here; the shortfall is counted as covered. */
  function DoCommitReplacement(w: World, o: OrderId): World
    requires Enabled(w, CommitReplacement(o))
  {
    var j, v := w.jobs[o], w.orders[o].items[w.jobs[o].item].variant;
    match CommitHolds(w.ledger, Shortfall(o, v), Some(o))
    case Err(_) => w.(jobs := Without(w.jobs, o))
    case Ok((l, _)) =>
      SetJob(w.(ledger := l), o,
             j.(committed := Plus(j.committed, v, ShortfallOf(w.orders[o], j)), covering := false, item := j.item + 1))
  }

  function Do(w: World, m: Move): World
    requires Enabled(w, m)
  {
    match m
    case Place(c, items, e) => w.(ledger := Next(w.ledger, Reserve(c, items, e)), carts := w.carts[c := items])
    case Build(c, o) =>
      w.(carts := w.carts - {c}, orders := w.orders[o := Order(Pending, w.carts[c], [Receipt(c, Held)], NoSession)])
    case OpenSession(o) => SetOrder(w, o, w.orders[o].(payment := Recorded(PayPending)))
    case FailSession(o, released) =>
      SetOrder(w, o, w.orders[o].(payment := SessionFailed,
                                  receipts := UpdateAll(w.orders[o].receipts, if released then Freed else Unknown)))
    case Transition(o, t) => SetOrder(w, o, w.orders[o].(status := t))
    case CancelByAdmin(o) =>
      SetOrder(w, o, w.orders[o].(status := Cancelled, receipts := UpdateHeld(w.orders[o].receipts, Freed)))
    case FailPayment(o) => SetOrder(w, o, w.orders[o].(status := Cancelled, payment := Recorded(PayFailed)))
    case Confirm(o) =>
      SetOrder(w, o, w.orders[o].(status := Paid, payment := Recorded(PayPaid)))
        .(outbox := w.outbox + [Message(FulfilStock(o), Queued)])
    case Refund(o) =>
      SetOrder(w, o, w.orders[o].(status := Refunded))
        .(outbox := w.outbox + [Message(RestoreStock(o, w.orders[o].items, Checkouts(w.orders[o].receipts)), Queued)])
    case Begin(o) => SetJob(w, o, Job(w.orders[o].receipts, [], 0, 0, map[], false))
    case CommitReceipt(o, outcome) => DoCommitReceipt(w, o, outcome)
    case PassItem(o) => SetJob(w, o, w.jobs[o].(item := w.jobs[o].item + 1))
    case ReserveReplacement(o, e) => DoReserveReplacement(w, o, e)
    case CommitReplacement(o) => DoCommitReplacement(w, o)
    case Finish(o) =>
      SetOrder(w, o, w.orders[o].(receipts := w.jobs[o].receipts))
        .(outbox := w.outbox + w.jobs[o].staged, jobs := Without(w.jobs, o))
    case Abort(o) => w.(jobs := Without(w.jobs, o))
    case DeliverRefund(k) =>
      w.(ledger := Next(w.ledger, Restore(w.outbox[k].payload.order, w.outbox[k].payload.lines)))
    case ReconcileCommit(o, i) =>
      w.(ledger := Next(w.ledger, Commit(w.orders[o].receipts[i].checkout, Some(o))))
    case ReconcileSave(o, i) =>
      SetOrder(w, o, w.orders[o].(receipts := w.orders[o].receipts[i := w.orders[o].receipts[i].(state := Consumed)]))
    case RedeliverCommit(k) =>
      w.(ledger := Next(w.ledger, Commit(w.outbox[k].payload.checkout, Some(w.outbox[k].payload.order))))
    case RedeliverSave(k) =>
      var o := w.outbox[k].payload.order;
      SetOrder(w, o, w.orders[o].(receipts := UpdateGroup(w.orders[o].receipts, w.outbox[k].payload.checkout, Consumed)))
    case Mark(k, s) => w.(outbox := w.outbox[k := w.outbox[k].(state := s)])
    case Stock(s) => w.(ledger := Next(w.ledger, s))
  }

  /** A move that cannot happen raises, or returns, and leaves both databases as they were. */
  function NextWorld(w: World, m: Move): World {
    if Enabled(w, m) then Do(w, m) else w
  }

  function RunWorld(w: World, moves: seq<Move>): World {
    if moves == [] then w else NextWorld(RunWorld(w, moves[..|moves| - 1]), moves[|moves| - 1])
  }

  lemma RunWorldSnoc(w: World, moves: seq<Move>, m: Move)
    ensures RunWorld(w, moves + [m]) == NextWorld(RunWorld(w, moves), m)
  {
    assert (moves + [m])[..|moves|] == moves;
  }

  lemma {:induction false} RunWorldAppend(w: World, a: seq<Move>, b: seq<Move>)
    ensures RunWorld(w, a + b) == RunWorld(RunWorld(w, a), b)
  {
    if b == [] {
      assert a + b == a;
    } else {
      var n := |b| - 1;
      assert a + b == (a + b[..n]) + [b[n]];
      RunWorldSnoc(w, a + b[..n], b[n]);
      RunWorldAppend(w, a, b[..n]);
    }
  }

  lemma ComposeOne(w: World, a: seq<Move>, m: Move, mid: World, end: World)
    requires RunWorld(w, a) == mid && NextWorld(mid, m) == end
    ensures RunWorld(w, a + [m]) == end
  {
    RunWorldSnoc(w, a, m);
  }

  /**
   * No commit reply is lost for a receipt that Orders already recorded as consumed.
   * The in-process ledger always replies, so every run of it is heard.
   */
  predicate Heard(w: World, m: Move) {
    m.CommitReceipt? && m.outcome != Replied && Enabled(w, m) ==>
      w.jobs[m.order].receipts[w.jobs[m.order].pos].state != Consumed
  }

  /** `w'` is where some `n` moves lead from `w`, all of them heard. */
  ghost predicate HeardRun(w: World, w': World, n: nat)
    decreases n
  {
    if n == 0 then w' == w
    else exists u, m :: HeardRun(w, u, n - 1) && Heard(u, m) && w' == NextWorld(u, m)
  }

  /** The last move of a heard run, and where it was made. */
  lemma LastHeard(w: World, w': World, n: nat) returns (u: World, m: Move)
    requires n > 0 && HeardRun(w, w', n)
    ensures HeardRun(w, u, n - 1) && Heard(u, m) && w' == NextWorld(u, m)
  {
    u, m :| HeardRun(w, u, n - 1) && Heard(u, m) && w' == NextWorld(u, m);
  }

  /** Every run of the in-process ledger, which answers every commit, is heard. */
  lemma {:induction false} AnsweredRunIsHeard(w: World, moves: seq<Move>)
    requires forall m :: m in moves && m.CommitReceipt? ==> m.outcome == Replied
    ensures HeardRun(w, RunWorld(w, moves), |moves|)
  {
    if moves != [] {
      var n := |moves| - 1;
      forall m | m in moves[..n] && m.CommitReceipt? ensures m.outcome == Replied {
        assert m in moves;
      }
      AnsweredRunIsHeard(w, moves[..n]);
      assert moves[n] in moves;
      var u := RunWorld(w, moves[..n]);
      assert HeardRun(w, u, n) && Heard(u, moves[n]);
    }
  }

  /** The ledger an attempt's move leaves is the ledger it found, or one ledger transaction later. */
  lemma AttemptIsStep(w: World, m: Move) returns (s: Step)
    requires Enabled(w, m) && (m.CommitReceipt? || m.ReserveReplacement? || m.CommitReplacement?)
    ensures Do(w, m).ledger == w.ledger || Do(w, m).ledger == Next(w.ledger, s)
  {
    var j := w.jobs[m.order];
    match m
    case CommitReceipt(o, _) => s := Commit(j.receipts[j.pos].checkout, Some(o));
    case ReserveReplacement(o, e) =>
      var v := w.orders[o].items[j.item].variant;
      s := Reserve(Shortfall(o, v), [Line(v, ShortfallOf(w.orders[o], j))], e);
    case CommitReplacement(o) => s := Commit(Shortfall(o, w.orders[o].items[j.item].variant), Some(o));
  }

  /** So is the ledger any move leaves. */
  lemma MoveIsStep(w: World, m: Move) returns (s: Step)
    requires Enabled(w, m)
    ensures Do(w, m).ledger == w.ledger || Do(w, m).ledger == Next(w.ledger, s)
  {
    s := Release(0);
    if m.CommitReceipt? || m.ReserveReplacement? || m.CommitReplacement? {
      s := AttemptIsStep(w, m);
    } else if m.Place? {
      s := Reserve(m.checkout, m.items, m.expiresAt);
    } else if m.DeliverRefund? {
      s := Restore(w.outbox[m.message].payload.order, w.outbox[m.message].payload.lines);
    } else if m.ReconcileCommit? {
      s := Commit(w.orders[m.order].receipts[m.receipt].checkout, Some(m.order));
    } else if m.RedeliverCommit? {
      s := Commit(w.outbox[m.message].payload.checkout, Some(w.outbox[m.message].payload.order));
    } else if m.Stock? {
      s := m.step;
    }
  }

  lemma SameLater(l: Ledger)
    ensures Later(l, l)
  {}

  lemma MoveLater(w: World, opening: map<int, int>, m: Move)
    requires LedgerOk(w.ledger, opening)
    ensures Later(w.ledger, NextWorld(w, m).ledger)
  {
    SameLater(w.ledger);
    if Enabled(w, m) {
      var s := MoveIsStep(w, m);
      StepKeeps(w.ledger, opening, s);
    }
  }

  /** A sound ledger stays sound over every run of the machine. */
  lemma {:induction false} RunLedgerOk(w: World, opening: map<int, int>, moves: seq<Move>)
    requires LedgerOk(w.ledger, opening)
    ensures LedgerOk(RunWorld(w, moves).ledger, opening)
  {
    if moves != [] {
      var n := |moves| - 1;
      RunLedgerOk(w, opening, moves[..n]);
      MoveLedgerOk(RunWorld(w, moves[..n]), opening, moves[n]);
    }
  }

  lemma MoveLedgerOk(w: World, opening: map<int, int>, m: Move)
    requires LedgerOk(w.ledger, opening)
    ensures LedgerOk(NextWorld(w, m).ledger, opening)
  {
    if Enabled(w, m) {
      var s := MoveIsStep(w, m);
      StepKeeps(w.ledger, opening, s);
    }
  }
}
