/**
 * The Orders side of fulfilment as its callers run it (apps/payments/holds.py,
 * apps/orders/refunds.py, apps/payments/providers/simulated.py,
 * apps/payments/providers/paymongo.py, apps/orders/admin.py, apps/orders/models.py).
 *
 * The methods write rows in place and undo them when their transaction raises.
 * Each returns a ghost trace and proves that the two databases end where that run
 * of the `Saga` machine ends, so the machine's theorems hold of them.
 */
module Fulfilment {
  import opened Wrappers
  import opened Lines
  import opened Books
  import opened Ledgers
  import opened LocalProvider
  import opened Saga

  datatype ShopError =
    | Missing
    | Unpaid
    | IllegalTransition
    | OutcomeUnknown
    | ShortfallUncovered
    | ReleaseFailed
    | Refused(error: StockError)

  /** What happens to the k-th ledger call of an attempt; past the script every call replies. */
  function Fate(link: seq<Outcome>, k: nat): Outcome { if k < |link| then link[k] else Replied }

  function InFlight(l: Ledger, orders: map<OrderId, Order>, outbox: seq<Message>, o: OrderId, j: Job,
                    carts: map<CheckoutId, seq<Line>>): World {
    World(l, orders, outbox, map[o := j], carts)
  }

  /** The receipts an attempt goes to the ledger for. */
  predicate Live(r: Receipt) { r.state == Held || r.state == Consumed }

  /** What the first `n` receipts become. */
  function Settle(receipts: seq<Receipt>, link: seq<Outcome>, n: nat): seq<Receipt>
    requires n <= |receipts|
  {
    seq(|receipts|, i requires 0 <= i < |receipts| =>
      var r := receipts[i];
      if i >= n || r.state != Held then r
      else r.(state := if Fate(link, i) == Replied then Consumed else Unknown))
  }

  /** The commit instructions the first `n` receipts leave in the outbox. */
  function Intents(receipts: seq<Receipt>, o: OrderId, link: seq<Outcome>, n: nat): seq<Message>
    requires n <= |receipts|
  {
    if n == 0 then []
    else
      Intents(receipts, o, link, n - 1) + Intent(receipts[n - 1], o, Fate(link, n - 1))
  }

  /** Where the receipts are that an attempt goes to the ledger for. */
  function AskedAt(rows: seq<Receipt>, n: nat): (at: seq<nat>)
    requires n <= |rows|
    ensures forall k :: 0 <= k < |at| ==> at[k] < n
  {
    if n == 0 then [] else AskedAt(rows, n - 1) + if rows[n - 1].state in {Held, Consumed} then [n - 1] else []
  }

  lemma {:induction false} AskedAtExactly(rows: seq<Receipt>, n: nat, i: nat)
    requires n <= |rows|
    ensures i in AskedAt(rows, n) <==> i < n && rows[i].state in {Held, Consumed}
    ensures forall j, k :: 0 <= j < k < |AskedAt(rows, n)| ==> AskedAt(rows, n)[j] < AskedAt(rows, n)[k]
  {
    if n > 0 {
      AskedAtExactly(rows, n - 1, i);
    }
  }

  /**
   * One instruction per receipt that is held or consumed, in the order of the receipts; it
   * stays queued where its commit went unanswered. Past the script every commit is answered.
   */
  lemma {:induction false} IntentsExact(rows: seq<Receipt>, o: OrderId, link: seq<Outcome>, n: nat, k: nat)
    requires n <= |rows| && k < |AskedAt(rows, n)|
    ensures |Intents(rows, o, link, n)| == |AskedAt(rows, n)|
    ensures var i := AskedAt(rows, n)[k];
            Intents(rows, o, link, n)[k]
            == Message(StockCommit(rows[i].checkout, o), if i < |link| && link[i] != Replied then Queued else Sent)
  {
    IntentsCounted(rows, o, link, n);
    IntentsCounted(rows, o, link, n - 1);
    var before, row := Intents(rows, o, link, n - 1), rows[n - 1];
    if k < |before| {
      IntentsExact(rows, o, link, n - 1, k);
    } else {
      LastIntent(before, row, o, Fate(link, n - 1));
    }
  }

  lemma LastIntent(before: seq<Message>, row: Receipt, o: OrderId, fate: Outcome)
    requires row.state in {Held, Consumed}
    ensures (before + Intent(row, o, fate))[|before|] == Message(StockCommit(row.checkout, o), if fate == Replied then Sent else Queued)
  {}

  lemma {:induction false} IntentsCounted(rows: seq<Receipt>, o: OrderId, link: seq<Outcome>, n: nat)
    requires n <= |rows|
    ensures |Intents(rows, o, link, n)| == |AskedAt(rows, n)|
  {
    if n > 0 {
      IntentsCounted(rows, o, link, n - 1);
    }
  }

  lemma Compose(w: World, a: seq<Move>, b: seq<Move>, mid: World, end: World)
    requires RunWorld(w, a) == mid && RunWorld(mid, b) == end
    ensures RunWorld(w, a + b) == end
  {
    RunWorldAppend(w, a, b);
  }

  lemma RunWorldOne(w: World, m: Move)
    ensures RunWorld(w, [m]) == NextWorld(w, m)
  {
    RunWorldSnoc(w, [], m);
    assert [] + [m] == [m];
  }

  // ------------------------------------------------------------ one step of an attempt, as a move

  /** A receipt that is neither held nor consumed is passed over. */
  lemma SkipsReceipt(w: World, o: OrderId, j: Job, outcome: Outcome)
    requires w.jobs == map[o := j] && o in w.orders && j.pos < |j.receipts| && !Live(j.receipts[j.pos])
    ensures NextWorld(w, CommitReceipt(o, outcome)) == w.(jobs := map[o := j.(pos := j.pos + 1)])
  {
    assert w.jobs[o := j.(pos := j.pos + 1)] == map[o := j.(pos := j.pos + 1)];
  }

  /** The job after a receipt's commit replied with these totals. */
  function AfterReply(o: OrderId, j: Job, m: map<int, int>): Job
    requires j.pos < |j.receipts|
  {
    var r := j.receipts[j.pos];
    j.(receipts := j.receipts[j.pos := r.(state := Consumed)], staged := j.staged + [Message(StockCommit(r.checkout, o), Sent)],
       committed := AddAll(j.committed, m), pos := j.pos + 1)
  }

  lemma RepliedReceipt(w: World, o: OrderId, j: Job, l: Ledger, m: map<int, int>)
    requires w.jobs == map[o := j] && o in w.orders && j.pos < |j.receipts| && Live(j.receipts[j.pos])
    requires CommitHolds(w.ledger, j.receipts[j.pos].checkout, Some(o)) == Ok((l, m))
    ensures NextWorld(w, CommitReceipt(o, Replied)) == w.(ledger := l, jobs := map[o := AfterReply(o, j, m)])
  {
    assert w.jobs[o := AfterReply(o, j, m)] == map[o := AfterReply(o, j, m)];
  }

  lemma RefusedReceipt(w: World, o: OrderId, j: Job)
    requires w.jobs == map[o := j] && o in w.orders && j.pos < |j.receipts| && Live(j.receipts[j.pos])
    requires CommitHolds(w.ledger, j.receipts[j.pos].checkout, Some(o)).Err?
    ensures NextWorld(w, CommitReceipt(o, Replied)) == w.(jobs := map[])
  {
    assert Without(w.jobs, o) == map[];
  }

  /** The job after a receipt's commit was not answered. */
  function AfterSilence(o: OrderId, j: Job): Job
    requires j.pos < |j.receipts|
  {
    var r := j.receipts[j.pos];
    j.(receipts := j.receipts[j.pos := if r.state == Held then r.(state := Unknown) else r],
       staged := j.staged + [Message(StockCommit(r.checkout, o), Queued)], pos := j.pos + 1)
  }

  lemma SilentReceipt(w: World, o: OrderId, j: Job, outcome: Outcome)
    requires w.jobs == map[o := j] && o in w.orders && j.pos < |j.receipts| && Live(j.receipts[j.pos])
    requires outcome != Replied
    ensures var l := if outcome == ReplyLost then Next(w.ledger, Commit(j.receipts[j.pos].checkout, Some(o))) else w.ledger;
            NextWorld(w, CommitReceipt(o, outcome)) == w.(ledger := l, jobs := map[o := AfterSilence(o, j)])
  {
    assert w.jobs[o := AfterSilence(o, j)] == map[o := AfterSilence(o, j)];
  }

  /** Past its receipts with none in doubt, at an item. */
  predicate AtItem(w: World, o: OrderId, j: Job) {
    && w.jobs == map[o := j] && o in w.orders && j.pos == |j.receipts| && !HasUnknown(j.receipts)
    && j.item < |w.orders[o].items|
  }

  lemma PassesItem(w: World, o: OrderId, j: Job)
    requires AtItem(w, o, j) && !j.covering && ShortfallOf(w.orders[o], j) <= 0
    ensures NextWorld(w, PassItem(o)) == w.(jobs := map[o := j.(item := j.item + 1)])
  {
    assert w.jobs[o := j.(item := j.item + 1)] == map[o := j.(item := j.item + 1)];
  }

  lemma ReservesReplacement(w: World, o: OrderId, j: Job, e: int)
    requires AtItem(w, o, j) && !j.covering && ShortfallOf(w.orders[o], j) > 0
    ensures var v := w.orders[o].items[j.item].variant;
            var r := ReserveLines(w.ledger, Shortfall(o, v), [Line(v, ShortfallOf(w.orders[o], j))], e);
            NextWorld(w, ReserveReplacement(o, e))
            == match r
               case Err(_) => w.(jobs := map[])
               case Ok(l) => w.(ledger := l, jobs := map[o := j.(covering := true)])
  {
    assert Without(w.jobs, o) == map[];
    assert w.jobs[o := j.(covering := true)] == map[o := j.(covering := true)];
  }

  lemma CommitsReplacement(w: World, o: OrderId, j: Job)
    requires AtItem(w, o, j) && j.covering
    ensures var v := w.orders[o].items[j.item].variant;
            var j' := j.(committed := Plus(j.committed, v, ShortfallOf(w.orders[o], j)), covering := false, item := j.item + 1);
            NextWorld(w, CommitReplacement(o))
            == match CommitHolds(w.ledger, Shortfall(o, v), Some(o))
               case Err(_) => w.(jobs := map[])
               case Ok((l, _)) => w.(ledger := l, jobs := map[o := j'])
  {
    assert Without(w.jobs, o) == map[];
    var v := w.orders[o].items[j.item].variant;
    var j' := j.(committed := Plus(j.committed, v, ShortfallOf(w.orders[o], j)), covering := false, item := j.item + 1);
    assert w.jobs[o := j'] == map[o := j'];
  }

  lemma Aborts(w: World, o: OrderId, j: Job)
    requires w.jobs == map[o := j]
    ensures NextWorld(w, Abort(o)) == w.(jobs := map[])
  {
    assert Without(w.jobs, o) == map[];
  }

  lemma Finishes(w: World, o: OrderId, j: Job)
    requires w.jobs == map[o := j] && o in w.orders && j.pos == |j.receipts| && !HasUnknown(j.receipts)
    requires j.item == |w.orders[o].items|
    ensures NextWorld(w, Finish(o))
         == w.(orders := w.orders[o := w.orders[o].(receipts := j.receipts)], outbox := w.outbox + j.staged, jobs := map[])
  {
    assert Without(w.jobs, o) == map[];
  }

  // ------------------------------------------------------------ an attempt's moves, and what they are not

  /** A move only order `o`'s own attempt makes. */
  predicate Attempting(m: Move, o: OrderId) {
    match m
    case Begin(p) => p == o
    case CommitReceipt(p, _) => p == o
    case PassItem(p) => p == o
    case ReserveReplacement(p, _) => p == o
    case CommitReplacement(p) => p == o
    case Finish(p) => p == o
    case Abort(p) => p == o
    case _ => false
  }

  predicate Replies(m: Move) { m.CommitReceipt? ==> m.outcome == Replied }

  /** Every move is one of `o`'s attempt, and with an empty script every commit was answered. */
  ghost predicate AttemptTrace(trace: seq<Move>, o: OrderId, link: seq<Outcome>) {
    forall m :: m in trace ==> Attempting(m, o) && (link == [] ==> Replies(m))
  }

  /** The attempt is not given up on the way. */
  ghost predicate Unbroken(trace: seq<Move>) { forall m :: m in trace ==> !m.Abort? }

  /** The job after `k` receipts of these rows. */
  function PastReceipts(rows: seq<Receipt>, o: OrderId, link: seq<Outcome>, k: nat, committed: map<int, int>): Job
    requires k <= |rows|
  {
    Job(Settle(rows, link, k), Intents(rows, o, link, k), k, 0, committed, false)
  }

  lemma PastOneMore(rows: seq<Receipt>, o: OrderId, link: seq<Outcome>, k: nat, committed: map<int, int>, m: map<int, int>)
    requires k < |rows|
    ensures var j := PastReceipts(rows, o, link, k, committed);
            && j.receipts[k] == rows[k]
            && (!Live(rows[k]) ==> j.(pos := k + 1) == PastReceipts(rows, o, link, k + 1, committed))
            && (Live(rows[k]) && Fate(link, k) == Replied ==>
                  AfterReply(o, j, m) == PastReceipts(rows, o, link, k + 1, AddAll(committed, m)))
            && (Live(rows[k]) && Fate(link, k) != Replied ==>
                  AfterSilence(o, j) == PastReceipts(rows, o, link, k + 1, committed))
  {
    var s, t := Settle(rows, link, k), Settle(rows, link, k + 1);
    forall i | 0 <= i < |rows| && i != k ensures s[i] == t[i] {}
    if !Live(rows[k]) {
      assert s == t;
    } else if Fate(link, k) == Replied {
      assert s[k := s[k].(state := Consumed)] == t;
    } else {
      assert s[k := if s[k].state == Held then s[k].(state := Unknown) else s[k]] == t;
    }
  }

  lemma AddNothing(m: map<int, int>)
    ensures AddAll(m, map[]) == m
  {}

  function SetReceipts(orders: map<OrderId, Order>, o: OrderId, rows: seq<Receipt>): map<OrderId, Order>
    requires o in orders
  {
    orders[o := orders[o].(receipts := rows)]
  }

  function SetReceipt(orders: map<OrderId, Order>, o: OrderId, k: nat, state: ReceiptState): map<OrderId, Order>
    requires o in orders && k < |orders[o].receipts|
  {
    SetReceipts(orders, o, orders[o].receipts[k := orders[o].receipts[k].(state := state)])
  }

  lemma SameReceipt(orders: map<OrderId, Order>, o: OrderId, k: nat)
    requires o in orders && k < |orders[o].receipts|
    ensures SetReceipt(orders, o, k, orders[o].receipts[k].state) == orders
  {
    var rows := orders[o].receipts;
    assert rows[k := rows[k].(state := rows[k].state)] == rows;
  }

  /** What one receipt asks of the ledger, and what the attempt learns. */
  function Ask(l: Ledger, row: Receipt, o: OrderId, fate: Outcome): Result<(Ledger, map<int, int>), StockError> {
    if !Live(row) || fate == NeverSent then Ok((l, map[]))
    else if fate == Replied then CommitHolds(l, row.checkout, Some(o))
    else Ok((Next(l, Commit(row.checkout, Some(o))), map[]))
  }

  function Answered(row: Receipt, fate: Outcome): ReceiptState {
    if row.state != Held then row.state else if fate == Replied then Consumed else Unknown
  }

  function Intent(row: Receipt, o: OrderId, fate: Outcome): seq<Message> {
    if Live(row) then [Message(StockCommit(row.checkout, o), if fate == Replied then Sent else Queued)] else []
  }

  lemma NothingSettled(orders: map<OrderId, Order>, outbox: seq<Message>, o: OrderId, link: seq<Outcome>)
    requires o in orders
    ensures var rows := orders[o].receipts;
            SetReceipts(orders, o, Settle(rows, link, 0)) == orders && outbox + Intents(rows, o, link, 0) == outbox
  {
    assert Settle(orders[o].receipts, link, 0) == orders[o].receipts;
  }

  lemma SettleOneMore(orders: map<OrderId, Order>, rows: seq<Receipt>, o: OrderId, link: seq<Outcome>, k: nat)
    requires o in orders && k < |rows| && orders[o].receipts == rows
    ensures Settle(rows, link, k)[k] == rows[k]
    ensures SetReceipt(SetReceipts(orders, o, Settle(rows, link, k)), o, k, Answered(rows[k], Fate(link, k)))
         == SetReceipts(orders, o, Settle(rows, link, k + 1))
  {
    var s, t := Settle(rows, link, k), Settle(rows, link, k + 1);
    assert s[k := s[k].(state := Answered(rows[k], Fate(link, k)))] == t;
  }

  /** One pass of the receipts loop is one move of the machine. */
  lemma ReceiptMove(w: World, rows: seq<Receipt>, o: OrderId, link: seq<Outcome>, k: nat, committed: map<int, int>)
    requires k < |rows| && o in w.orders && w.jobs == map[o := PastReceipts(rows, o, link, k, committed)]
    ensures NextWorld(w, CommitReceipt(o, Fate(link, k))) == ReceiptDone(w, rows, o, link, k, committed)
  {
    var j := PastReceipts(rows, o, link, k, committed);
    PastOneMore(rows, o, link, k, committed, map[]);
    AddNothing(committed);
    if !Live(rows[k]) {
      SkipsReceipt(w, o, j, Fate(link, k));
    } else if Fate(link, k) == Replied {
      match CommitHolds(w.ledger, rows[k].checkout, Some(o))
      case Err(_) => RefusedReceipt(w, o, j);
      case Ok((l, m)) =>
        PastOneMore(rows, o, link, k, committed, m);
        RepliedReceipt(w, o, j, l, m);
    } else {
      SilentReceipt(w, o, j, Fate(link, k));
    }
  }

  /** With nothing in doubt at the end, every held receipt was consumed. */
  lemma SettledAll(rows: seq<Receipt>, link: seq<Outcome>)
    requires !HasUnknown(Settle(rows, link, |rows|))
    ensures Settle(rows, link, |rows|) == UpdateHeld(rows, Consumed)
  {
    var t := Settle(rows, link, |rows|);
    forall i | 0 <= i < |rows| ensures t[i] == UpdateHeld(rows, Consumed)[i] {
      assert t[i].state != Unknown;
    }
  }

  /** No receipt is in doubt, and the commit of no held receipt goes unanswered. */
  predicate AllHeard(rows: seq<Receipt>, link: seq<Outcome>) {
    forall i :: 0 <= i < |rows| ==> rows[i].state != Unknown && (rows[i].state == Held && i < |link| ==> link[i] == Replied)
  }

  /** And no receipt was in doubt before, nor any held receipt's commit left unanswered. */
  lemma SettledHeard(rows: seq<Receipt>, link: seq<Outcome>)
    requires !HasUnknown(Settle(rows, link, |rows|))
    ensures AllHeard(rows, link)
  {
    var t := Settle(rows, link, |rows|);
    forall i | 0 <= i < |rows|
      ensures rows[i].state != Unknown && (rows[i].state == Held && i < |link| ==> link[i] == Replied)
    {
      assert t[i].state != Unknown;
    }
  }

  /** With every answer heard, nothing new is in doubt. */
  lemma SettledSure(rows: seq<Receipt>, link: seq<Outcome>)
    ensures link == [] && !HasUnknown(rows) ==> !HasUnknown(Settle(rows, link, |rows|))
  {
    var t := Settle(rows, link, |rows|);
    if HasUnknown(t) {
      var i :| 0 <= i < |t| && t[i].state == Unknown;
      assert link == [] ==> rows[i].state == Unknown;
    }
  }

  // ------------------------------------------------------------ covering a shortfall

  /** What covering one item leaves: the ledger, the exception if one is raised, and the moves made. */
  datatype Cover = Cover(ledger: Ledger, error: Option<ShopError>, moves: seq<Move>)

  /** `except (InsufficientStock, ReservationUnavailable)`; anything else propagates. */
  function Uncovered(e: StockError): ShopError {
    if e == InsufficientStock || e == ReservationUnavailable then ShortfallUncovered else Refused(e)
  }

  /** After the hold was taken: its answer may be lost, and so may the sale's. */
  function SellOf(l1: Ledger, o: OrderId, x: Line, reserving: Outcome, committing: Outcome, e: int): Cover {
    var reserve := ReserveReplacement(o, e);
    if reserving == ReplyLost || committing == NeverSent then Cover(l1, Some(ShortfallUncovered), [reserve, Abort(o)])
    else
      match CommitHolds(l1, Shortfall(o, x.variant), Some(o))
      case Err(error) =>
        Cover(l1, Some(if committing == Replied then Uncovered(error) else ShortfallUncovered),
              [reserve, CommitReplacement(o)])
      case Ok((l2, _)) =>
        if committing == ReplyLost then
          Cover(l2, Some(ShortfallUncovered), [reserve, CommitReplacement(o), Abort(o)])
        else Cover(l2, None, [reserve, CommitReplacement(o)])
  }

  function CoverOf(l: Ledger, o: OrderId, x: Line, reserving: Outcome, committing: Outcome, e: int): Cover {
    if reserving == NeverSent then Cover(l, Some(ShortfallUncovered), [Abort(o)])
    else
      match ReserveLines(l, Shortfall(o, x.variant), [x], e)
      case Err(error) =>
        Cover(l, Some(if reserving == Replied then Uncovered(error) else ShortfallUncovered), [ReserveReplacement(o, e)])
      case Ok(l1) => SellOf(l1, o, x, reserving, committing, e)
  }

  /** The job once the item is counted as covered. */
  function Covered(j: Job, x: Line): Job { j.(committed := Plus(j.committed, x.variant, x.qty), item := j.item + 1) }

  lemma RunTwo(w: World, a: Move, b: Move)
    ensures RunWorld(w, [a, b]) == NextWorld(NextWorld(w, a), b)
  {
    RunWorldOne(w, a);
    RunWorldSnoc(w, [a], b);
    assert [a] + [b] == [a, b];
  }

  lemma ComposeTwo(w: World, a: Move, b: Move, mid: World, end: World)
    requires NextWorld(w, a) == mid && NextWorld(mid, b) == end
    ensures RunWorld(w, [a, b]) == end
  {
    RunWorldOne(w, a);
    ComposeOne(w, [a], b, mid, end);
    assert [a] + [b] == [a, b];
  }

  /** The line an attempt at this item asks for. */
  function Wanting(ord: Order, j: Job): Line
    requires j.item < |ord.items|
  {
    Line(ord.items[j.item].variant, ShortfallOf(ord, j))
  }

  /** A replacement that could not be asked for, or was refused. */
  lemma CoverRefused(w: World, o: OrderId, j: Job, e: int)
    requires AtItem(w, o, j) && !j.covering && ShortfallOf(w.orders[o], j) > 0
    ensures RunWorld(w, [Abort(o)]) == w.(jobs := map[])
    ensures ReserveLines(w.ledger, Shortfall(o, Wanting(w.orders[o], j).variant), [Wanting(w.orders[o], j)], e).Err? ==>
              RunWorld(w, [ReserveReplacement(o, e)]) == w.(jobs := map[])
  {
    RunWorldOne(w, Abort(o));
    Aborts(w, o, j);
    RunWorldOne(w, ReserveReplacement(o, e));
    ReservesReplacement(w, o, j, e);
  }

  /** A replacement that was reserved, at the point of its sale. */
  lemma CoverReserves(w: World, o: OrderId, j: Job, e: int, l1: Ledger)
    requires AtItem(w, o, j) && !j.covering && ShortfallOf(w.orders[o], j) > 0
    requires ReserveLines(w.ledger, Shortfall(o, Wanting(w.orders[o], j).variant), [Wanting(w.orders[o], j)], e) == Ok(l1)
    ensures var w1, j1 := w.(ledger := l1, jobs := map[o := j.(covering := true)]), j.(covering := true);
            NextWorld(w, ReserveReplacement(o, e)) == w1 && AtItem(w1, o, j1) && Wanting(w1.orders[o], j1) == Wanting(w.orders[o], j)
  {
    ReservesReplacement(w, o, j, e);
  }

  /** Abandoned after its reserve. */
  lemma CoverAbandoned(w: World, o: OrderId, j: Job, e: int, l1: Ledger)
    requires AtItem(w, o, j) && !j.covering && ShortfallOf(w.orders[o], j) > 0
    requires ReserveLines(w.ledger, Shortfall(o, Wanting(w.orders[o], j).variant), [Wanting(w.orders[o], j)], e) == Ok(l1)
    ensures RunWorld(w, [ReserveReplacement(o, e), Abort(o)]) == w.(ledger := l1, jobs := map[])
  {
    var w1 := w.(ledger := l1, jobs := map[o := j.(covering := true)]);
    CoverReserves(w, o, j, e, l1);
    Aborts(w1, o, j.(covering := true));
    ComposeTwo(w, ReserveReplacement(o, e), Abort(o), w1, w1.(jobs := map[]));
  }

  /** Where the sale of a reserved replacement leads. */
  function SaleOf(w: World, o: OrderId, j: Job, l1: Ledger, x: Line): World {
    match CommitHolds(l1, Shortfall(o, x.variant), Some(o))
    case Err(_) => w.(ledger := l1, jobs := map[])
    case Ok((l2, _)) => w.(ledger := l2, jobs := map[o := Covered(j, x)])
  }

  /** The sale, from the point where the hold was taken. */
  lemma SaleIsMove(w1: World, w: World, o: OrderId, j: Job, l1: Ledger, x: Line)
    requires w1 == w.(ledger := l1, jobs := map[o := j.(covering := true)]) && AtItem(w1, o, j.(covering := true)) && !j.covering
    requires o in w.orders && x == Wanting(w1.orders[o], j.(covering := true))
    ensures NextWorld(w1, CommitReplacement(o)) == SaleOf(w, o, j, l1, x)
  {
    CommitsReplacement(w1, o, j.(covering := true));
  }

  lemma CoverSells(w: World, o: OrderId, j: Job, e: int, l1: Ledger)
    requires AtItem(w, o, j) && !j.covering && ShortfallOf(w.orders[o], j) > 0
    requires ReserveLines(w.ledger, Shortfall(o, Wanting(w.orders[o], j).variant), [Wanting(w.orders[o], j)], e) == Ok(l1)
    ensures RunWorld(w, [ReserveReplacement(o, e), CommitReplacement(o)]) == SaleOf(w, o, j, l1, Wanting(w.orders[o], j))
  {
    var w1, x := w.(ledger := l1, jobs := map[o := j.(covering := true)]), Wanting(w.orders[o], j);
    CoverReserves(w, o, j, e, l1);
    SaleIsMove(w1, w, o, j, l1, x);
    ComposeTwo(w, ReserveReplacement(o, e), CommitReplacement(o), w1, SaleOf(w, o, j, l1, x));
  }

  /** Refused its sale, sold without an answer, or sold. */
  lemma CoverReserved(w: World, o: OrderId, j: Job, e: int, l1: Ledger)
    requires AtItem(w, o, j) && !j.covering && ShortfallOf(w.orders[o], j) > 0
    requires ReserveLines(w.ledger, Shortfall(o, Wanting(w.orders[o], j).variant), [Wanting(w.orders[o], j)], e) == Ok(l1)
    ensures var sold := SaleOf(w, o, j, l1, Wanting(w.orders[o], j));
            && RunWorld(w, [ReserveReplacement(o, e), CommitReplacement(o)]) == sold
            && (sold.jobs != map[] ==>
                  RunWorld(w, [ReserveReplacement(o, e), CommitReplacement(o), Abort(o)]) == sold.(jobs := map[]))
  {
    var sold := SaleOf(w, o, j, l1, Wanting(w.orders[o], j));
    CoverSells(w, o, j, e, l1);
    if sold.jobs != map[] {
      RunWorldSnoc(w, [ReserveReplacement(o, e), CommitReplacement(o)], Abort(o));
      assert [ReserveReplacement(o, e), CommitReplacement(o)] + [Abort(o)]
          == [ReserveReplacement(o, e), CommitReplacement(o), Abort(o)];
      Aborts(sold, o, Covered(j, Wanting(w.orders[o], j)));
    }
  }

  /** Where covering one item leads. */
  function CoverDone(w: World, o: OrderId, j: Job, x: Line, cover: Cover): World {
    w.(ledger := cover.ledger, jobs := if cover.error.None? then map[o := Covered(j, x)] else map[])
  }

  /** The sale was asked for: refused, unanswered, or answered. */
  lemma SaleIsRun(w: World, o: OrderId, j: Job, reserving: Outcome, committing: Outcome, e: int, l1: Ledger)
    requires AtItem(w, o, j) && !j.covering && ShortfallOf(w.orders[o], j) > 0
    requires ReserveLines(w.ledger, Shortfall(o, Wanting(w.orders[o], j).variant), [Wanting(w.orders[o], j)], e) == Ok(l1)
    requires reserving != ReplyLost && committing != NeverSent
    ensures var x := Wanting(w.orders[o], j);
            var cover := SellOf(l1, o, x, reserving, committing, e);
            RunWorld(w, cover.moves) == CoverDone(w, o, j, x, cover)
  {
    var x := Wanting(w.orders[o], j);
    CoverReserved(w, o, j, e, l1);
    assert o in map[o := Covered(j, x)];
  }

  lemma SellIsRun(w: World, o: OrderId, j: Job, reserving: Outcome, committing: Outcome, e: int, l1: Ledger)
    requires AtItem(w, o, j) && !j.covering && ShortfallOf(w.orders[o], j) > 0
    requires ReserveLines(w.ledger, Shortfall(o, Wanting(w.orders[o], j).variant), [Wanting(w.orders[o], j)], e) == Ok(l1)
    ensures var x := Wanting(w.orders[o], j);
            var cover := SellOf(l1, o, x, reserving, committing, e);
            RunWorld(w, cover.moves) == CoverDone(w, o, j, x, cover)
  {
    if reserving == ReplyLost || committing == NeverSent {
      CoverAbandoned(w, o, j, e, l1);
    } else {
      SaleIsRun(w, o, j, reserving, committing, e, l1);
    }
  }

  lemma CoverIsRun(w: World, o: OrderId, j: Job, reserving: Outcome, committing: Outcome, e: int)
    requires AtItem(w, o, j) && !j.covering && ShortfallOf(w.orders[o], j) > 0
    ensures var x := Wanting(w.orders[o], j);
            var cover := CoverOf(w.ledger, o, x, reserving, committing, e);
            RunWorld(w, cover.moves) == CoverDone(w, o, j, x, cover)
  {
    var x := Wanting(w.orders[o], j);
    match ReserveLines(w.ledger, Shortfall(o, x.variant), [x], e)
    case Err(_) => CoverRefused(w, o, j, e);
    case Ok(l1) =>
      if reserving == NeverSent {
        CoverRefused(w, o, j, e);
      } else {
        SellIsRun(w, o, j, reserving, committing, e, l1);
      }
  }

  /** Moves of `o`'s attempt past its receipts; with an empty script it is never given up. */
  ghost predicate OfAttempt(trace: seq<Move>, o: OrderId, link: seq<Outcome>) {
    forall m :: m in trace ==> Attempting(m, o) && !m.CommitReceipt? && (link == [] ==> !m.Abort?)
  }

  lemma CoverMovesAttempt(l: Ledger, o: OrderId, x: Line, reserving: Outcome, committing: Outcome, e: int, link: seq<Outcome>)
    requires link == [] ==> reserving == Replied && committing == Replied
    ensures OfAttempt(CoverOf(l, o, x, reserving, committing, e).moves, o, link)
  {}

  lemma AttemptGoesOn(a: seq<Move>, b: seq<Move>, o: OrderId, link: seq<Outcome>)
    requires AttemptTrace(a, o, link) && OfAttempt(b, o, link)
    ensures AttemptTrace(a + b, o, link) && (link == [] && Unbroken(a) ==> Unbroken(a + b))
  {}

  /** These totals cover the first `n` items. */
  ghost predicate Enough(items: seq<Line>, n: nat, totals: map<int, int>) {
    n <= |items| && forall i :: 0 <= i < n ==> (if items[i].variant in totals then totals[items[i].variant] else 0) >= items[i].qty
  }

  /** An item is passed over when it is covered, and counted as covered once it was replaced. */
  lemma EnoughMore(items: seq<Line>, n: nat, totals: map<int, int>, shortfall: int)
    requires Enough(items, n, totals) && n < |items|
    requires shortfall == items[n].qty - Get(totals, items[n].variant)
    ensures shortfall <= 0 ==> Enough(items, n + 1, totals)
    ensures shortfall > 0 ==> Enough(items, n + 1, Plus(totals, items[n].variant, shortfall))
  {}

  /** Where one item of the attempt leads: the next item, or the attempt's end. */
  function ItemDone(w: World, o: OrderId, j: Job, l: Ledger, r: Result<map<int, int>, ShopError>): World {
    w.(ledger := l, jobs := if r.Ok? then map[o := j.(item := j.item + 1, committed := r.value)] else map[])
  }

  function Replaced(j: Job, x: Line, r: Result<(), ShopError>): Result<map<int, int>, ShopError> {
    match r
    case Err(e) => Err(e)
    case Ok(_) => Ok(Plus(j.committed, x.variant, x.qty))
  }

  lemma ItemPassed(w: World, o: OrderId, j: Job, link: seq<Outcome>)
    requires AtItem(w, o, j) && !j.covering && ShortfallOf(w.orders[o], j) <= 0
    ensures OfAttempt([PassItem(o)], o, link) && RunWorld(w, [PassItem(o)]) == ItemDone(w, o, j, w.ledger, Ok(j.committed))
  {
    PassesItem(w, o, j);
    RunWorldOne(w, PassItem(o));
  }

  /** The attempt after `k` items. */
  function PastItems(w: World, o: OrderId, j: Job, l: Ledger, k: nat, covered: map<int, int>): World {
    w.(ledger := l, jobs := map[o := j.(item := k, committed := covered)])
  }

  lemma ItemStep(w: World, o: OrderId, j: Job, l: Ledger, k: nat, covered: map<int, int>,
                 l': Ledger, r: Result<map<int, int>, ShopError>)
    ensures ItemDone(PastItems(w, o, j, l, k, covered), o, j.(item := k, committed := covered), l', r)
         == if r.Ok? then PastItems(w, o, j, l', k + 1, r.value) else w.(ledger := l', jobs := map[])
  {}

  lemma OfAttemptAppend(a: seq<Move>, b: seq<Move>, o: OrderId, link: seq<Outcome>)
    requires OfAttempt(a, o, link) && OfAttempt(b, o, link)
    ensures OfAttempt(a + b, o, link)
  {}

  /** One pass of the items loop, appended to the run so far. */
  lemma ItemsGoOn(w0: World, w: World, trace: seq<Move>, moves: seq<Move>, o: OrderId, j: Job, k: nat, covered: map<int, int>,
                  l': Ledger, r: Result<map<int, int>, ShopError>, link: seq<Outcome>)
    requires w == PastItems(w0, o, j, w.ledger, k, covered) && RunWorld(w0, trace) == w
    requires RunWorld(w, moves) == ItemDone(w, o, j.(item := k, committed := covered), l', r)
    requires OfAttempt(trace, o, link) && OfAttempt(moves, o, link)
    ensures OfAttempt(trace + moves, o, link)
    ensures RunWorld(w0, trace + moves)
         == if r.Ok? then PastItems(w0, o, j, l', k + 1, r.value) else w0.(ledger := l', jobs := map[])
  {
    ItemStep(w0, o, j, w.ledger, k, covered, l', r);
    Compose(w0, trace, moves, w, ItemDone(w, o, j.(item := k, committed := covered), l', r));
    OfAttemptAppend(trace, moves, o, link);
  }

  lemma ReceiptOfAttempt(trace: seq<Move>, o: OrderId, link: seq<Outcome>, k: nat)
    requires AttemptTrace(trace, o, link)
    ensures AttemptTrace(trace + [CommitReceipt(o, Fate(link, k))], o, link)
    ensures Unbroken(trace) ==> Unbroken(trace + [CommitReceipt(o, Fate(link, k))])
  {}

  /** Where one receipt of the attempt leads. */
  function ReceiptDone(w: World, rows: seq<Receipt>, o: OrderId, link: seq<Outcome>, k: nat, committed: map<int, int>): World
    requires k < |rows|
  {
    match Ask(w.ledger, rows[k], o, Fate(link, k))
    case Err(_) => w.(jobs := map[])
    case Ok((l, m)) => w.(ledger := l, jobs := map[o := PastReceipts(rows, o, link, k + 1, AddAll(committed, m))])
  }

  /** One pass of the receipts loop, appended to the run so far. */
  lemma ReceiptStep(w0: World, w: World, trace: seq<Move>, rows: seq<Receipt>, o: OrderId, link: seq<Outcome>, k: nat,
                    committed: map<int, int>)
    requires k < |rows| && o in w.orders && w.jobs == map[o := PastReceipts(rows, o, link, k, committed)]
    requires RunWorld(w0, trace) == w && AttemptTrace(trace, o, link)
    ensures AttemptTrace(trace + [CommitReceipt(o, Fate(link, k))], o, link)
    ensures Unbroken(trace) ==> Unbroken(trace + [CommitReceipt(o, Fate(link, k))])
    ensures RunWorld(w0, trace + [CommitReceipt(o, Fate(link, k))]) == ReceiptDone(w, rows, o, link, k, committed)
  {
    ReceiptMove(w, rows, o, link, k, committed);
    ComposeOne(w0, trace, CommitReceipt(o, Fate(link, k)), w, ReceiptDone(w, rows, o, link, k, committed));
    ReceiptOfAttempt(trace, o, link, k);
  }

  lemma Begins(w: World, o: OrderId, link: seq<Outcome>)
    requires w.jobs == map[] && Enabled(w, Begin(o))
    ensures NextWorld(w, Begin(o)) == w.(jobs := map[o := PastReceipts(w.orders[o].receipts, o, link, 0, map[])])
  {
    var rows := w.orders[o].receipts;
    assert Settle(rows, link, 0) == rows;
    assert w.jobs[o := Job(rows, [], 0, 0, map[], false)] == map[o := Job(rows, [], 0, 0, map[], false)];
  }

  /** The attempt ran to its end. */
  ghost predicate Finished(w: World, trace: seq<Move>, o: OrderId) {
    && trace != [] && trace[|trace| - 1] == Finish(o)
    && Enabled(RunWorld(w, trace[..|trace| - 1]), Finish(o))
  }

  /** The attempt's run, from before it began. */
  lemma BegunRun(w: World, o: OrderId, link: seq<Outcome>, trace: seq<Move>) returns (all: seq<Move>)
    requires AttemptTrace(trace, o, link)
    ensures all != [] && all[0] == Begin(o) && AttemptTrace(all, o, link) && (Unbroken(trace) ==> Unbroken(all))
    ensures RunWorld(w, all) == RunWorld(NextWorld(w, Begin(o)), trace)
  {
    all := [Begin(o)] + trace;
    RunWorldOne(w, Begin(o));
    RunWorldAppend(w, [Begin(o)], trace);
  }

  lemma FinishesRun(w: World, trace: seq<Move>, o: OrderId, link: seq<Outcome>, j: Job) returns (all: seq<Move>)
    requires trace != [] && trace[0] == Begin(o) && AttemptTrace(trace, o, link)
    requires var w1 := RunWorld(w, trace);
             && w1.jobs == map[o := j] && o in w1.orders && j.pos == |j.receipts| && !HasUnknown(j.receipts)
             && j.item == |w1.orders[o].items|
    ensures Finished(w, all, o) && all[0] == Begin(o) && AttemptTrace(all, o, link) && (Unbroken(trace) ==> Unbroken(all))
    ensures var w1 := RunWorld(w, trace);
            RunWorld(w, all)
            == w1.(orders := SetReceipts(w1.orders, o, j.receipts), outbox := w1.outbox + j.staged, jobs := map[])
  {
    all := trace + [Finish(o)];
    assert all[..|all| - 1] == trace;
    Finishes(RunWorld(w, trace), o, j);
  }

  class Shop {
    const ledger: Provider
    var orders: map<OrderId, Order>
    var outbox: seq<Message>
    /** Checkouts whose stock is held and whose order does not exist yet. */
    ghost var carts: map<CheckoutId, seq<Line>>

    ghost function Now(): World
      reads this, ledger
    {
      World(ledger.State(), orders, outbox, map[], carts)
    }

    ghost predicate Valid()
      reads this, ledger
    {
      ledger.Valid()
    }

    constructor (ledger: Provider)
      ensures this.ledger == ledger && orders == map[] && outbox == [] && carts == map[]
    {
      this.ledger := ledger;
      orders, outbox, carts := map[], [], map[];
    }

    // ---------------------------------------------------------- the receipts loop

    /** `filter(checkout_id=..., state=ACTIVE).update(state=...)` on one receipt of the order. */
    method UpdateReceipt(o: OrderId, k: nat, state: ReceiptState)
      requires o in orders && k < |orders[o].receipts|
      modifies this`orders
      ensures var rows := old(orders)[o].receipts;
              orders == SetReceipt(old(orders), o, k, if rows[k].state == Held then state else rows[k].state)
    {
      var row := orders[o].receipts[k];
      if row.state == Held {
        orders := orders[o := orders[o].(receipts := orders[o].receipts[k := row.(state := state)])];
      } else {
        SameReceipt(orders, o, k);
      }
    }

    /** One receipt: the instruction, the commit, and the rows it settles. */
    method CommitReceipt(o: OrderId, k: nat, fate: Outcome, committed: map<int, int>)
      returns (r: Result<map<int, int>, ShopError>)
      requires o in orders && k < |orders[o].receipts|
      modifies this`orders, this`outbox, ledger
      ensures var row := old(orders)[o].receipts[k];
              match Ask(old(ledger.State()), row, o, fate)
              case Err(e) => r == Err(Refused(e)) && ledger.State() == old(ledger.State())
              case Ok((l, m)) =>
                && ledger.State() == l && r == Ok(AddAll(committed, m))
                && orders == SetReceipt(old(orders), o, k, Answered(row, fate))
                && outbox == old(outbox) + Intent(row, o, fate)
      ensures var row := old(orders)[o].receipts[k];
              row.state in {Held, Consumed} && r.Ok? ==>
                && outbox == old(outbox) + [Message(StockCommit(row.checkout, o), if fate == Replied then Sent else Queued)]
                && (fate != Replied ==> r.value == committed)
                && orders[o].receipts[k].state == (if fate == Replied || row.state == Consumed then Consumed else Unknown)
      ensures old(orders)[o].receipts[k].state !in {Held, Consumed} ==>
                r == Ok(committed) && orders == old(orders) && outbox == old(outbox) && ledger.State() == old(ledger.State())
    {
      var row := orders[o].receipts[k];
      if !Live(row) {
        SameReceipt(orders, o, k);
        AddNothing(committed);
        return Ok(committed);
      }
      outbox := outbox + [Message(StockCommit(row.checkout, o), Queued)];
      if fate == Replied {
        var result := ledger.CommitHolds(row.checkout, Some(o));
        if result.Err? {
          return Err(Refused(result.error));
        }
        outbox := outbox[|outbox| - 1 := outbox[|outbox| - 1].(state := Sent)];
        UpdateReceipt(o, k, Consumed);
        return Ok(AddAll(committed, result.value));
      }
      if fate == ReplyLost {
        var unheard := ledger.CommitHolds(row.checkout, Some(o));
      }
      UpdateReceipt(o, k, Unknown);
      AddNothing(committed);
      return Ok(committed);
    }

    /**
     * The attempt so far: the run it has made, and what it has written in place over
     * the orders and the outbox it began with.
     */
    ghost predicate Passing(w0: World, trace: seq<Move>, was: map<OrderId, Order>, sent: seq<Message>, o: OrderId,
                            link: seq<Outcome>, k: nat, committed: map<int, int>)
      reads this, ledger
    {
      && o in was && k <= |was[o].receipts| && AttemptTrace(trace, o, link) && Unbroken(trace)
      && RunWorld(w0, trace) == InFlight(ledger.State(), was, sent, o, PastReceipts(was[o].receipts, o, link, k, committed), carts)
      && orders == SetReceipts(was, o, Settle(was[o].receipts, link, k))
      && outbox == sent + Intents(was[o].receipts, o, link, k)
    }

    /** One pass of the receipts loop. */
    method PassReceipt(o: OrderId, k: nat, link: seq<Outcome>, committed: map<int, int>,
                       ghost w0: World, ghost trace: seq<Move>, ghost was: map<OrderId, Order>, ghost sent: seq<Message>)
      returns (r: Result<map<int, int>, ShopError>)
      requires Passing(w0, trace, was, sent, o, link, k, committed) && k < |was[o].receipts|
      modifies this`orders, this`outbox, ledger
      ensures var done := trace + [Move.CommitReceipt(o, Fate(link, k))];
              match r
              case Err(_) =>
                && AttemptTrace(done, o, link) && Unbroken(done)
                && RunWorld(w0, done) == World(ledger.State(), was, sent, map[], carts)
              case Ok(m) => Passing(w0, done, was, sent, o, link, k + 1, m)
    {
      ghost var rows := was[o].receipts;
      ghost var w := InFlight(ledger.State(), was, sent, o, PastReceipts(rows, o, link, k, committed), carts);
      ReceiptStep(w0, w, trace, rows, o, link, k, committed);
      SettleOneMore(was, rows, o, link, k);
      r := CommitReceipt(o, k, Fate(link, k), committed);
    }

    /**
     * Commits or replays each receipt. Written in place, the rows and the outbox are
     * what the attempt has staged; a commit that raises leaves the attempt dead.
     */
    method CommitReceipts(o: OrderId, link: seq<Outcome>)
      returns (r: Result<map<int, int>, ShopError>, ghost trace: seq<Move>)
      requires o in orders
      modifies this`orders, this`outbox, ledger
      ensures AttemptTrace(trace, o, link) && Unbroken(trace)
      ensures var w0 := InFlight(old(ledger.State()), old(orders), old(outbox), o,
                                 PastReceipts(old(orders)[o].receipts, o, link, 0, map[]), carts);
              match r
              case Err(_) => RunWorld(w0, trace) == World(ledger.State(), old(orders), old(outbox), map[], carts)
              case Ok(m) => Passing(w0, trace, old(orders), old(outbox), o, link, |old(orders)[o].receipts|, m)
    {
      var rows := orders[o].receipts;
      var committed: map<int, int> := map[];
      ghost var w0 := InFlight(ledger.State(), orders, outbox, o, PastReceipts(rows, o, link, 0, map[]), carts);
      trace := [];
      NothingSettled(orders, outbox, o, link);
      assert RunWorld(w0, trace) == w0;
      for k := 0 to |rows|
        invariant Passing(w0, trace, old(orders), old(outbox), o, link, k, committed)
      {
        r := PassReceipt(o, k, link, committed, w0, trace, old(orders), old(outbox));
        trace := trace + [Move.CommitReceipt(o, Fate(link, k))];
        if r.Err? {
          return;
        }
        committed := r.value;
      }
      return Ok(committed), trace;
    }

    // ---------------------------------------------------------- the items loop

    /** Replaces what an item is short of: a hold under its stable key, then its sale, whose totals are not read. */
    method CoverLine(o: OrderId, x: Line, reserving: Outcome, committing: Outcome, now: int)
      returns (r: Result<(), ShopError>)
      modifies ledger
      ensures var cover := CoverOf(old(ledger.State()), o, x, reserving, committing, now + 60 * Ttl(None));
              && ledger.State() == cover.ledger
              && r == if cover.error.None? then Ok(()) else Err(cover.error.value)
      ensures var c, l := Shortfall(o, x.variant), old(ledger.State());
              var held := Ledgers.ReserveLines(l, c, [x], now + 60 * 15);
              if reserving == NeverSent then r == Err(ShortfallUncovered) && ledger.State() == l
              else if held.Err? then
                && ledger.State() == l
                && r == (if reserving == Replied && held.error != InsufficientStock && held.error != ReservationUnavailable
                         then Err(Refused(held.error)) else Err(ShortfallUncovered))
              else if reserving == ReplyLost || committing == NeverSent then
                r == Err(ShortfallUncovered) && ledger.State() == held.value
              else
                && ledger.State() == Next(held.value, Commit(c, Some(o)))
                && (committing == ReplyLost ==> r == Err(ShortfallUncovered))
                && (committing == Replied ==> (r.Ok? <==> Ledgers.CommitHolds(held.value, c, Some(o)).Ok?))
    {
      if reserving == NeverSent {
        return Err(ShortfallUncovered);
      }
      var held := ledger.ReserveLines(Shortfall(o, x.variant), [x], None, now);
      if reserving == ReplyLost {
        return Err(ShortfallUncovered);
      }
      if held.Err? {
        return Err(Uncovered(held.error));
      }
      if committing == NeverSent {
        return Err(ShortfallUncovered);
      }
      var sold := ledger.CommitHolds(Shortfall(o, x.variant), Some(o));
      if committing == ReplyLost {
        return Err(ShortfallUncovered);
      }
      if sold.Err? {
        return Err(Uncovered(sold.error));
      }
      return Ok(());
    }

    /** `CoverLine` as a run of the machine. */
    method ReplaceItem(o: OrderId, x: Line, link: seq<Outcome>, call: nat, now: int, ghost w: World, ghost j: Job)
      returns (r: Result<(), ShopError>, ghost moves: seq<Move>)
      requires w.ledger == ledger.State() && AtItem(w, o, j) && !j.covering && x == Wanting(w.orders[o], j) && x.qty > 0
      modifies ledger
      ensures OfAttempt(moves, o, link)
      ensures RunWorld(w, moves) == ItemDone(w, o, j, ledger.State(), Replaced(j, x, r))
    {
      var reserving, committing := Fate(link, call), Fate(link, call + 1);
      ghost var cover := CoverOf(ledger.State(), o, x, reserving, committing, now + 60 * Ttl(None));
      moves := cover.moves;
      CoverIsRun(w, o, j, reserving, committing, now + 60 * Ttl(None));
      CoverMovesAttempt(ledger.State(), o, x, reserving, committing, now + 60 * Ttl(None), link);
      r := CoverLine(o, x, reserving, committing, now);
    }

    /** One item: passed over when the receipts covered it, replaced otherwise. */
    method CoverItem(o: OrderId, k: nat, covered: map<int, int>, link: seq<Outcome>, now: int, ghost w: World, ghost j: Job)
      returns (r: Result<map<int, int>, ShopError>, ghost moves: seq<Move>)
      requires w.ledger == ledger.State() && AtItem(w, o, j) && !j.covering
      requires o in orders && orders[o].items == w.orders[o].items && j.item == k && j.committed == covered
      modifies ledger
      ensures OfAttempt(moves, o, link)
      ensures RunWorld(w, moves) == ItemDone(w, o, j, ledger.State(), r)
      ensures r.Ok? && Enough(orders[o].items, k, covered) ==> Enough(orders[o].items, k + 1, r.value)
    {
      var item, base := orders[o].items[k], |orders[o].receipts|;
      var shortfall := item.qty - Get(covered, item.variant);
      if Enough(orders[o].items, k, covered) {
        EnoughMore(orders[o].items, k, covered, shortfall);
      }
      if shortfall <= 0 {
        ItemPassed(w, o, j, link);
        return Ok(covered), [PassItem(o)];
      }
      var x := Line(item.variant, shortfall);
      var done;
      done, moves := ReplaceItem(o, x, link, base + 2 * k, now, w, j);
      r := if done.Err? then Err(done.error) else Ok(Plus(covered, x.variant, shortfall));
    }

    /** The items loop so far: a run of the attempt from `w0`, past `k` items. */
    ghost predicate Covering(w0: World, trace: seq<Move>, o: OrderId, link: seq<Outcome>, j: Job, k: nat, covered: map<int, int>)
      reads ledger
    {
      && OfAttempt(trace, o, link) && RunWorld(w0, trace) == PastItems(w0, o, j, ledger.State(), k, covered)
      && o in w0.orders && k <= |w0.orders[o].items| && w0.jobs == map[o := j] && !HasUnknown(j.receipts)
      && j.pos == |j.receipts| && !j.covering && Enough(w0.orders[o].items, k, covered)
    }

    /** One more item, or the attempt's end. */
    method CoverNext(o: OrderId, k: nat, covered: map<int, int>, link: seq<Outcome>, now: int,
                     ghost w0: World, ghost before: seq<Move>, ghost j: Job)
      returns (r: Result<map<int, int>, ShopError>, ghost trace: seq<Move>)
      requires Covering(w0, before, o, link, j, k, covered) && k < |w0.orders[o].items|
      requires o in orders && orders[o].items == w0.orders[o].items
      modifies ledger
      ensures r.Ok? ==> Covering(w0, trace, o, link, j, k + 1, r.value)
      ensures r.Err? ==> OfAttempt(trace, o, link) && RunWorld(w0, trace) == w0.(ledger := ledger.State(), jobs := map[])
    {
      ghost var w := PastItems(w0, o, j, ledger.State(), k, covered);
      ghost var moves;
      r, moves := CoverItem(o, k, covered, link, now, w, j.(item := k, committed := covered));
      ItemsGoOn(w0, w, before, moves, o, j, k, covered, ledger.State(), r, link);
      trace := before + moves;
    }

    /** Covers every item the receipts did not; nothing of Orders is written here. */
    method CoverShortfall(o: OrderId, committed: map<int, int>, link: seq<Outcome>, now: int, ghost w0: World, ghost j: Job)
      returns (r: Result<map<int, int>, ShopError>, ghost trace: seq<Move>)
      requires o in orders && o in w0.orders && orders[o].items == w0.orders[o].items
      requires w0.ledger == ledger.State() && w0.jobs == map[o := j] && !HasUnknown(j.receipts)
      requires j.pos == |j.receipts| && j.item == 0 && !j.covering && j.committed == committed
      modifies ledger
      ensures OfAttempt(trace, o, link)
      ensures RunWorld(w0, trace)
           == w0.(ledger := ledger.State(),
                  jobs := if r.Ok? then map[o := j.(item := |w0.orders[o].items|, committed := r.value)] else map[])
      ensures r.Ok? ==> Enough(orders[o].items, |orders[o].items|, r.value)
    {
      var items := orders[o].items;
      var covered := committed;
      trace := [];
      for k := 0 to |items|
        invariant Covering(w0, trace, o, link, j, k, covered)
      {
        r, trace := CoverNext(o, k, covered, link, now, w0, trace, j);
        if r.Err? {
          return;
        }
        covered := r.value;
      }
      return Ok(covered), trace;
    }

    /** `_consume_committed_order_holds` and what follows it, written in place inside the caller's transaction. */
    method ConsumeHolds(o: OrderId, link: seq<Outcome>, now: int)
      returns (r: Result<map<int, int>, ShopError>, ghost trace: seq<Move>)
      requires o in orders
      modifies this`orders, this`outbox, ledger
      ensures AttemptTrace(trace, o, link)
      ensures link == [] && !HasUnknown(old(orders)[o].receipts) ==> Unbroken(trace)
      ensures var rows := old(orders)[o].receipts;
              var w0 := InFlight(old(ledger.State()), old(orders), old(outbox), o, PastReceipts(rows, o, link, 0, map[]), carts);
              match r
              case Err(_) => RunWorld(w0, trace) == World(ledger.State(), old(orders), old(outbox), map[], carts)
              case Ok(m) =>
                && RunWorld(w0, trace)
                   == InFlight(ledger.State(), old(orders), old(outbox), o,
                               PastReceipts(rows, o, link, |rows|, m).(item := |old(orders)[o].items|), carts)
                && !HasUnknown(Settle(rows, link, |rows|)) && Enough(old(orders)[o].items, |old(orders)[o].items|, m)
                && orders == SetReceipts(old(orders), o, Settle(rows, link, |rows|))
                && outbox == old(outbox) + Intents(rows, o, link, |rows|)
    {
      ghost var rows := orders[o].receipts;
      ghost var w0 := InFlight(ledger.State(), orders, outbox, o, PastReceipts(rows, o, link, 0, map[]), carts);
      r, trace := CommitReceipts(o, link);
      if r.Err? {
        return;
      }
      ghost var j := PastReceipts(rows, o, link, |rows|, r.value);
      ghost var w1 := RunWorld(w0, trace);
      SettledSure(rows, link);
      if HasUnknown(orders[o].receipts) {
        Aborts(w1, o, j);
        ComposeOne(w0, trace, Abort(o), w1, w1.(jobs := map[]));
        return Err(OutcomeUnknown), trace + [Abort(o)];
      }
      ghost var more;
      r, more := CoverShortfall(o, r.value, link, now, w1, j);
      Compose(w0, trace, more, w1, RunWorld(w1, more));
      AttemptGoesOn(trace, more, o, link);
      trace := trace + more;
    }

    /** The body of the handler's transaction, with its rollback. */
    method AttemptFulfilment(o: OrderId, link: seq<Outcome>, now: int)
      returns (r: Result<map<int, int>, ShopError>, ghost trace: seq<Move>)
      requires Enabled(Now(), Begin(o))
      modifies this`orders, this`outbox, ledger
      ensures Now() == RunWorld(old(Now()), trace) && AttemptTrace(trace, o, link)
      ensures trace != [] && trace[0] == Begin(o)
      ensures link == [] && !HasUnknown(old(orders)[o].receipts) ==> Unbroken(trace)
      ensures r.Err? ==> orders == old(orders) && outbox == old(outbox)
      ensures r.Ok? ==>
                && Finished(old(Now()), trace, o) && Enough(old(orders)[o].items, |old(orders)[o].items|, r.value)
                && AllHeard(old(orders)[o].receipts, link)
                && orders == SetReceipts(old(orders), o, UpdateHeld(old(orders)[o].receipts, Consumed))
                && outbox == old(outbox) + Intents(old(orders)[o].receipts, o, link, |old(orders)[o].receipts|)
    {
      var savedOrders, savedOutbox := orders, outbox;
      ghost var rows, w := orders[o].receipts, Now();
      Begins(w, o, link);
      r, trace := ConsumeHolds(o, link, now);
      trace := BegunRun(w, o, link, trace);
      if r.Err? {
        orders, outbox := savedOrders, savedOutbox;
      } else {
        ghost var j := PastReceipts(rows, o, link, |rows|, r.value).(item := |savedOrders[o].items|);
        SettledAll(rows, link);
        SettledHeard(rows, link);
        trace := FinishesRun(w, trace, o, link, j);
      }
    }

    /**
     * The `order.fulfill_stock` handler. A run of the machine; when it raises, Orders
     * is as it was, whatever the ledger has done meanwhile; when it returns, every
     * held receipt is consumed, each receipt's instruction is in the outbox and the totals
     * returned cover every item. An order is fulfilled from the moment it is paid until it
     * is refunded, packed, shipped or delivered meanwhile. In process, an attempt without doubts goes on until it finishes or the ledger refuses.
     */
    method DeliverOrderStock(o: OrderId, link: seq<Outcome>, now: int)
      returns (r: Result<map<int, int>, ShopError>, ghost trace: seq<Move>)
      requires HasFulfilMessage(outbox, o)
      modifies this`orders, this`outbox, ledger
      ensures Now() == RunWorld(old(Now()), trace) && AttemptTrace(trace, o, link)
      ensures o !in old(orders) ==> r == Err(Missing)
      ensures o in old(orders) && old(orders)[o].status == Pending ==> r == Err(Unpaid) && Now() == old(Now())
      ensures o in old(orders) && old(orders)[o].status in {Cancelled, Refunded} ==> r == Ok(map[]) && Now() == old(Now())
      ensures o in old(orders) && old(orders)[o].status in {Paid, Packed, Shipped, Delivered} ==>
                && trace != [] && trace[0] == Begin(o)
                && (link == [] && !HasUnknown(old(orders)[o].receipts) ==> Unbroken(trace))
      ensures r.Err? ==> orders == old(orders) && outbox == old(outbox)
      ensures r.Ok? && old(orders)[o].status in {Paid, Packed, Shipped, Delivered} ==>
                && Finished(old(Now()), trace, o) && Enough(old(orders)[o].items, |old(orders)[o].items|, r.value)
                && AllHeard(old(orders)[o].receipts, link)
                && orders == SetReceipts(old(orders), o, UpdateHeld(old(orders)[o].receipts, Consumed))
                && (forall i :: 0 <= i < |orders[o].receipts| ==>
                      var row := old(orders)[o].receipts[i];
                      orders[o].receipts[i] == if row.state == Held then Receipt(row.checkout, Consumed) else row)
                && outbox == old(outbox) + Intents(old(orders)[o].receipts, o, link, |old(orders)[o].receipts|)
    {
      trace := [];
      if o !in orders {
        return Err(Missing), [];
      }
      if orders[o].status == Cancelled || orders[o].status == Refunded {
        return Ok(map[]), [];
      }
      if orders[o].status == Pending {
        return Err(Unpaid), [];
      }
      r, trace := AttemptFulfilment(o, link, now);
    }
  }
}
