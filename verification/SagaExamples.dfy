/** Concrete runs that reach the states in which a promise of the shop breaks. */
module SagaExamples {
  import opened Wrappers
  import opened Totals
  import opened Lines
  import opened Books
  import opened Ledgers
  import opened Saga
  import opened SagaInvariant
  import opened SagaRuns
  import opened SagaTheorems
  import opened DeafReplays

  /** Reserving one line under a new id. */
  lemma ReserveOne(l: Ledger, c: CheckoutId, x: Line, e: int)
    requires ReserveKey(c) !in l.keys && c != Blank && x.qty >= 1
    requires x.variant in l.book.stock && x.qty <= l.book.stock[x.variant].Available()
    ensures var was := l.book.stock[x.variant];
            ReserveLines(l, c, [x], e)
            == Ok(Ledger(l.book.(stock := l.book.stock[x.variant := was.(reserved := was.reserved + x.qty)],
                                 holds := l.book.holds + [Hold(x.variant, x.qty, Active, c, None, e)]),
                         l.keys[ReserveKey(c) := [x]]))
  {
    SortSingle(x);
    assert [x][..0] == [];
    assert HoldAll(l.book, c, [], e) == Ok(l.book);
    assert HoldAll(l.book, c, [x], e) == PlaceHold(l.book, c, x, e);
  }

  const ORDER := 7
  const LINE := Line(1, 1)

  function Balance(n: int): map<int, int> { map[1 := n] }

  function Reserved(n: int): Ledger {
    Ledger(Book(map[1 := Counters(n, 1)], [Hold(1, 1, Active, Minted(0), None, 9)], []),
           map[ReserveKey(Minted(0)) := [LINE]])
  }

  function Placed(n: int, status: OrderStatus, state: ReceiptState, payment: Payment, outbox: seq<Message>): World {
    World(Reserved(n), map[ORDER := Order(status, [LINE], [Receipt(Minted(0), state)], payment)], outbox, map[], map[])
  }

  /** The move is heard and leads from one state to the other. */
  ghost predicate Leads(w: World, m: Move, w': World) {
    Heard(w, m) && NextWorld(w, m) == w'
  }

  lemma ReachTo(opening: map<int, int>, w: World, m: Move, w': World)
    requires Reachable(opening, w) && Leads(w, m, w')
    ensures Reachable(opening, w')
  {
    ReachableNext(opening, w, m);
  }

  // ------------------------------------------------------------ an order, placed and paid

  function Bought(): Message { Message(FulfilStock(ORDER), Queued) }

  function Carted(n: int): World { World(Reserved(n), map[], [], map[], map[Minted(0) := [LINE]]) }

  lemma CartReserved(n: int)
    requires n >= 1
    ensures ReserveLines(Opened(Balance(n)), Minted(0), [LINE], 9) == Ok(Reserved(n))
  {
    var l := Opened(Balance(n));
    assert l.book.stock == map[1 := Counters(n, 0)];
    ReserveOne(l, Minted(0), LINE, 9);
    assert l.book.stock[1 := Counters(n, 1)] == Reserved(n).book.stock;
    assert l.book.holds + [Hold(1, 1, Active, Minted(0), None, 9)] == Reserved(n).book.holds;
    assert l.keys[ReserveKey(Minted(0)) := [LINE]] == Reserved(n).keys;
  }

  lemma LeadsToCart(n: int)
    requires n >= 1
    ensures Leads(Start(Balance(n)), Place(Minted(0), [LINE], 9), Carted(n))
  {
    CartReserved(n);
  }

  lemma LeadsToOrder(n: int)
    ensures Leads(Carted(n), Build(Minted(0), ORDER), Placed(n, Pending, Held, NoSession, []))
  {}

  lemma LeadsToSession(n: int)
    ensures Leads(Placed(n, Pending, Held, NoSession, []), OpenSession(ORDER),
                  Placed(n, Pending, Held, Recorded(PayPending), []))
  {}

  lemma LeadsToPaid(n: int)
    ensures Leads(Placed(n, Pending, Held, Recorded(PayPending), []), Confirm(ORDER),
                  Placed(n, Paid, Held, Recorded(PayPaid), [Bought()]))
  {}

  /** One order of one unit, built and not yet paid. */
  lemma OrderPlaced(n: int)
    requires n >= 1
    ensures Reachable(Balance(n), Placed(n, Pending, Held, NoSession, []))
  {
    ReachableStart(Balance(n));
    LeadsToCart(n);
    ReachTo(Balance(n), Start(Balance(n)), Place(Minted(0), [LINE], 9), Carted(n));
    LeadsToOrder(n);
    ReachTo(Balance(n), Carted(n), Build(Minted(0), ORDER), Placed(n, Pending, Held, NoSession, []));
  }

  /** The same order, paid. */
  lemma OrderPaid(n: int)
    requires n >= 1
    ensures Reachable(Balance(n), Placed(n, Paid, Held, Recorded(PayPaid), [Bought()]))
  {
    var w, s := Placed(n, Pending, Held, NoSession, []), Placed(n, Pending, Held, Recorded(PayPending), []);
    OrderPlaced(n);
    LeadsToSession(n);
    ReachTo(Balance(n), w, OpenSession(ORDER), s);
    LeadsToPaid(n);
    ReachTo(Balance(n), s, Confirm(ORDER), Placed(n, Paid, Held, Recorded(PayPaid), [Bought()]));
  }

  // ------------------------------------------------------------ a sale nobody paid for

  lemma LeadsToUnknown()
    ensures Leads(Placed(1, Pending, Held, NoSession, []), FailSession(ORDER, false),
                  Placed(1, Pending, Unknown, SessionFailed, []))
  {
    assert UpdateAll([Receipt(Minted(0), Held)], Unknown) == [Receipt(Minted(0), Unknown)];
  }

  lemma LeadsToCancelled()
    ensures Leads(Placed(1, Pending, Unknown, SessionFailed, []), Transition(ORDER, Cancelled),
                  Placed(1, Cancelled, Unknown, SessionFailed, []))
  {}

  /** A checkout whose release failed and whose order was then cancelled. */
  lemma CancelledInDoubt()
    ensures Reachable(Balance(1), Placed(1, Cancelled, Unknown, SessionFailed, []))
  {
    OrderPlaced(1);
    LeadsToUnknown();
    ReachTo(Balance(1), Placed(1, Pending, Held, NoSession, []), FailSession(ORDER, false),
            Placed(1, Pending, Unknown, SessionFailed, []));
    LeadsToCancelled();
    ReachTo(Balance(1), Placed(1, Pending, Unknown, SessionFailed, []), Transition(ORDER, Cancelled),
            Placed(1, Cancelled, Unknown, SessionFailed, []));
  }

  lemma ReconcileWouldSell()
    ensures SaleImpliesPaid(Placed(1, Cancelled, Unknown, SessionFailed, []))
    ensures SellsUnpaid(Placed(1, Cancelled, Unknown, SessionFailed, []), ReconcileCommit(ORDER, 0))
  {
    var w := Placed(1, Cancelled, Unknown, SessionFailed, []);
    assert w.ledger.book.holds[0].checkout == Minted(0) && w.ledger.book.holds[0].status == Active;
  }

  /** The reconciliation sweep sells stock for an order that was cancelled and never paid. */
  lemma UnpaidSaleHappens() returns (w: World, m: Move)
    ensures Reachable(Balance(1), w) && ORDER in w.orders && w.orders[ORDER].status == Cancelled
    ensures m == ReconcileCommit(ORDER, 0) && SaleImpliesPaid(w) && !SaleImpliesPaid(NextWorld(w, m))
  {
    w, m := Placed(1, Cancelled, Unknown, SessionFailed, []), ReconcileCommit(ORDER, 0);
    CancelledInDoubt();
    ReconcileWouldSell();
    ReachableOk(Balance(1), w);
    PaidExactly(w, Balance(1), m);
  }

  // ------------------------------------------------------------ an expired replacement

  function Attempting(l: Ledger, state: ReceiptState, outbox: seq<Message>, j: Job): World {
    World(l, map[ORDER := Order(Paid, [LINE], [Receipt(Minted(0), state)], Recorded(PayPaid))],
          outbox, map[ORDER := j], map[])
  }

  function Idle(l: Ledger): World {
    World(l, map[ORDER := Order(Paid, [LINE], [Receipt(Minted(0), Held)], Recorded(PayPaid))], [Bought()], map[], map[])
  }

  function OriginalExpired(): Ledger {
    Ledger(Book(map[1 := Counters(1, 0)], [Hold(1, 1, Expired, Minted(0), None, 9)], []),
           map[ReserveKey(Minted(0)) := [LINE]])
  }

  function Replaced(status: HoldStatus): Ledger {
    Ledger(Book(map[1 := Counters(1, if status == Active then 1 else 0)],
                [Hold(1, 1, Expired, Minted(0), None, 9), Hold(1, 1, status, Shortfall(ORDER, 1), None, 20)], []),
           map[ReserveKey(Minted(0)) := [LINE], ReserveKey(Shortfall(ORDER, 1)) := [LINE]])
  }

  function FreshJob(state: ReceiptState): Job { Job([Receipt(Minted(0), state)], [], 0, 0, map[], false) }

  function CommitIntent(): Message { Message(StockCommit(Minted(0), ORDER), Sent) }

  function NothingSold(covering: bool): Job {
    Job([Receipt(Minted(0), Consumed)], [CommitIntent()], 1, 0, map[], covering)
  }

  ghost predicate AllExpired(l: Ledger) {
    forall i :: 0 <= i < |l.book.holds| ==> l.book.holds[i].status == Expired
  }

  /** Committing a ledger whose rows have all expired sells nothing. */
  lemma {:induction false} CommitExpired(b: Book, c: CheckoutId, n: nat)
    requires n <= |b.holds| && forall i :: 0 <= i < |b.holds| ==> b.holds[i].status == Expired
    ensures CommitUpTo(b, c, Some(ORDER), n) == Ok((b, map[]))
  {
    if n > 0 {
      CommitExpired(b, c, n - 1);
    }
  }

  lemma LeadsToBegin(l: Ledger)
    ensures Leads(Idle(l), Begin(ORDER), Attempting(l, Held, [Bought()], FreshJob(Held)))
  {
    assert Idle(l).outbox[0].payload == FulfilStock(ORDER);
  }

  function AfterReply(m: map<int, int>): Job {
    Job([Receipt(Minted(0), Consumed)], [CommitIntent()], 1, 0, AddAll(map[], m), false)
  }

  lemma LeadsToReply(l: Ledger, l': Ledger, m: map<int, int>)
    requires CommitHolds(l, Minted(0), Some(ORDER)) == Ok((l', m))
    ensures Leads(Attempting(l, Held, [Bought()], FreshJob(Held)), CommitReceipt(ORDER, Replied),
                  Attempting(l', Held, [Bought()], AfterReply(m)))
  {
    var w := Attempting(l, Held, [Bought()], FreshJob(Held));
    assert w.jobs[ORDER].receipts[w.jobs[ORDER].pos] == Receipt(Minted(0), Held);
    assert [Receipt(Minted(0), Held)][0 := Receipt(Minted(0), Consumed)] == [Receipt(Minted(0), Consumed)];
    assert [] + [CommitIntent()] == [CommitIntent()];
    var w' := Do(w, CommitReceipt(ORDER, Replied));
    assert w'.jobs[ORDER] == AfterReply(m);
    assert w'.jobs == map[ORDER := AfterReply(m)];
  }

  lemma LeadsToNothing(l: Ledger)
    requires AllExpired(l)
    ensures Leads(Attempting(l, Held, [Bought()], FreshJob(Held)), CommitReceipt(ORDER, Replied),
                  Attempting(l, Held, [Bought()], NothingSold(false)))
  {
    CommitExpired(l.book, Minted(0), |l.book.holds|);
    assert AddAll(map[], map[]) == map[];
    LeadsToReply(l, l, map[]);
  }

  /** An attempt on a ledger whose rows have all expired reaches its first item with nothing committed. */
  lemma AttemptOnExpired(l: Ledger)
    requires Reachable(Balance(1), Idle(l)) && AllExpired(l)
    ensures Reachable(Balance(1), Attempting(l, Held, [Bought()], NothingSold(false)))
  {
    LeadsToBegin(l);
    ReachTo(Balance(1), Idle(l), Begin(ORDER), Attempting(l, Held, [Bought()], FreshJob(Held)));
    LeadsToNothing(l);
    ReachTo(Balance(1), Attempting(l, Held, [Bought()], FreshJob(Held)), CommitReceipt(ORDER, Replied),
            Attempting(l, Held, [Bought()], NothingSold(false)));
  }

  lemma LeadsToOriginalExpired()
    ensures Leads(Placed(1, Paid, Held, Recorded(PayPaid), [Bought()]), Stock(Expire(0, 100)), Idle(OriginalExpired()))
  {}

  lemma ReplacementReserved()
    ensures ReserveLines(OriginalExpired(), Shortfall(ORDER, 1), [LINE], 20) == Ok(Replaced(Active))
  {
    ReserveOne(OriginalExpired(), Shortfall(ORDER, 1), LINE, 20);
    var l := OriginalExpired();
    assert l.book.stock[1 := Counters(1, 1)] == Replaced(Active).book.stock;
    assert l.book.holds + [Hold(1, 1, Active, Shortfall(ORDER, 1), None, 20)] == Replaced(Active).book.holds;
    assert l.keys[ReserveKey(Shortfall(ORDER, 1)) := [LINE]] == Replaced(Active).keys;
  }

  /** What reserving a replacement does, read off the move. */
  lemma ReserveReplacementDone(w: World, e: int, l': Ledger)
    requires Enabled(w, ReserveReplacement(ORDER, e))
    requires w.orders[ORDER].items[w.jobs[ORDER].item].variant == 1 && ShortfallOf(w.orders[ORDER], w.jobs[ORDER]) == 1
    requires ReserveLines(w.ledger, Shortfall(ORDER, 1), [Line(1, 1)], e) == Ok(l')
    ensures NextWorld(w, ReserveReplacement(ORDER, e))
         == w.(ledger := l', jobs := w.jobs[ORDER := w.jobs[ORDER].(covering := true)])
  {}

  lemma LeadsToReserve(l: Ledger, e: int, l': Ledger)
    requires ReserveLines(l, Shortfall(ORDER, 1), [LINE], e) == Ok(l')
    ensures Leads(Attempting(l, Held, [Bought()], NothingSold(false)), ReserveReplacement(ORDER, e),
                  Attempting(l', Held, [Bought()], NothingSold(true)))
  {
    var w := Attempting(l, Held, [Bought()], NothingSold(false));
    assert ShortfallOf(w.orders[ORDER], w.jobs[ORDER]) == 1;
    ReserveReplacementDone(w, e, l');
    assert w.jobs[ORDER := NothingSold(true)] == map[ORDER := NothingSold(true)];
  }

  lemma LeadsToReplacement()
    ensures Leads(Attempting(OriginalExpired(), Held, [Bought()], NothingSold(false)), ReserveReplacement(ORDER, 20),
                  Attempting(Replaced(Active), Held, [Bought()], NothingSold(true)))
  {
    ReplacementReserved();
    LeadsToReserve(OriginalExpired(), 20, Replaced(Active));
  }

  lemma LeadsToCrash()
    ensures Leads(Attempting(Replaced(Active), Held, [Bought()], NothingSold(true)), Abort(ORDER), Idle(Replaced(Active)))
  {}

  lemma LeadsToReplacementExpired()
    ensures Leads(Idle(Replaced(Active)), Stock(Expire(1, 100)), Idle(Replaced(Expired)))
  {
    var h := Replaced(Active).book.holds;
    assert h[1 := h[1].(status := Expired)] == Replaced(Expired).book.holds;
  }

  lemma FirstAttemptReserves()
    ensures Reachable(Balance(1), Attempting(Replaced(Active), Held, [Bought()], NothingSold(true)))
  {
    OrderPaid(1);
    LeadsToOriginalExpired();
    ReachTo(Balance(1), Placed(1, Paid, Held, Recorded(PayPaid), [Bought()]), Stock(Expire(0, 100)), Idle(OriginalExpired()));
    AttemptOnExpired(OriginalExpired());
    LeadsToReplacement();
    ReachTo(Balance(1), Attempting(OriginalExpired(), Held, [Bought()], NothingSold(false)),
            ReserveReplacement(ORDER, 20), Attempting(Replaced(Active), Held, [Bought()], NothingSold(true)));
  }

  lemma FirstAttemptCrashes()
    ensures Reachable(Balance(1), Idle(Replaced(Expired)))
  {
    FirstAttemptReserves();
    LeadsToCrash();
    ReachTo(Balance(1), Attempting(Replaced(Active), Held, [Bought()], NothingSold(true)), Abort(ORDER), Idle(Replaced(Active)));
    LeadsToReplacementExpired();
    ReachTo(Balance(1), Idle(Replaced(Active)), Stock(Expire(1, 100)), Idle(Replaced(Expired)));
  }

  lemma LeadsToReplay()
    ensures Leads(Attempting(Replaced(Expired), Held, [Bought()], NothingSold(false)), ReserveReplacement(ORDER, 30),
                  Attempting(Replaced(Expired), Held, [Bought()], NothingSold(true)))
  {
    SortSingle(LINE);
  }

  function FalselyCovered(): Job { NothingSold(false).(committed := map[1 := 1], item := 1) }

  lemma LeadsToFalseCover()
    ensures Leads(Attempting(Replaced(Expired), Held, [Bought()], NothingSold(true)), CommitReplacement(ORDER),
                  Attempting(Replaced(Expired), Held, [Bought()], FalselyCovered()))
  {
    CommitExpired(Replaced(Expired).book, Shortfall(ORDER, 1), 2);
  }

  function Unsold(): World { Attempting(Replaced(Expired), Held, [Bought()], FalselyCovered()) }

  lemma ReplayCommitsNothing()
    ensures Reachable(Balance(1), Unsold())
  {
    FirstAttemptCrashes();
    AttemptOnExpired(Replaced(Expired));
    LeadsToReplay();
    ReachTo(Balance(1), Attempting(Replaced(Expired), Held, [Bought()], NothingSold(false)),
            ReserveReplacement(ORDER, 30), Attempting(Replaced(Expired), Held, [Bought()], NothingSold(true)));
    LeadsToFalseCover();
    ReachTo(Balance(1), Attempting(Replaced(Expired), Held, [Bought()], NothingSold(true)), CommitReplacement(ORDER), Unsold());
  }

  lemma FalseCoverFinishes()
    ensures Enabled(Unsold(), Finish(ORDER)) && Unsold().orders[ORDER].items == [LINE]
    ensures SoldUnits(Unsold().ledger.book, ORDER, 1) == 0
  {}

  /**
   * An attempt crashes after reserving a replacement, the replacement expires, and
   * the next attempt replays the reserve, commits nothing and finishes.
   */
  lemma UnsoldFulfilmentHappens()
    ensures Reachable(Balance(1), Unsold())
    ensures Enabled(Unsold(), Finish(ORDER)) && Unsold().orders[ORDER].items == [LINE]
    ensures SoldUnits(Unsold().ledger.book, ORDER, 1) == 0
  {
    FalseCoverFinishes();
    ReplayCommitsNothing();
  }

  // ------------------------------------------------------------ a deaf replay

  function OneSold(): Ledger {
    Ledger(Book(map[1 := Counters(1, 0)], [Hold(1, 1, Committed, Minted(0), Some(ORDER), 9)],
                [Movement(1, -1, Sale, Some(ORDER))]),
           map[ReserveKey(Minted(0)) := [LINE]])
  }

  lemma CommitsOne()
    ensures CommitHolds(Reserved(2), Minted(0), Some(ORDER)) == Ok((OneSold(), map[1 := 1]))
  {
    var b := Reserved(2).book;
    assert CommitUpTo(b, Minted(0), Some(ORDER), 0) == Ok((b, map[]));
    assert b.holds[0 := OneSold().book.holds[0]] == OneSold().book.holds;
    assert b.moves + [Movement(1, -1, Sale, Some(ORDER))] == OneSold().book.moves;
    assert b.stock[1 := Counters(1, 0)] == OneSold().book.stock;
    assert CommitHold(b, 0, Some(ORDER)) == Ok(OneSold().book);
    assert Plus(map[], 1, 1) == map[1 := 1];
  }

  function SoldJob(item: nat): Job {
    Job([Receipt(Minted(0), Consumed)], [CommitIntent()], 1, item, map[1 := 1], false)
  }

  lemma OneReplied()
    ensures AfterReply(map[1 := 1]) == SoldJob(0)
  {
    assert AddAll(map[], map[1 := 1]) == map[1 := 1];
  }

  lemma LeadsToSold()
    ensures Leads(Attempting(Reserved(2), Held, [Bought()], FreshJob(Held)), CommitReceipt(ORDER, Replied),
                  Attempting(OneSold(), Held, [Bought()], SoldJob(0)))
  {
    CommitsOne();
    OneReplied();
    LeadsToReply(Reserved(2), OneSold(), map[1 := 1]);
  }

  lemma LeadsToPassed()
    ensures Leads(Attempting(OneSold(), Held, [Bought()], SoldJob(0)), PassItem(ORDER),
                  Attempting(OneSold(), Held, [Bought()], SoldJob(1)))
  {}

  function Fulfilled(): World {
    World(OneSold(), map[ORDER := Order(Paid, [LINE], [Receipt(Minted(0), Consumed)], Recorded(PayPaid))],
          [Bought(), CommitIntent()], map[], map[])
  }

  lemma LeadsToFulfilled()
    ensures Leads(Attempting(OneSold(), Held, [Bought()], SoldJob(1)), Finish(ORDER), Fulfilled())
  {
    assert [Bought()] + [CommitIntent()] == [Bought(), CommitIntent()];
  }

  lemma LeadsToAgain()
    ensures Leads(Fulfilled(), Begin(ORDER), Attempting(OneSold(), Consumed, [Bought(), CommitIntent()], FreshJob(Consumed)))
  {
    assert Fulfilled().outbox[0].payload == FulfilStock(ORDER);
  }

  lemma OrderSold()
    ensures Reachable(Balance(2), Attempting(OneSold(), Held, [Bought()], SoldJob(0)))
  {
    var w := Placed(2, Paid, Held, Recorded(PayPaid), [Bought()]);
    OrderPaid(2);
    assert w == Idle(Reserved(2));
    LeadsToBegin(Reserved(2));
    ReachTo(Balance(2), w, Begin(ORDER), Attempting(Reserved(2), Held, [Bought()], FreshJob(Held)));
    LeadsToSold();
    ReachTo(Balance(2), Attempting(Reserved(2), Held, [Bought()], FreshJob(Held)), CommitReceipt(ORDER, Replied),
            Attempting(OneSold(), Held, [Bought()], SoldJob(0)));
  }

  lemma Redelivered()
    ensures Reachable(Balance(2), Attempting(OneSold(), Consumed, [Bought(), CommitIntent()], FreshJob(Consumed)))
  {
    OrderSold();
    LeadsToPassed();
    ReachTo(Balance(2), Attempting(OneSold(), Held, [Bought()], SoldJob(0)), PassItem(ORDER),
            Attempting(OneSold(), Held, [Bought()], SoldJob(1)));
    LeadsToFulfilled();
    ReachTo(Balance(2), Attempting(OneSold(), Held, [Bought()], SoldJob(1)), Finish(ORDER), Fulfilled());
    LeadsToAgain();
    ReachTo(Balance(2), Fulfilled(), Begin(ORDER),
            Attempting(OneSold(), Consumed, [Bought(), CommitIntent()], FreshJob(Consumed)));
  }

  lemma OneCommitted()
    ensures CommittedIn(OneSold().book, Minted(0), 1) == 1
  {
    TotalSnoc([], OneSold().book.holds[0], CommittedOf(Minted(0), 1));
    assert [] + [OneSold().book.holds[0]] == OneSold().book.holds;
  }

  /** The fulfilled order's message, delivered again. */
  function Again(): World { Attempting(OneSold(), Consumed, [Bought(), CommitIntent()], FreshJob(Consumed)) }

  lemma AgainDoubles()
    ensures AtConsumed(Again(), ORDER) && AllObtainable(OneSold(), ORDER, [LINE], 1) && DoublySold(Again(), ORDER, 0)
  {
    OneCommitted();
  }

  /** A fulfilled order's message is delivered again and its commit reply is lost: one unit ordered, two sold. */
  lemma DoubleSaleHappens() returns (w: World)
    ensures Reachable(Balance(2), w) && ORDER in w.orders && w.orders[ORDER].items == [LINE]
    ensures SoldUnits(w.ledger.book, ORDER, 1) == 1
    ensures SoldUnits(RunWorld(w, DeafReplay(ORDER, 20, 1)).ledger.book, ORDER, 1) == 2
  {
    w := Again();
    Redelivered();
    ReachableOk(Balance(2), w);
    AgainDoubles();
    ReplaySells(w, Balance(2), ORDER, 20, 0, 1);
  }

  /** The same replay, one line on: nothing keeps it from finishing, and its commit was never answered. */
  lemma DeafToTheEnd() returns (u: World)
    ensures u == RunWorld(Again(), DeafReplay(ORDER, 20, 1)) && u.orders == Again().orders
    ensures LostCount(u, ORDER, 1) && Deaf(u.jobs, ORDER) && |u.jobs[ORDER].receipts| == 1
  {
    var w := Again();
    Redelivered();
    ReachableOk(Balance(2), w);
    AgainDoubles();
    var states := ReplayRuns(w, ORDER, 20, 1);
    u := states[1];
    DeafRun(w, states, Balance(2), ORDER, 20, 1);
    PathOk(w, states, Balance(2), ORDER, 20, 1);
    assert u.orders == w.orders && LostCount(u, ORDER, 1) by {
      assert AllObtainable(w.ledger, ORDER, w.orders[ORDER].items, 1);
    }
    InFlightFacts(u, Balance(2), ORDER);
    StaysDeaf(w, u);
  }

  lemma StaysDeaf(w: World, u: World)
    requires w == Again() && u == RunWorld(w, DeafReplay(ORDER, 20, 1)) && ORDER in u.jobs
    ensures Deaf(u.jobs, ORDER)
  {
    var w1 := NextWorld(w, CommitReceipt(ORDER, NeverSent));
    DeafReplayStart(w, ORDER, 20);
    RunTwoMore(w, DeafReplay(ORDER, 20, 0), ReserveReplacement(ORDER, 20), CommitReplacement(ORDER));
    UnheardDeaf(w, ORDER, NeverSent);
    var w2 := NextWorld(w1, ReserveReplacement(ORDER, 20));
    NoneBegins(w2, ORDER);
    OtherMovesDeafNobody(w1, ReserveReplacement(ORDER, 20), ORDER);
    OtherMovesDeafNobody(w2, CommitReplacement(ORDER), ORDER);
  }

  lemma NoneBegins(w: World, o: OrderId)
    requires o in NextWorld(w, CommitReplacement(o)).jobs
    ensures o in w.jobs
  {}

  /**
   * It finishes: both databases commit, and a stock commit nobody answered stays queued in
   * the outbox of a fulfilled order.
   */
  lemma QueuedCommitHappens() returns (moves: seq<Move>)
    ensures var u := RunWorld(Start(Balance(2)), moves);
            Enabled(u, Finish(ORDER)) && NoneQueued(u.outbox) && !NoneQueued(NextWorld(u, Finish(ORDER)).outbox)
  {
    var w := Again();
    var u := DeafToTheEnd();
    Redelivered();
    var n: nat :| HeardRun(Start(Balance(2)), w, n);
    var before := HeardRunIsRun(Start(Balance(2)), w, n);
    moves := before + DeafReplay(ORDER, 20, 1);
    RunWorldAppend(Start(Balance(2)), before, DeafReplay(ORDER, 20, 1));
    OutboxKept(w, u);
    FinishesDeaf(u);
  }

  lemma OutboxKept(w: World, u: World)
    requires w == Again() && u == RunWorld(w, DeafReplay(ORDER, 20, 1))
    ensures u.outbox == [Bought(), CommitIntent()]
  {
    var w1 := NextWorld(w, CommitReceipt(ORDER, NeverSent));
    DeafReplayStart(w, ORDER, 20);
    RunTwoMore(w, DeafReplay(ORDER, 20, 0), ReserveReplacement(ORDER, 20), CommitReplacement(ORDER));
    AttemptKeepsOutbox(w, CommitReceipt(ORDER, NeverSent));
    AttemptKeepsOutbox(w1, ReserveReplacement(ORDER, 20));
    AttemptKeepsOutbox(NextWorld(w1, ReserveReplacement(ORDER, 20)), CommitReplacement(ORDER));
  }

  lemma AttemptKeepsOutbox(w: World, m: Move)
    requires AttemptMove(m) && !m.Finish?
    ensures NextWorld(w, m).outbox == w.outbox
  {
    if Enabled(w, m) {
      OutboxStays(w, m);
    }
  }

  lemma FinishesDeaf(u: World)
    requires u.outbox == [Bought(), CommitIntent()] && u.orders == Again().orders
    requires LostCount(u, ORDER, 1) && Deaf(u.jobs, ORDER) && |u.jobs[ORDER].receipts| == 1
    ensures Enabled(u, Finish(ORDER)) && NoneQueued(u.outbox) && !NoneQueued(NextWorld(u, Finish(ORDER)).outbox)
  {
    assert Enabled(u, Finish(ORDER));
    NoneQueuedExactly(u, Finish(ORDER));
  }
}
