/**
 * Runs in which no commit reply is lost for a receipt Orders already recorded as
 * consumed. The in-process ledger always replies, so all of its runs are of this kind.
 */
module HeardRuns {
  import opened Wrappers
  import opened Lines
  import opened Books
  import opened Ledgers
  import opened Saga
  import opened SagaInvariant
  import opened SagaRuns

  // ------------------------------------------------------------ the ledger moves on

  /** With no new replacement, what was replaced is still unsold by its own group. */
  lemma ReplacedStable(l: Ledger, l': Ledger, orders: Orders)
    requires Later(l, l') && OrdersOk(l, orders) && ReplacementsOk(l, orders) && ReplacedUnsold(l, orders)
    requires forall c :: ReserveKey(c) in l'.keys && c.Shortfall? ==> ReserveKey(c) in l.keys
    ensures ReplacedUnsold(l', orders)
  {
    forall o, v | o in orders && ReserveKey(Shortfall(o, v)) in l'.keys ensures CommittedIn(l'.book, Own(orders[o]), v) == 0 {
      assert ReplacementOk(l, orders, o, v) && OrderOk(l, orders[o]);
      Frozen(l, l', Own(orders[o]));
    }
  }

  lemma HeardJobStable(l: Ledger, l': Ledger, o: OrderId, ord: Order, j: Job)
    requires Later(l, l') && OrderOk(l, ord) && JobOk(l, o, ord, j) && HeardJob(l, ord, j)
    ensures HeardJob(l', ord, j)
  {
    if Sure(j) {
      Frozen(l, l', Own(ord));
    }
  }

  lemma HeardJobsStable(l: Ledger, l': Ledger, orders: Orders, jobs: map<OrderId, Job>)
    requires Later(l, l') && OrdersOk(l, orders) && JobsOk(l, orders, jobs) && HeardJobs(l, orders, jobs)
    ensures HeardJobs(l', orders, jobs)
  {
    forall o | o in jobs && o in orders ensures HeardJob(l', orders[o], jobs[o]) {
      assert OrderOk(l, orders[o]) && JobOk(l, o, orders[o], jobs[o]);
      HeardJobStable(l, l', o, orders[o], jobs[o]);
    }
  }

  /** A ledger transaction that replaces nothing new. */
  lemma HeardLater(w: World, opening: map<int, int>, l': Ledger)
    requires WorldOk(w, opening) && HeardOk(w) && Later(w.ledger, l')
    requires forall c :: ReserveKey(c) in l'.keys && c.Shortfall? ==> ReserveKey(c) in w.ledger.keys
    ensures HeardOk(w.(ledger := l'))
  {
    ReplacedStable(w.ledger, l', w.orders);
    HeardJobsStable(w.ledger, l', w.orders, w.jobs);
  }

  /** Only a reserve claims a checkout id. */
  lemma StepClaims(l: Ledger, s: Step)
    requires !s.Reserve?
    ensures forall c :: ReserveKey(c) in Next(l, s).keys ==> ReserveKey(c) in l.keys
  {}

  lemma HeardStep(w: World, opening: map<int, int>, s: Step)
    requires WorldOk(w, opening) && HeardOk(w) && (s.Reserve? ==> !s.checkout.Shortfall?)
    ensures HeardOk(w.(ledger := Next(w.ledger, s)))
  {
    StepKeeps(w.ledger, opening, s);
    if !s.Reserve? {
      StepClaims(w.ledger, s);
    }
    HeardLater(w, opening, Next(w.ledger, s));
  }

  // ------------------------------------------------------------ one order, one attempt

  /** A new order, or an order row whose items and group stay. */
  lemma HeardOrders(l: Ledger, orders: Orders, jobs: map<OrderId, Job>, o: OrderId, ord: Order)
    requires ReplacedUnsold(l, orders) && HeardJobs(l, orders, jobs) && ReplacementsOk(l, orders) && o !in jobs
    requires o in orders ==> Own(ord) == Own(orders[o])
    ensures ReplacedUnsold(l, orders[o := ord]) && HeardJobs(l, orders[o := ord], jobs)
  {
    forall p, v | p in orders[o := ord] && ReserveKey(Shortfall(p, v)) in l.keys
      ensures CommittedIn(l.book, Own(orders[o := ord][p]), v) == 0
    {
      assert ReplacementOk(l, orders, p, v);
    }
  }

  lemma HeardSetJob(w: World, o: OrderId, j: Job)
    requires HeardOk(w) && (o in w.orders ==> HeardJob(w.ledger, w.orders[o], j))
    ensures HeardOk(SetJob(w, o, j))
  {}

  lemma HeardAbort(w: World, o: OrderId)
    requires HeardOk(w)
    ensures HeardOk(w.(jobs := Without(w.jobs, o)))
  {}

  lemma HeardSent(w: World, outbox: seq<Message>, more: seq<Message>)
    requires HeardOk(w) && outbox == w.outbox + more
    requires forall k :: 0 <= k < |more| && more[k].payload.StockCommit? ==> more[k].state != Queued
    ensures HeardOk(w.(outbox := outbox))
  {}

  lemma RowMoveHeard(w: World, opening: map<int, int>, m: Move)
    requires WorldOk(w, opening) && HeardOk(w) && Enabled(w, m) && RowMove(m)
    ensures HeardOk(Do(w, m))
  {
    RowMoveShape(w, m);
    var ord := w.orders[m.order];
    assert OrderOk(w.ledger, ord);
    RowMoveOnward(w, m);
    SameOwn(ord, RowAfter(ord, m));
    if !Fulfilling(ord.status) {
      NotInFlight(w, m.order);
    }
    HeardOrders(w.ledger, w.orders, w.jobs, m.order, RowAfter(ord, m));
  }

  /** Becoming paid and being refunded. */
  lemma InstructionHeard(w: World, opening: map<int, int>, m: Move)
    requires WorldOk(w, opening) && HeardOk(w) && Enabled(w, m) && (m.Confirm? || m.Refund?)
    ensures HeardOk(Do(w, m))
  {
    var ord' := Do(w, m).orders[m.order];
    var sent := Do(w, m).outbox[|w.outbox|];
    HeardOrders(w.ledger, w.orders, w.jobs, m.order, ord');
    assert Do(w, m) == SetOrder(w, m.order, ord').(outbox := w.outbox + [sent]);
    HeardSent(SetOrder(w, m.order, ord'), w.outbox + [sent], [sent]);
  }

  lemma BuildHeard(w: World, opening: map<int, int>, c: CheckoutId, o: OrderId)
    requires WorldOk(w, opening) && HeardOk(w) && Enabled(w, Build(c, o))
    ensures HeardOk(Do(w, Build(c, o)))
  {
    assert o !in w.jobs;
    HeardOrders(w.ledger, w.orders, w.jobs, o, Order(Pending, w.carts[c], [Receipt(c, Held)], NoSession));
  }

  lemma RepliedHeard(w: World, opening: map<int, int>, o: OrderId)
    requires WorldOk(w, opening) && HeardOk(w) && Enabled(w, CommitReceipt(o, Replied))
    ensures HeardOk(Do(w, CommitReceipt(o, Replied)))
  {
    var l', j' := RepliedFacts(w, opening, o);
    HeardStep(w, opening, Commit(Own(w.orders[o]), Some(o)));
    HeardSetJob(w.(ledger := l'), o, j');
  }

  /** An unanswered commit leaves a held receipt in doubt, so the attempt cannot finish. */
  lemma DeafHeard(w: World, opening: map<int, int>, o: OrderId, outcome: Outcome)
    requires WorldOk(w, opening) && HeardOk(w) && Enabled(w, CommitReceipt(o, outcome)) && outcome != Replied
    requires Heard(w, CommitReceipt(o, outcome))
    ensures HeardOk(Do(w, CommitReceipt(o, outcome)))
  {
    var ord, j := w.orders[o], w.jobs[o];
    InFlightFacts(w, opening, o);
    BeforeReceipt(w.ledger, o, ord, j);
    var l' := DeafLedger(w, opening, o, outcome);
    HeardStep(w, opening, Commit(Own(ord), Some(o)));
    DeafDone(w, o, outcome);
    UnheardOk(w.ledger, l', o, ord, j);
    HeardSetJob(w.(ledger := l'), o, Unheard(o, j));
  }

  lemma PassItemHeard(w: World, opening: map<int, int>, o: OrderId)
    requires WorldOk(w, opening) && HeardOk(w) && Enabled(w, PassItem(o))
    ensures HeardOk(Do(w, PassItem(o)))
  {
    PassDone(w, o);
    assert HeardJob(w.ledger, w.orders[o], w.jobs[o]);
    HeardSetJob(w, o, w.jobs[o].(item := w.jobs[o].item + 1));
  }

  /** A first replacement is of a line the order's own group did not sell. */
  lemma FirstHeard(w: World, opening: map<int, int>, o: OrderId, x: Line, e: int, l': Ledger)
    requires WorldOk(w, opening) && HeardOk(w) && o in w.orders && Settled(w.ledger.book, Own(w.orders[o]))
    requires CommittedIn(w.ledger.book, Own(w.orders[o]), x.variant) == 0
    requires ReserveLines(w.ledger, Shortfall(o, x.variant), [x], e) == Ok(l')
    ensures HeardOk(w.(ledger := l'))
  {
    StepKeeps(w.ledger, opening, Reserve(Shortfall(o, x.variant), [x], e));
    HeardJobsStable(w.ledger, l', w.orders, w.jobs);
    forall p, v | p in w.orders && ReserveKey(Shortfall(p, v)) in l'.keys
      ensures CommittedIn(l'.book, Own(w.orders[p]), v) == 0
    {
      assert OrderOk(w.ledger, w.orders[p]);
      if Shortfall(p, v) != Shortfall(o, x.variant) {
        assert ReplacementOk(w.ledger, w.orders, p, v);
      }
      Frozen(w.ledger, l', Own(w.orders[p]));
    }
  }

  lemma CoveringHeard(l: Ledger, l': Ledger, o: OrderId, ord: Order, j: Job)
    requires Later(l, l') && OrderOk(l, ord) && JobOk(l, o, ord, j) && HeardJob(l, ord, j)
    ensures HeardJob(l', ord, j.(covering := true))
  {
    HeardJobStable(l, l', o, ord, j);
  }

  lemma ReserveReplacementHeard(w: World, opening: map<int, int>, o: OrderId, e: int)
    requires WorldOk(w, opening) && HeardOk(w) && Enabled(w, ReserveReplacement(o, e))
    ensures HeardOk(Do(w, ReserveReplacement(o, e)))
  {
    var ord, j := w.orders[o], w.jobs[o];
    var x := Short(ord, j);
    ReserveDone(w, o, e);
    AboutToReplace(w, opening, o, e);
    assert HeardJob(w.ledger, ord, j);
    match ReserveLines(w.ledger, Shortfall(o, x.variant), [x], e)
    case Err(_) => HeardAbort(w, o);
    case Ok(l') =>
      FirstHeard(w, opening, o, x, e, l');
      StepKeeps(w.ledger, opening, Reserve(Shortfall(o, x.variant), [x], e));
      CoveringHeard(w.ledger, l', o, ord, j);
      HeardSetJob(w.(ledger := l'), o, j.(covering := true));
  }

  lemma CoveredHeard(l: Ledger, l': Ledger, o: OrderId, ord: Order, j: Job)
    requires Later(l, l') && OrderOk(l, ord) && JobOk(l, o, ord, j) && HeardJob(l, ord, j) && j.covering
    requires j.item < |ord.items| && Settled(l'.book, Shortfall(o, ord.items[j.item].variant))
    ensures HeardJob(l', ord, ItemDone(ord, j))
  {
    HeardJobStable(l, l', o, ord, j);
    JobStable(l, l', o, ord, j);
    ItemCovered(l', o, ord, j);
  }

  lemma CommitReplacementHeard(w: World, opening: map<int, int>, o: OrderId)
    requires WorldOk(w, opening) && HeardOk(w) && Enabled(w, CommitReplacement(o))
    ensures HeardOk(Do(w, CommitReplacement(o)))
  {
    var ord, j := w.orders[o], w.jobs[o];
    var d := Shortfall(o, ord.items[j.item].variant);
    CommitReplacementDone(w, o);
    InFlightFacts(w, opening, o);
    assert HeardJob(w.ledger, ord, j);
    CommitFrame(w, opening, d, o);
    var l' := CommitHolds(w.ledger, d, Some(o)).value.0;
    HeardLater(w, opening, l');
    CoveredHeard(w.ledger, l', o, ord, j);
    HeardSetJob(w.(ledger := l'), o, ItemDone(ord, j));
  }

  lemma FinishHeard(w: World, opening: map<int, int>, o: OrderId)
    requires WorldOk(w, opening) && HeardOk(w) && Enabled(w, Finish(o))
    ensures HeardOk(Do(w, Finish(o)))
  {
    FinishDone(w, o);
    InFlightFacts(w, opening, o);
    var ord, j := w.orders[o], w.jobs[o];
    var ord' := ord.(receipts := j.receipts);
    assert HeardJob(w.ledger, ord, j);
    var idle := w.(jobs := Without(w.jobs, o));
    HeardAbort(w, o);
    HeardOrders(w.ledger, w.orders, idle.jobs, o, ord');
    HeardSent(SetOrder(idle, o, ord'), w.outbox + j.staged, j.staged);
  }

  lemma MarkHeard(w: World, k: nat, s: MessageState)
    requires HeardOk(w) && Enabled(w, Mark(k, s))
    ensures HeardOk(Do(w, Mark(k, s)))
  {}

  lemma BeginHeard(w: World, o: OrderId)
    requires HeardOk(w) && Enabled(w, Begin(o))
    ensures HeardOk(Do(w, Begin(o)))
  {
    HeardSetJob(w, o, Job(w.orders[o].receipts, [], 0, 0, map[], false));
  }

  // ------------------------------------------------------------ every heard move, every heard run

  lemma AskingMoveHeard(w: World, opening: map<int, int>, m: Move)
    requires WorldOk(w, opening) && HeardOk(w) && Heard(w, m) && Enabled(w, m)
    requires m.CommitReceipt? || m.ReserveReplacement? || m.CommitReplacement?
    ensures HeardOk(Do(w, m))
  {
    match m
    case CommitReceipt(o, outcome) =>
      if outcome == Replied {
        RepliedHeard(w, opening, o);
      } else {
        DeafHeard(w, opening, o, outcome);
      }
    case ReserveReplacement(o, e) => ReserveReplacementHeard(w, opening, o, e);
    case CommitReplacement(o) => CommitReplacementHeard(w, opening, o);
  }

  lemma AttemptMoveHeard(w: World, opening: map<int, int>, m: Move)
    requires WorldOk(w, opening) && HeardOk(w) && Heard(w, m) && Enabled(w, m) && AttemptMove(m)
    ensures HeardOk(Do(w, m))
  {
    if m.Begin? {
      BeginHeard(w, m.order);
    } else if m.PassItem? {
      PassItemHeard(w, opening, m.order);
    } else if m.Finish? {
      FinishHeard(w, opening, m.order);
    } else if m.Abort? {
      HeardAbort(w, m.order);
    } else {
      AskingMoveHeard(w, opening, m);
    }
  }

  lemma LedgerMoveStep(w: World, m: Move) returns (s: Step)
    requires Enabled(w, m) && (m.Place? || m.DeliverRefund? || m.ReconcileCommit? || m.Stock?)
    ensures s.Reserve? ==> !s.checkout.Shortfall?
    ensures Do(w, m) == w.(ledger := Next(w.ledger, s), carts := Do(w, m).carts)
  {
    match m
    case Place(c, items, e) => s := Reserve(c, items, e);
    case DeliverRefund(k) => s := Restore(w.outbox[k].payload.order, w.outbox[k].payload.lines);
    case ReconcileCommit(o, i) => s := Commit(w.orders[o].receipts[i].checkout, Some(o));
    case Stock(t) => s := t;
  }

  /** Moves outside any attempt that go to the ledger. */
  lemma LedgerMoveHeard(w: World, opening: map<int, int>, m: Move)
    requires WorldOk(w, opening) && HeardOk(w) && Enabled(w, m)
    requires m.Place? || m.DeliverRefund? || m.ReconcileCommit? || m.Stock?
    ensures HeardOk(Do(w, m))
  {
    var s := LedgerMoveStep(w, m);
    HeardStep(w, opening, s);
  }

  lemma OtherMoveHeard(w: World, opening: map<int, int>, m: Move)
    requires WorldOk(w, opening) && HeardOk(w) && Enabled(w, m) && !AttemptMove(m) && !RowMove(m)
    ensures HeardOk(Do(w, m))
  {
    if m.Build? {
      BuildHeard(w, opening, m.checkout, m.order);
    } else if m.Confirm? || m.Refund? {
      InstructionHeard(w, opening, m);
    } else if m.Mark? {
      MarkHeard(w, m.message, m.state);
    } else if m.RedeliverCommit? || m.RedeliverSave? {
      RedeliverIsIdle(w, opening, m.message);
    } else {
      LedgerMoveHeard(w, opening, m);
    }
  }

  lemma MoveKeepsHeard(w: World, opening: map<int, int>, m: Move)
    requires WorldOk(w, opening) && HeardOk(w) && Heard(w, m)
    ensures HeardOk(NextWorld(w, m))
  {
    if Enabled(w, m) {
      if AttemptMove(m) {
        AttemptMoveHeard(w, opening, m);
      } else if RowMove(m) {
        RowMoveHeard(w, opening, m);
      } else {
        OtherMoveHeard(w, opening, m);
      }
    }
  }

  /** A heard run of a sound shop stays sound and heard, and its ledger only grows older. */
  lemma {:induction false} HeardRunKeeps(opening: map<int, int>, w: World, w': World, n: nat)
    requires WorldOk(w, opening) && HeardOk(w) && HeardRun(w, w', n)
    ensures WorldOk(w', opening) && HeardOk(w') && Later(w.ledger, w'.ledger)
    decreases n
  {
    if n == 0 {
      SameLater(w.ledger);
    } else {
      var u, m := LastHeard(w, w', n);
      HeardRunKeeps(opening, w, u, n - 1);
      MoveKeeps(u, opening, m);
      MoveKeepsHeard(u, opening, m);
      MoveLater(u, opening, m);
      LaterTransitive(w.ledger, u.ledger, w'.ledger);
    }
  }
}
