/** What the shop promises about money, orders and stock, over every run. */
module SagaTheorems {
  import opened Wrappers
  import opened Totals
  import opened Lines
  import opened Books
  import opened Ledgers
  import opened LedgerEffects
  import opened Saga
  import opened SagaInvariant
  import opened SagaRuns
  import opened HeardRuns

  /** Balances a shop can open with. */
  ghost predicate Balances(opening: map<int, int>) { forall v :: v in opening ==> opening[v] >= 0 }

  /** The states heard runs of a shop opened with these balances lead to. */
  ghost predicate Reachable(opening: map<int, int>, w: World) {
    Balances(opening) && exists n: nat :: HeardRun(Start(opening), w, n)
  }

  lemma ReachableOk(opening: map<int, int>, w: World)
    requires Reachable(opening, w)
    ensures WorldOk(w, opening) && HeardOk(w)
  {
    var n: nat :| HeardRun(Start(opening), w, n);
    StartOk(opening);
    HeardRunKeeps(opening, Start(opening), w, n);
  }

  /** A heard run is a run. */
  lemma {:induction false} HeardRunIsRun(w: World, w': World, n: nat) returns (moves: seq<Move>)
    requires HeardRun(w, w', n)
    ensures RunWorld(w, moves) == w'
    decreases n
  {
    moves := [];
    if n > 0 {
      var u, m := LastHeard(w, w', n);
      moves := HeardRunIsRun(w, u, n - 1);
      RunWorldSnoc(w, moves, m);
      moves := moves + [m];
    }
  }

  lemma ReachableStart(opening: map<int, int>)
    requires Balances(opening)
    ensures Reachable(opening, Start(opening))
  {
    assert HeardRun(Start(opening), Start(opening), 0);
  }

  lemma ReachableNext(opening: map<int, int>, w: World, m: Move)
    requires Reachable(opening, w) && Heard(w, m)
    ensures Reachable(opening, NextWorld(w, m))
  {
    var n: nat :| HeardRun(Start(opening), w, n);
    assert HeardRun(Start(opening), NextWorld(w, m), n + 1);
  }

  /** What a heard run of a reachable state leads to is reachable. */
  lemma {:induction false} ReachableOnward(opening: map<int, int>, w: World, w': World, n: nat)
    requires Reachable(opening, w) && HeardRun(w, w', n)
    ensures Reachable(opening, w')
    decreases n
  {
    if n > 0 {
      var u, m := LastHeard(w, w', n);
      ReachableOnward(opening, w, u, n - 1);
      ReachableNext(opening, u, m);
    }
  }

  // ------------------------------------------------------------ payment and intent

  /**
   * In every state of every run, whatever replies were lost: paid, recorded as paid, and
   * carrying exactly one fulfilment message are one and the same.
   */
  lemma AtomicPaymentIntent(opening: map<int, int>, moves: seq<Move>, o: OrderId)
    requires Balances(opening)
    ensures var w := RunWorld(Start(opening), moves);
            o in w.orders ==>
              var paid := w.orders[o].status in {Paid, Packed, Shipped, Delivered, Refunded};
              && (paid <==> w.orders[o].payment == Recorded(PayPaid))
              && (paid <==> Total(w.outbox, FulfilFor(o)) == 1)
              && (!paid <==> Total(w.outbox, FulfilFor(o)) == 0)
              && (w.orders[o].status == Refunded <==> Total(w.outbox, RestoreFor(o)) == 1)
  {
    EveryRunOk(opening, moves);
    if o in RunWorld(Start(opening), moves).orders {
      IntentOk(RunWorld(Start(opening), moves), opening, o);
    }
  }

  lemma IntentOk(w: World, opening: map<int, int>, o: OrderId)
    requires WorldOk(w, opening) && o in w.orders
    ensures PaidLike(w.orders[o].status) <==> w.orders[o].payment == Recorded(PayPaid)
    ensures Total(w.outbox, FulfilFor(o)) == if PaidLike(w.orders[o].status) then 1 else 0
    ensures Total(w.outbox, RestoreFor(o)) == if w.orders[o].status == Refunded then 1 else 0
  {
    assert OrderOk(w.ledger, w.orders[o]);
  }

  /** A counted message is there. */
  lemma {:induction false} CountedIsThere(outbox: seq<Message>, o: OrderId)
    ensures Total(outbox, FulfilFor(o)) >= 0
    ensures Total(outbox, FulfilFor(o)) > 0 <==> exists k :: 0 <= k < |outbox| && outbox[k].payload == FulfilStock(o)
  {
    TotalNonNegative(outbox, FulfilFor(o));
  }

  /**
   * In every state of every run an attempt can begin exactly where the order is paid and not
   * refunded, however far it has been shipped, and no other attempt holds its row; and it
   * stays so for as long as an attempt holds it.
   */
  lemma AttemptsBeginExactly(opening: map<int, int>, moves: seq<Move>, o: OrderId)
    requires Balances(opening)
    ensures var w := RunWorld(Start(opening), moves);
            && (Enabled(w, Begin(o)) <==>
                  o in w.orders && o !in w.jobs && w.orders[o].status in {Paid, Packed, Shipped, Delivered})
            && (o in w.jobs ==> o in w.orders && w.orders[o].status in {Paid, Packed, Shipped, Delivered})
  {
    EveryRunOk(opening, moves);
    BeginsExactly(RunWorld(Start(opening), moves), opening, o);
  }

  lemma BeginsExactly(w: World, opening: map<int, int>, o: OrderId)
    requires WorldOk(w, opening)
    ensures Enabled(w, Begin(o)) <==>
              o in w.orders && o !in w.jobs && w.orders[o].status in {Paid, Packed, Shipped, Delivered}
    ensures o in w.jobs ==> o in w.orders && w.orders[o].status in {Paid, Packed, Shipped, Delivered}
  {
    CountedIsThere(w.outbox, o);
    if o in w.orders {
      IntentOk(w, opening, o);
    }
    if o in w.jobs {
      assert JobOk(w.ledger, o, w.orders[o], w.jobs[o]);
    }
  }

  /** The nine steps of an order's life. */
  ghost predicate LifeStep(was: OrderStatus, now: OrderStatus) {
    (was, now) in {(Pending, Paid), (Pending, Cancelled), (Paid, Packed), (Packed, Shipped), (Shipped, Delivered),
                   (Paid, Refunded), (Packed, Refunded), (Shipped, Refunded), (Delivered, Refunded)}
  }

  /** What an order's row can become: its items stay, taken money stays taken, cancelled stays cancelled. */
  predicate Follows(ord: Order, ord': Order) {
    && ord'.items == ord.items
    && (PaidLike(ord.status) ==> PaidLike(ord'.status))
    && (ord.status == Cancelled ==> ord'.status == Cancelled)
    && (ord.payment == Recorded(PayPaid) ==> ord'.payment == Recorded(PayPaid))
  }

  lemma RowMoveFollows(w: World, m: Move)
    requires Enabled(w, m) && RowMove(m)
    ensures m.order in w.orders && m.order in Do(w, m).orders && Follows(w.orders[m.order], Do(w, m).orders[m.order])
    ensures Do(w, m).orders == w.orders[m.order := Do(w, m).orders[m.order]]
  {
    RowMoveShape(w, m);
  }

  lemma AttemptOrders(w: World, m: Move)
    requires Enabled(w, m) && AttemptMove(m)
    ensures if m.Finish? then m.order in w.orders && m.order in w.jobs
                              && Do(w, m).orders == w.orders[m.order := w.orders[m.order].(receipts := w.jobs[m.order].receipts)]
            else Do(w, m).orders == w.orders
  {}

  lemma OtherFollows(w: World, m: Move, o: OrderId)
    requires o in w.orders && Enabled(w, m) && !RowMove(m) && !AttemptMove(m)
    ensures o in Do(w, m).orders && Follows(w.orders[o], Do(w, m).orders[o])
  {}

  lemma OrderFollows(w: World, m: Move, o: OrderId)
    requires o in w.orders
    ensures o in NextWorld(w, m).orders && Follows(w.orders[o], NextWorld(w, m).orders[o])
  {
    if Enabled(w, m) {
      if RowMove(m) {
        RowMoveFollows(w, m);
      } else if AttemptMove(m) {
        AttemptOrders(w, m);
      } else {
        OtherFollows(w, m, o);
      }
    }
  }

  /** A move that changes a status takes one step of the order's life. */
  lemma StatusSteps(w: World, m: Move, o: OrderId)
    requires o in w.orders
    ensures o in NextWorld(w, m).orders
    ensures var was, now := w.orders[o].status, NextWorld(w, m).orders[o].status; now == was || LifeStep(was, now)
  {
    if Enabled(w, m) {
      if RowMove(m) {
        RowMoveShape(w, m);
        RowStatusSteps(w, m);
      } else if AttemptMove(m) {
        AttemptOrders(w, m);
      } else {
        OtherStatus(w, m, o);
      }
    }
  }

  lemma RowStatusSteps(w: World, m: Move)
    requires RowMove(m) && Enabled(w, m) && m.order in w.orders && (m.ReconcileSave? ==> m.receipt < |w.orders[m.order].receipts|)
    ensures var was, now := w.orders[m.order].status, RowAfter(w.orders[m.order], m).status; now == was || LifeStep(was, now)
  {}

  /** Each step but the payment's is open to an order whose row no attempt holds, and changes nothing else of it. */
  lemma StepsOpen(w: World, o: OrderId, now: OrderStatus)
    requires o in w.orders && o !in w.jobs && LifeStep(w.orders[o].status, now) && now != Paid
    ensures NextWorld(w, if now == Refunded then Refund(o) else Transition(o, now)).orders
         == w.orders[o := w.orders[o].(status := now)]
  {}

  /** Besides the row's own moves only payment and refund change a status. */
  lemma OtherStatus(w: World, m: Move, o: OrderId)
    requires o in w.orders && Enabled(w, m) && !RowMove(m) && !AttemptMove(m)
    ensures o in Do(w, m).orders
    ensures Do(w, m).orders[o].status == w.orders[o].status
            || (m == Confirm(o) && w.orders[o].status == Pending && Do(w, m).orders[o].status == Paid)
            || (m == Refund(o) && Do(w, m).orders[o].status == Refunded
                && w.orders[o].status in {Paid, Packed, Shipped, Delivered})
  {}

  lemma {:induction false} FollowsForGood(w: World, moves: seq<Move>, o: OrderId)
    requires o in w.orders
    ensures o in RunWorld(w, moves).orders && Follows(w.orders[o], RunWorld(w, moves).orders[o])
  {
    if moves != [] {
      var n := |moves| - 1;
      FollowsForGood(w, moves[..n], o);
      OrderFollows(RunWorld(w, moves[..n]), moves[n], o);
    }
  }

  lemma NotPayable(w: World, o: OrderId)
    requires AlreadyPaid(w.orders, o) || CannotBePaid(w.orders, o)
    ensures NextWorld(w, Confirm(o)) == w
  {}

  lemma CancelledUnpayable(w: World, opening: map<int, int>, o: OrderId)
    requires WorldOk(w, opening) && o in w.orders && w.orders[o].status == Cancelled
    ensures CannotBePaid(w.orders, o) && !AlreadyPaid(w.orders, o)
  {
    assert OrderOk(w.ledger, w.orders[o]);
  }

  lemma Confirmed(w: World, o: OrderId)
    requires Enabled(w, Confirm(o))
    ensures AlreadyPaid(NextWorld(w, Confirm(o)).orders, o)
  {}

  /**
   * After a confirmation, whatever happens next, a repeat finds the payment taken and
   * changes nothing; after a cancellation, a late payment can only be refused.
   */
  lemma ConfirmReplayIsIdle(opening: map<int, int>, before: seq<Move>, o: OrderId, after: seq<Move>)
    requires Balances(opening)
    ensures var w := RunWorld(Start(opening), before);
            Enabled(w, Confirm(o)) ==>
              var later := RunWorld(NextWorld(w, Confirm(o)), after);
              AlreadyPaid(later.orders, o) && NextWorld(later, Confirm(o)) == later
    ensures var w := RunWorld(Start(opening), before);
            o in w.orders && w.orders[o].status == Cancelled ==>
              var later := RunWorld(w, after);
              CannotBePaid(later.orders, o) && !AlreadyPaid(later.orders, o) && NextWorld(later, Confirm(o)) == later
  {
    var w := RunWorld(Start(opening), before);
    EveryRunOk(opening, before);
    if Enabled(w, Confirm(o)) {
      Confirmed(w, o);
      FollowsForGood(NextWorld(w, Confirm(o)), after, o);
      NotPayable(RunWorld(NextWorld(w, Confirm(o)), after), o);
    }
    if o in w.orders && w.orders[o].status == Cancelled {
      FollowsForGood(w, after, o);
      RunKeepsWorld(w, opening, after);
      CancelledUnpayable(RunWorld(w, after), opening, o);
      NotPayable(RunWorld(w, after), o);
    }
  }

  // ------------------------------------------------------------ receipts and commit instructions

  /** Every receipt recorded as consumed names a group with no active row. */
  ghost predicate ConsumedIsTrue(w: World) {
    forall o, i :: o in w.orders && 0 <= i < |w.orders[o].receipts| && w.orders[o].receipts[i].state == Consumed ==>
      Settled(w.ledger.book, w.orders[o].receipts[i].checkout)
  }

  ghost predicate PaidIsSure(w: World) {
    forall o :: o in w.orders && PaidLike(w.orders[o].status) ==> !HasUnknown(w.orders[o].receipts)
  }

  /** Delivering a stock commit again, queued or not, changes nothing anywhere. */
  ghost predicate RedeliveryIsIdle(w: World) {
    forall k: nat :: NextWorld(w, RedeliverCommit(k)) == w && NextWorld(w, RedeliverSave(k)) == w
  }

  /**
   * In every state of every run: no paid order has a receipt in doubt, a receipt recorded
   * as consumed tells the truth, and no stock commit in the outbox has anything left to do.
   */
  lemma NoLooseEnds(opening: map<int, int>, moves: seq<Move>)
    requires Balances(opening)
    ensures var w := RunWorld(Start(opening), moves); PaidIsSure(w) && ConsumedIsTrue(w) && RedeliveryIsIdle(w)
  {
    var w := RunWorld(Start(opening), moves);
    EveryRunOk(opening, moves);
    ReceiptsOk(w, opening);
    forall k: nat ensures NextWorld(w, RedeliverCommit(k)) == w && NextWorld(w, RedeliverSave(k)) == w {
      RedeliverIsIdle(w, opening, k);
    }
  }

  lemma ReceiptsOk(w: World, opening: map<int, int>)
    requires WorldOk(w, opening)
    ensures PaidIsSure(w) && ConsumedIsTrue(w)
  {
    forall o | o in w.orders
      ensures PaidLike(w.orders[o].status) ==> !HasUnknown(w.orders[o].receipts)
      ensures |w.orders[o].receipts| == 1
      ensures w.orders[o].receipts[0].state == Consumed ==> Settled(w.ledger.book, w.orders[o].receipts[0].checkout)
    {
      assert OrderOk(w.ledger, w.orders[o]);
    }
  }

  /** In a heard state no stock commit is queued. */
  lemma NoCommitQueued(opening: map<int, int>, w: World)
    requires Reachable(opening, w)
    ensures NoneQueued(w.outbox)
  {
    ReachableOk(opening, w);
  }

  predicate SomeQueued(staged: seq<Message>) {
    exists k :: 0 <= k < |staged| && staged[k].payload.StockCommit? && staged[k].state == Queued
  }

  /** An attempt that nothing keeps from finishing, with a commit that was not answered. */
  predicate Deaf(jobs: map<OrderId, Job>, o: OrderId) {
    o in jobs && SomeQueued(jobs[o].staged) && !HasUnknown(jobs[o].receipts)
  }

  lemma NoneQueuedPlus(outbox: seq<Message>, staged: seq<Message>)
    requires NoneQueued(outbox)
    ensures NoneQueued(outbox + staged) <==> !SomeQueued(staged)
  {
    if SomeQueued(staged) {
      var k :| 0 <= k < |staged| && staged[k].payload.StockCommit? && staged[k].state == Queued;
      assert (outbox + staged)[|outbox| + k] == staged[k];
    }
  }

  /** The instruction a payment or a refund records. */
  lemma Instruction(w: World, m: Move) returns (sent: Message)
    requires Enabled(w, m) && (m.Confirm? || m.Refund?)
    ensures !sent.payload.StockCommit? && Do(w, m).outbox == w.outbox + [sent]
  {
    sent := if m.Confirm? then Message(FulfilStock(m.order), Queued)
            else Message(RestoreStock(m.order, w.orders[m.order].items, Checkouts(w.orders[m.order].receipts)), Queued);
  }

  /** Every other move leaves the outbox alone, but for marking what was delivered. */
  lemma OutboxStays(w: World, m: Move)
    requires Enabled(w, m) && !m.Finish? && !m.Confirm? && !m.Refund?
    ensures Do(w, m).outbox == w.outbox
            || (m.Mark? && m.message < |w.outbox| && m.state != Queued
                && Do(w, m).outbox == w.outbox[m.message := w.outbox[m.message].(state := m.state)])
  {}

  /** "No stock commit is queued" survives a move exactly when that is not the end of a deaf attempt. */
  lemma NoneQueuedExactly(w: World, m: Move)
    requires NoneQueued(w.outbox)
    ensures NoneQueued(NextWorld(w, m).outbox) <==> !(m.Finish? && Enabled(w, m) && Deaf(w.jobs, m.order))
  {
    if Enabled(w, m) {
      if m.Finish? {
        NoneQueuedPlus(w.outbox, w.jobs[m.order].staged);
      } else if m.Confirm? || m.Refund? {
        var sent := Instruction(w, m);
        NoneQueuedPlus(w.outbox, [sent]);
      } else {
        OutboxStays(w, m);
      }
    }
  }

  /** A commit of a receipt already recorded as consumed goes unanswered. */
  predicate Unanswered(w: World, m: Move, o: OrderId) { m.CommitReceipt? && m.order == o && !Heard(w, m) }

  lemma HeededDeaf(w: World, o: OrderId)
    requires Enabled(w, CommitReceipt(o, Replied)) && w.jobs[o].staged == [] && |w.jobs[o].receipts| == 1 && w.jobs[o].pos == 0
    requires w.jobs[o].receipts[0].state in {Held, Consumed}
    ensures !Deaf(NextWorld(w, CommitReceipt(o, Replied)).jobs, o)
  {
    var j := w.jobs[o];
    match CommitHolds(w.ledger, j.receipts[0].checkout, Some(o))
    case Err(_) =>
    case Ok((l, m)) =>
      RepliedDone(w, o, l, m);
      assert Heeded(o, j, m).staged == [Message(StockCommit(j.receipts[0].checkout, o), Sent)];
  }

  lemma UnheardDeaf(w: World, o: OrderId, outcome: Outcome)
    requires Enabled(w, CommitReceipt(o, outcome)) && outcome != Replied
    requires w.jobs[o].staged == [] && |w.jobs[o].receipts| == 1 && w.jobs[o].pos == 0
    requires w.jobs[o].receipts[0].state in {Held, Consumed}
    ensures Deaf(NextWorld(w, CommitReceipt(o, outcome)).jobs, o) <==> w.jobs[o].receipts[0].state == Consumed
  {
    DeafDone(w, o, outcome);
    UnheardReceipt(o, w.jobs[o]);
  }

  lemma ReceiptDeaf(w: World, opening: map<int, int>, o: OrderId, outcome: Outcome)
    requires WorldOk(w, opening) && Enabled(w, CommitReceipt(o, outcome))
    ensures Deaf(NextWorld(w, CommitReceipt(o, outcome)).jobs, o) <==> !Heard(w, CommitReceipt(o, outcome))
    ensures !Deaf(w.jobs, o)
  {
    InFlightFacts(w, opening, o);
    BeforeReceipt(w.ledger, o, w.orders[o], w.jobs[o]);
    if outcome == Replied {
      HeededDeaf(w, o);
    } else {
      UnheardDeaf(w, o, outcome);
    }
  }

  lemma UnheardReceipt(o: OrderId, j: Job)
    requires |j.receipts| == 1 && j.pos == 0 && j.staged == [] && j.receipts[0].state in {Held, Consumed}
    ensures SomeQueued(Unheard(o, j).staged) && (HasUnknown(Unheard(o, j).receipts) <==> j.receipts[0].state == Held)
  {
    var j' := Unheard(o, j);
    assert j'.staged[0].state == Queued;
    assert j'.receipts[0].state == if j.receipts[0].state == Held then Unknown else j.receipts[0].state;
  }

  /** Any other move leaves what the attempt has staged, and its receipts, as they are. */
  lemma OtherMovesDeafNobody(w: World, m: Move, o: OrderId)
    requires !(m.CommitReceipt? && m.order == o)
    ensures var jobs := NextWorld(w, m).jobs;
            && (o in jobs && o in w.jobs ==> jobs[o].staged == w.jobs[o].staged && jobs[o].receipts == w.jobs[o].receipts)
            && (o in jobs && o !in w.jobs ==> jobs[o].staged == [])
  {
    if Enabled(w, m) {
      if AttemptMove(m) {
        AttemptDeafsNobody(w, m, o);
      } else {
        JobsStay(w, m);
      }
    }
  }

  lemma JobsStay(w: World, m: Move)
    requires Enabled(w, m) && !AttemptMove(m)
    ensures Do(w, m).jobs == w.jobs
  {}

  lemma AttemptDeafsNobody(w: World, m: Move, o: OrderId)
    requires Enabled(w, m) && AttemptMove(m) && !(m.CommitReceipt? && m.order == o)
    ensures var jobs := Do(w, m).jobs;
            && (o in jobs && o in w.jobs ==> jobs[o].staged == w.jobs[o].staged && jobs[o].receipts == w.jobs[o].receipts)
            && (o in jobs && o !in w.jobs ==> jobs[o].staged == [])
  {
    if m.order == o {
      PastReceiptDeafsNobody(w, m);
    } else {
      OneAttemptAtATime(w, m, o);
    }
  }

  lemma OneAttemptAtATime(w: World, m: Move, o: OrderId)
    requires Enabled(w, m) && AttemptMove(m) && m.order != o
    ensures o in Do(w, m).jobs <==> o in w.jobs
    ensures o in w.jobs ==> Do(w, m).jobs[o] == w.jobs[o]
  {
    if m.CommitReceipt? || m.ReserveReplacement? || m.CommitReplacement? {
      OneAsksAtATime(w, m, o);
    }
  }

  lemma OneAsksAtATime(w: World, m: Move, o: OrderId)
    requires Enabled(w, m) && (m.CommitReceipt? || m.ReserveReplacement? || m.CommitReplacement?) && m.order != o
    ensures o in Do(w, m).jobs <==> o in w.jobs
    ensures o in w.jobs ==> Do(w, m).jobs[o] == w.jobs[o]
  {}

  lemma PastReceiptDeafsNobody(w: World, m: Move)
    requires Enabled(w, m) && AttemptMove(m) && !m.CommitReceipt?
    ensures var o, jobs := m.order, Do(w, m).jobs;
            && (o in jobs && o in w.jobs ==> jobs[o].staged == w.jobs[o].staged && jobs[o].receipts == w.jobs[o].receipts)
            && (o in jobs && o !in w.jobs ==> jobs[o].staged == [])
  {}

  /** An attempt is deaf from the moment a commit of a consumed receipt goes unanswered until it ends, and never else. */
  lemma DeafExactly(opening: map<int, int>, moves: seq<Move>, m: Move, o: OrderId)
    requires Balances(opening)
    ensures var w := RunWorld(Start(opening), moves);
            var w' := NextWorld(w, m);
            Deaf(w'.jobs, o) <==> Unanswered(w, m, o) || (Deaf(w.jobs, o) && o in w'.jobs)
  {
    var w := RunWorld(Start(opening), moves);
    EveryRunOk(opening, moves);
    if m.CommitReceipt? && m.order == o {
      if Enabled(w, m) {
        ReceiptDeaf(w, opening, o, m.outcome);
      }
    } else {
      OtherMovesDeafNobody(w, m, o);
    }
  }

  // ------------------------------------------------------------ who sells

  /** The group an attempt's commit is about. */
  function CommitGroup(w: World, m: Move): CheckoutId
    requires Enabled(w, m) && (m.CommitReceipt? || m.CommitReplacement? || m.ReconcileCommit?)
  {
    if m.ReconcileCommit? then w.orders[m.order].receipts[m.receipt].checkout
    else
      var j := w.jobs[m.order];
      if m.CommitReceipt? then j.receipts[j.pos].checkout
      else Shortfall(m.order, w.orders[m.order].items[j.item].variant)
  }

  /** The three moves that can sell. */
  predicate Selling(m: Move) { m.CommitReceipt? || m.CommitReplacement? || m.ReconcileCommit? }

  lemma SellingLedger(w: World, m: Move)
    requires Enabled(w, m) && Selling(m)
    ensures Do(w, m).ledger == w.ledger || Do(w, m).ledger == Next(w.ledger, Commit(CommitGroup(w, m), Some(m.order)))
    ensures m.CommitReplacement? || m.ReconcileCommit? ==>
              Do(w, m).ledger == Next(w.ledger, Commit(CommitGroup(w, m), Some(m.order)))
  {}

  /** A sale is from the order's own group or from its replacement, and only reconciliation sells unpaid. */
  lemma SellingGroup(w: World, opening: map<int, int>, m: Move)
    requires WorldOk(w, opening) && Enabled(w, m) && Selling(m)
    ensures m.order in w.orders && GroupOfOrder(w.ledger, w.orders, CommitGroup(w, m), m.order)
    ensures m.CommitReplacement? || CommitGroup(w, m) == Own(w.orders[m.order])
    ensures w.orders[m.order].status != Refunded && (PaidLike(w.orders[m.order].status) <==> !m.ReconcileCommit?)
  {
    if m.ReconcileCommit? {
      DoubtFacts(w, opening, m.order, m.receipt);
    } else {
      InFlightFacts(w, opening, m.order);
      if m.CommitReceipt? {
        BeforeReceipt(w.ledger, m.order, w.orders[m.order], w.jobs[m.order]);
      }
    }
  }

  /** What a selling move can change of what orders were sold. */
  lemma SellingSells(w: World, opening: map<int, int>, m: Move)
    requires WorldOk(w, opening) && Enabled(w, m) && Selling(m)
    ensures Do(w, m).ledger == w.ledger || Sells(w.ledger, Do(w, m).ledger, CommitGroup(w, m), m.order)
  {
    SellingGroup(w, opening, m);
    SellingLedger(w, m);
    CommitFrame(w, opening, CommitGroup(w, m), m.order);
  }

  /** Reserving never sells. */
  lemma ReserveSellsNothing(l: Ledger, opening: map<int, int>, c: CheckoutId, lines: seq<Line>, e: int, o: OrderId, v: int)
    requires LedgerOk(l, opening)
    ensures SoldUnits(Next(l, Reserve(c, lines, e)).book, o, v) == SoldUnits(l.book, o, v)
  {
    if ReserveKey(c) !in l.keys && ReserveLines(l, c, lines, e).Ok? {
      ReserveClaims(l, opening, c, lines, e);
    }
  }

  lemma RestoreSellsNothing(w: World, opening: map<int, int>, k: nat, o: OrderId, v: int)
    requires WorldOk(w, opening) && Enabled(w, DeliverRefund(k))
    ensures SoldUnits(Do(w, DeliverRefund(k)).ledger.book, o, v) == SoldUnits(w.ledger.book, o, v)
  {
    RestoreMessage(w, k);
    RestoredSales(w, opening, w.outbox[k].payload.order, o, v);
  }

  lemma RestoredSales(w: World, opening: map<int, int>, refunded: OrderId, o: OrderId, v: int)
    requires WorldOk(w, opening) && refunded in w.orders
    ensures SoldUnits(Next(w.ledger, Restore(refunded, w.orders[refunded].items)).book, o, v) == SoldUnits(w.ledger.book, o, v)
  {
    if RefundKey(refunded) in w.ledger.keys {
      RecordedRefund(w.ledger, refunded, w.orders[refunded].items);
    } else {
      RestoreReturns(w, opening, refunded);
    }
  }

  /** What a restore message asks for. */
  lemma RestoreMessage(w: World, k: nat)
    requires MessagesOk(w.orders, w.outbox) && Enabled(w, DeliverRefund(k))
    ensures var p := w.outbox[k].payload;
            && p.order in w.orders && w.orders[p.order].status == Refunded && p.lines == w.orders[p.order].items
            && Do(w, DeliverRefund(k)) == w.(ledger := Next(w.ledger, Restore(p.order, p.lines)))
  {
    assert MessageOk(w.orders, w.outbox[k]);
  }

  lemma ReplaceLedgerStep(w: World, o: OrderId, e: int)
    requires Enabled(w, ReserveReplacement(o, e))
    ensures var x := Short(w.orders[o], w.jobs[o]);
            Do(w, ReserveReplacement(o, e)).ledger == Next(w.ledger, Reserve(Shortfall(o, x.variant), [x], e))
  {}

  /** Moves that leave the ledger alone. */
  predicate OffLedger(m: Move) {
    !Selling(m) && !m.Place? && !m.ReserveReplacement? && !m.DeliverRefund? && !m.RedeliverCommit? && !m.Stock?
  }

  lemma OffLedgerStays(w: World, m: Move)
    requires Enabled(w, m) && OffLedger(m)
    ensures Do(w, m).ledger == w.ledger
  {}

  /** Only fulfilment of a paid order and reconciliation sell anything. */
  lemma OtherMovesSellNothing(w: World, opening: map<int, int>, m: Move, o: OrderId, v: int)
    requires WorldOk(w, opening) && Enabled(w, m) && !Selling(m)
    ensures SoldUnits(Do(w, m).ledger.book, o, v) == SoldUnits(w.ledger.book, o, v)
  {
    if m.Place? {
      ReserveSellsNothing(w.ledger, opening, m.checkout, m.items, m.expiresAt, o, v);
    } else if m.ReserveReplacement? {
      ReplaceLedgerStep(w, m.order, m.expiresAt);
      var x := Short(w.orders[m.order], w.jobs[m.order]);
      ReserveSellsNothing(w.ledger, opening, Shortfall(m.order, x.variant), [x], m.expiresAt, o, v);
    } else if m.DeliverRefund? {
      RestoreSellsNothing(w, opening, m.message, o, v);
    } else if m.RedeliverCommit? {
      RedeliverIsIdle(w, opening, m.message);
    } else if m.Stock? {
      StockIsQuiet(w.ledger, opening, m.step);
    } else {
      OffLedgerStays(w, m);
    }
  }

  // ------------------------------------------------------------ at most once, exactly

  /** No line of any order is sold beyond what was ordered. */
  ghost predicate SoldOnce(w: World) {
    forall o, v :: o in w.orders ==> SoldUnits(w.ledger.book, o, v) <= Units(w.orders[o].items, v)
  }

  /** An attempt is about to sell an active replacement of a line its order's own group already sold. */
  ghost predicate SellsTwice(w: World, m: Move) {
    && m.CommitReplacement? && Enabled(w, m)
    && var x := w.orders[m.order].items[w.jobs[m.order].item];
       && !Settled(w.ledger.book, Shortfall(m.order, x.variant))
       && CommittedIn(w.ledger.book, Own(w.orders[m.order]), x.variant) > 0
  }

  /** Nothing is ever sold for an order that does not exist. */
  lemma StrangerSoldNothing(l: Ledger, opening: map<int, int>, orders: Orders, o: OrderId, v: int)
    requires LedgerOk(l, opening) && SalesOwned(l.book, orders) && o !in orders
    ensures SoldUnits(l.book, o, v) == 0
  {
    forall i | 0 <= i < |l.book.holds| ensures CommittedFor(Some(o), v)(l.book.holds[i]) == 0 {
      if l.book.holds[i].status == Committed {
        assert OwnedBy(orders, l.book.holds[i]);
      }
    }
    TotalNonNegative(l.book.holds, CommittedFor(Some(o), v));
    assert Total(l.book.holds, CommittedFor(Some(o), v)) == Total(l.book.moves, SoldFor(Some(o), v));
  }

  /** Committing a replacement that is still active sells its whole line. */
  lemma ActiveReplacementSells(l: Ledger, opening: map<int, int>, orders: Orders, o: OrderId, v: int)
    requires LedgerOk(l, opening) && ReplacementsOk(l, orders) && o in orders
    requires ReserveKey(Shortfall(o, v)) in l.keys && !Settled(l.book, Shortfall(o, v))
    requires CommitHolds(l, Shortfall(o, v), Some(o)).Ok?
    ensures Units(orders[o].items, v) >= 1
    ensures CommittedIn(CommitHolds(l, Shortfall(o, v), Some(o)).value.0.book, Shortfall(o, v), v) == Units(orders[o].items, v)
  {
    var d, x := Shortfall(o, v), Line(v, Units(orders[o].items, v));
    var l' := CommitHolds(l, d, Some(o)).value.0;
    assert ReplacementOk(l, orders, o, v) && GroupOk(l, d);
    ReplacementRow(l, opening, d, x);
    CommitShape(l, d, Some(o));
    var k := OnlyRow(l.book.holds, d, x);
    GroupLinesStable(l.book.holds, l'.book.holds, d);
    SettledSingle(l'.book, d, x);
  }

  /** After a selling move, what an order was sold is what its two groups sold. */
  lemma SoldAfterSelling(w: World, opening: map<int, int>, m: Move, v: int)
    requires WorldOk(w, opening) && Enabled(w, m) && Selling(m)
    ensures var w' := Do(w, m);
            && m.order in w.orders && m.order in w'.orders && w'.orders[m.order].items == w.orders[m.order].items
            && Own(w'.orders[m.order]) == Own(w.orders[m.order])
            && SoldUnits(w'.ledger.book, m.order, v)
               == CommittedIn(w'.ledger.book, Own(w.orders[m.order]), v) + CommittedIn(w'.ledger.book, Shortfall(m.order, v), v)
  {
    SellingGroup(w, opening, m);
    MoveKeeps(w, opening, m);
    SellingKeepsOrders(w, m);
    SoldParts(Do(w, m), opening, m.order, v);
  }

  lemma SellingKeepsOrders(w: World, m: Move)
    requires Enabled(w, m) && Selling(m)
    ensures Do(w, m).orders == w.orders
  {}

  /** A selling move that is not a second sale of its line oversells nothing. */
  lemma SellingOnce(w: World, opening: map<int, int>, m: Move, v: int)
    requires WorldOk(w, opening) && SoldOnce(w) && Enabled(w, m) && Selling(m) && !SellsTwice(w, m)
    ensures SoldUnits(Do(w, m).ledger.book, m.order, v) <= Units(w.orders[m.order].items, v)
  {
    var o, l, l' := m.order, w.ledger, Do(w, m).ledger;
    SellingSells(w, opening, m);
    SoldAfterSelling(w, opening, m, v);
    SoldPartsLater(w, opening, m, v);
    if l' != l {
      if m.CommitReplacement? {
        OwnUntouched(w, opening, m, v);
      } else {
        OwnNotReplaced(w, opening, m, v);
      }
    }
  }

  /** A replacement's sale leaves what the order's own group sold, and every other line's replacement. */
  lemma OwnUntouched(w: World, opening: map<int, int>, m: Move, v: int)
    requires WorldOk(w, opening) && SoldOnce(w) && Enabled(w, m) && m.CommitReplacement? && !SellsTwice(w, m)
    requires Sells(w.ledger, Do(w, m).ledger, CommitGroup(w, m), m.order) && Do(w, m).ledger != w.ledger
    ensures m.order in w.orders
    ensures var l' := Do(w, m).ledger;
            CommittedIn(l'.book, Own(w.orders[m.order]), v) == 0 || CommittedIn(l'.book, Shortfall(m.order, v), v) == 0
  {
    SoldParts(w, opening, m.order, v);
    assert OrderOk(w.ledger, w.orders[m.order]);
  }

  /** The own group's sale comes before any replacement. */
  lemma OwnNotReplaced(w: World, opening: map<int, int>, m: Move, v: int)
    requires WorldOk(w, opening) && Enabled(w, m) && Selling(m) && !m.CommitReplacement?
    requires Sells(w.ledger, Do(w, m).ledger, CommitGroup(w, m), m.order) && Do(w, m).ledger != w.ledger
    ensures CommittedIn(Do(w, m).ledger.book, Shortfall(m.order, v), v) == 0
  {
    SellingGroup(w, opening, m);
    assert OrderOk(w.ledger, w.orders[m.order]);
    NotYetReplaced(w, opening, m.order, v);
  }

  lemma SoldPartsLater(w: World, opening: map<int, int>, m: Move, v: int)
    requires WorldOk(w, opening) && Enabled(w, m) && Selling(m)
    ensures m.order in w.orders
    ensures var l', u := Do(w, m).ledger, Units(w.orders[m.order].items, v);
            && u >= 0 && CommittedIn(l'.book, Own(w.orders[m.order]), v) in {0, u}
            && CommittedIn(l'.book, Shortfall(m.order, v), v) in {0, u}
  {
    SoldAfterSelling(w, opening, m, v);
    MoveKeeps(w, opening, m);
    SoldParts(Do(w, m), opening, m.order, v);
  }

  /** While an order's own group still holds stock, none of its lines has a replacement. */
  lemma NotYetReplaced(w: World, opening: map<int, int>, o: OrderId, v: int)
    requires WorldOk(w, opening) && o in w.orders && !Settled(w.ledger.book, Own(w.orders[o]))
    ensures CommittedIn(w.ledger.book, Shortfall(o, v), v) == 0
  {
    assert ReplacementOk(w.ledger, w.orders, o, v);
    UnclaimedSoldNothing(w.ledger, opening, Shortfall(o, v), v);
  }

  /** What the attempt in `SellsTwice` is about to do. */
  lemma TwiceFacts(w: World, opening: map<int, int>, m: Move)
    requires WorldOk(w, opening) && SellsTwice(w, m)
    ensures m.order in w.orders && w.jobs[m.order].item < |w.orders[m.order].items|
    ensures var o, v := m.order, w.orders[m.order].items[w.jobs[m.order].item].variant;
            && ReserveKey(Shortfall(o, v)) in w.ledger.keys && CommitHolds(w.ledger, Shortfall(o, v), Some(o)).Ok?
            && Do(w, m).ledger == CommitHolds(w.ledger, Shortfall(o, v), Some(o)).value.0
            && Sells(w.ledger, Do(w, m).ledger, Shortfall(o, v), o)
            && CommittedIn(w.ledger.book, Own(w.orders[o]), v) == Units(w.orders[o].items, v)
            && Own(w.orders[o]) != Shortfall(o, v)
  {
    var o := m.order;
    var v := w.orders[o].items[w.jobs[o].item].variant;
    InFlightFacts(w, opening, o);
    SellingLedger(w, m);
    CommitFrame(w, opening, Shortfall(o, v), o);
    OwnAllOrNone(w.ledger, opening, w.orders[o], v);
  }

  /** A second sale of a line sells it twice. */
  lemma SellsTwiceSells(w: World, opening: map<int, int>, m: Move)
    requires WorldOk(w, opening) && SellsTwice(w, m)
    ensures m.order in w.orders && w.jobs[m.order].item < |w.orders[m.order].items|
    ensures var x := w.orders[m.order].items[w.jobs[m.order].item];
            SoldUnits(Do(w, m).ledger.book, m.order, x.variant) == 2 * Units(w.orders[m.order].items, x.variant) > 0
  {
    TwiceFacts(w, opening, m);
    var v := w.orders[m.order].items[w.jobs[m.order].item].variant;
    ActiveReplacementSells(w.ledger, opening, w.orders, m.order, v);
    SoldAfterSelling(w, opening, m, v);
  }

  lemma MoveSellsOnce(w: World, opening: map<int, int>, m: Move, o: OrderId, v: int)
    requires WorldOk(w, opening) && SoldOnce(w) && Enabled(w, m) && !SellsTwice(w, m) && o in Do(w, m).orders
    ensures SoldUnits(Do(w, m).ledger.book, o, v) <= Units(Do(w, m).orders[o].items, v)
  {
    if o in w.orders {
      OrderFollows(w, m, o);
    }
    if Selling(m) {
      SellingKeepsOrders(w, m);
      if o == m.order {
        SellingOnce(w, opening, m, v);
      } else {
        SellingSells(w, opening, m);
      }
    } else {
      OtherMovesSellNothing(w, opening, m, o, v);
      if o !in w.orders {
        StrangerSoldNothing(w.ledger, opening, w.orders, o, v);
        MoveKeeps(w, opening, m);
        SoldParts(Do(w, m), opening, o, v);
      }
    }
  }

  /** In every run: "no line is oversold" survives a move exactly when that is not a second sale of a line. */
  lemma AtMostOnceExactly(opening: map<int, int>, moves: seq<Move>, m: Move)
    requires Balances(opening)
    ensures var w := RunWorld(Start(opening), moves);
            SoldOnce(w) ==> (SoldOnce(NextWorld(w, m)) <==> !SellsTwice(w, m))
  {
    var w := RunWorld(Start(opening), moves);
    EveryRunOk(opening, moves);
    if SoldOnce(w) && Enabled(w, m) {
      OnceExactly(w, opening, m);
    }
  }

  lemma OnceExactly(w: World, opening: map<int, int>, m: Move)
    requires WorldOk(w, opening) && SoldOnce(w) && Enabled(w, m)
    ensures SoldOnce(Do(w, m)) <==> !SellsTwice(w, m)
  {
    if SellsTwice(w, m) {
      SellsTwiceSells(w, opening, m);
      SellingKeepsOrders(w, m);
    } else {
      forall o, v | o in Do(w, m).orders
        ensures SoldUnits(Do(w, m).ledger.book, o, v) <= Units(Do(w, m).orders[o].items, v)
      {
        MoveSellsOnce(w, opening, m, o, v);
      }
    }
  }

  /** In every state of every run, a line is unsold, sold whole, or sold whole twice. */
  lemma SoldWhole(opening: map<int, int>, moves: seq<Move>, o: OrderId, v: int)
    requires Balances(opening)
    ensures var w := RunWorld(Start(opening), moves);
            o in w.orders ==>
              var ordered := Units(w.orders[o].items, v);
              SoldUnits(w.ledger.book, o, v) in {0, ordered, 2 * ordered}
  {
    EveryRunOk(opening, moves);
    if o in RunWorld(Start(opening), moves).orders {
      SoldParts(RunWorld(Start(opening), moves), opening, o, v);
    }
  }

  /** However often an order's fulfilment is attempted, crashed and replayed, with its replays heard no line is sold twice. */
  lemma AtMostOnceSale(opening: map<int, int>, w: World, o: OrderId, v: int)
    requires Reachable(opening, w) && o in w.orders
    ensures 0 <= SoldUnits(w.ledger.book, o, v) <= Units(w.orders[o].items, v)
  {
    ReachableOk(opening, w);
    SoldAtMostOnce(w, opening, o, v);
  }

  // ------------------------------------------------------------ completeness

  /** What a finished attempt has sold of line `k`: enough, exactly when its own group or a replacement still standing sold it. */
  ghost predicate FilledExactly(w: World, o: OrderId, k: nat)
    requires o in w.orders && k < |w.orders[o].items|
  {
    var x, b := w.orders[o].items[k], w.ledger.book;
    && Units(w.orders[o].items, x.variant) == x.qty
    && (SoldUnits(b, o, x.variant) >= x.qty <==>
          CommittedIn(b, Own(w.orders[o]), x.variant) == x.qty || !LostRow(b, Shortfall(o, x.variant)))
  }

  /** In every run, when an attempt finishes. */
  lemma FulfilmentExact(opening: map<int, int>, moves: seq<Move>, o: OrderId, k: nat)
    requires Balances(opening)
    ensures var w := RunWorld(Start(opening), moves);
            Enabled(w, Finish(o)) ==>
              Do(w, Finish(o)).ledger == w.ledger && (k < |w.orders[o].items| ==> FilledExactly(w, o, k))
  {
    EveryRunOk(opening, moves);
    var w := RunWorld(Start(opening), moves);
    if Enabled(w, Finish(o)) && k < |w.orders[o].items| {
      InFlightFacts(w, opening, o);
      CoveredSold(w, opening, o, k);
    }
  }

  /** In a heard run it sold the line once, exactly when no replacement of it was released or expired. */
  lemma FulfilmentOnce(opening: map<int, int>, w: World, o: OrderId, k: nat)
    requires Reachable(opening, w) && Enabled(w, Finish(o)) && k < |w.orders[o].items|
    ensures var x := w.orders[o].items[k];
            SoldUnits(w.ledger.book, o, x.variant) == x.qty <==> !LostRow(w.ledger.book, Shortfall(o, x.variant))
  {
    var x := w.orders[o].items[k];
    ReachableOk(opening, w);
    InFlightFacts(w, opening, o);
    CoveredSold(w, opening, o, k);
    SoldAtMostOnce(w, opening, o, x.variant);
    if ReserveKey(Shortfall(o, x.variant)) !in w.ledger.keys {
      UnclaimedSoldNothing(w.ledger, opening, Shortfall(o, x.variant), x.variant);
    }
  }

  // ------------------------------------------------------------ refunds

  /** Two recorded payloads with one fingerprint ask for the same units. */
  lemma SameRefund(a: seq<Line>, b: seq<Line>, v: int)
    requires SortLines(SortLines(a)) == SortLines(SortLines(b))
    ensures Units(a, v) == Units(b, v)
  {
    SortKeeps(a, v);
    SortKeeps(SortLines(a), v);
    SortKeeps(b, v);
    SortKeeps(SortLines(b), v);
  }

  /** What a delivered refund keeps true. */
  lemma RefundStands(w: World, opening: map<int, int>, k: nat, later: World, v: int)
    requires WorldOk(w, opening) && Enabled(w, DeliverRefund(k)) && WorldOk(later, opening)
    requires Later(Do(w, DeliverRefund(k)).ledger, later.ledger)
    ensures var p := w.outbox[k].payload;
            && Attempt(w.ledger, Restore(p.order, p.lines)).Ok?
            && ReturnedUnits(later.ledger.book, p.order, v) == Min(Units(p.lines, v), SoldUnits(later.ledger.book, p.order, v))
            && p.order in later.orders && Units(p.lines, v) == Units(later.orders[p.order].items, v)
  {
    var o, mid := w.outbox[k].payload.order, Do(w, DeliverRefund(k));
    assert MessageOk(w.orders, w.outbox[k]);
    RestoreKeeps(w, opening, o);
    assert mid.ledger.keys[RefundKey(o)] == SortLines(SortLines(w.orders[o].items));
    SameRefund(w.orders[o].items, later.orders[o].items, v);
  }

  /**
   * In every run, a delivered refund succeeds, and from then on what the order got back
   * is what it was sold, up to what it ordered. So it is neutral exactly when it was not oversold.
   */
  lemma RefundExact(opening: map<int, int>, before: seq<Move>, k: nat, after: seq<Move>, v: int)
    requires Balances(opening)
    ensures var w := RunWorld(Start(opening), before);
            Enabled(w, DeliverRefund(k)) ==>
              var p, later := w.outbox[k].payload, RunWorld(Do(w, DeliverRefund(k)), after).ledger.book;
              && Attempt(w.ledger, Restore(p.order, p.lines)).Ok?
              && ReturnedUnits(later, p.order, v) == Min(Units(p.lines, v), SoldUnits(later, p.order, v))
              && (ReturnedUnits(later, p.order, v) == SoldUnits(later, p.order, v) <==> SoldUnits(later, p.order, v) <= Units(p.lines, v))
  {
    var w := RunWorld(Start(opening), before);
    EveryRunOk(opening, before);
    if Enabled(w, DeliverRefund(k)) {
      DeliverRefundKeeps(w, opening, k);
      RunKeepsWorld(Do(w, DeliverRefund(k)), opening, after);
      RefundStands(w, opening, k, RunWorld(Do(w, DeliverRefund(k)), after), v);
    }
  }

  /**
   * In heard runs a delivered refund makes the order neutral: whatever happens
   * afterwards, every variant's returned units equal its sold units.
   */
  lemma RefundNeutrality(opening: map<int, int>, w: World, k: nat, later: World, n: nat, v: int)
    requires Reachable(opening, w) && Enabled(w, DeliverRefund(k)) && HeardRun(NextWorld(w, DeliverRefund(k)), later, n)
    ensures Attempt(w.ledger, Restore(w.outbox[k].payload.order, w.outbox[k].payload.lines)).Ok?
    ensures var o := w.outbox[k].payload.order;
            SoldUnits(later.ledger.book, o, v) == ReturnedUnits(later.ledger.book, o, v)
  {
    ReachableOk(opening, w);
    MoveKeeps(w, opening, DeliverRefund(k));
    MoveKeepsHeard(w, opening, DeliverRefund(k));
    HeardRunKeeps(opening, NextWorld(w, DeliverRefund(k)), later, n);
    RefundStands(w, opening, k, later, v);
    SoldAtMostOnce(later, opening, w.outbox[k].payload.order, v);
  }

  // ------------------------------------------------------------ sale implies paid, exactly

  ghost predicate SaleImpliesPaid(w: World) {
    forall o, v :: SoldUnits(w.ledger.book, o, v) > 0 ==> o in w.orders && PaidLike(w.orders[o].status)
  }

  /** The reconciliation sweep is about to commit a group that still holds stock. */
  ghost predicate SellsUnpaid(w: World, m: Move) {
    && m.ReconcileCommit? && Enabled(w, m)
    && !Settled(w.ledger.book, w.orders[m.order].receipts[m.receipt].checkout)
  }

  /** Committing a group with an active row sells something. */
  lemma ActiveRowIsSold(l: Ledger, opening: map<int, int>, c: CheckoutId, o: OrderId) returns (v: int)
    requires LedgerOk(l, opening) && CommitHolds(l, c, Some(o)).Ok? && !Settled(l.book, c)
    ensures SoldUnits(CommitHolds(l, c, Some(o)).value.0.book, o, v) > 0
  {
    var i :| 0 <= i < |l.book.holds| && l.book.holds[i].checkout == c && l.book.holds[i].status == Active;
    CommitShape(l, c, Some(o));
    CommitKeeps(l, opening, c, Some(o));
    var b := CommitHolds(l, c, Some(o)).value.0.book;
    v := b.holds[i].variant;
    assert b.holds[i] == Sold(l.book.holds[i], c, Some(o));
    SoldRow(b, opening, i, o);
  }

  lemma SoldRow(b: Book, opening: map<int, int>, i: nat, o: OrderId)
    requires BookOk(b, opening) && i < |b.holds| && b.holds[i].status == Committed && b.holds[i].order == Some(o)
    ensures SoldUnits(b, o, b.holds[i].variant) > 0
  {
    var v := b.holds[i].variant;
    forall k | 0 <= k < |b.holds| ensures CommittedFor(Some(o), v)(b.holds[k]) >= 0 {
      assert HoldOk(b, b.holds[k]);
    }
    assert HoldOk(b, b.holds[i]);
    TotalAtLeast(b.holds, i, CommittedFor(Some(o), v));
    assert Total(b.holds, CommittedFor(Some(o), v)) == Total(b.moves, SoldFor(Some(o), v));
  }

  lemma ReconcileExactly(w: World, opening: map<int, int>, m: Move)
    requires WorldOk(w, opening) && SaleImpliesPaid(w) && m.ReconcileCommit? && Enabled(w, m)
    ensures SaleImpliesPaid(Do(w, m)) <==> Settled(w.ledger.book, w.orders[m.order].receipts[m.receipt].checkout)
  {
    var c := CommitGroup(w, m);
    SellingGroup(w, opening, m);
    SellingLedger(w, m);
    SellingKeepsOrders(w, m);
    CommitFrame(w, opening, c, m.order);
    if !Settled(w.ledger.book, c) {
      var v := ActiveRowIsSold(w.ledger, opening, c, m.order);
      assert SoldUnits(Do(w, m).ledger.book, m.order, v) > 0;
    }
  }

  lemma NewSaleIsPaid(w: World, opening: map<int, int>, m: Move, o: OrderId, v: int)
    requires WorldOk(w, opening) && SaleImpliesPaid(w) && Enabled(w, m) && !m.ReconcileCommit?
    requires SoldUnits(Do(w, m).ledger.book, o, v) > 0
    ensures o in w.orders && PaidLike(w.orders[o].status)
  {
    if Selling(m) {
      SellingGroup(w, opening, m);
      SellingSells(w, opening, m);
    } else {
      OtherMovesSellNothing(w, opening, m, o, v);
    }
  }

  lemma OthersKeepPaid(w: World, opening: map<int, int>, m: Move)
    requires WorldOk(w, opening) && SaleImpliesPaid(w) && Enabled(w, m) && !m.ReconcileCommit?
    ensures SaleImpliesPaid(Do(w, m))
  {
    var w' := Do(w, m);
    forall o, v | SoldUnits(w'.ledger.book, o, v) > 0 ensures o in w'.orders && PaidLike(w'.orders[o].status) {
      NewSaleIsPaid(w, opening, m, o, v);
      OrderFollows(w, m, o);
    }
  }

  /**
   * In every run: "every sale belongs to a paid order" survives a move exactly when that
   * move is not a reconciliation of a group that still has an active hold.
   */
  lemma SaleImpliesPaidExactly(opening: map<int, int>, moves: seq<Move>, m: Move)
    requires Balances(opening)
    ensures var w := RunWorld(Start(opening), moves);
            SaleImpliesPaid(w) ==> (SaleImpliesPaid(NextWorld(w, m)) <==> !SellsUnpaid(w, m))
  {
    EveryRunOk(opening, moves);
    if SaleImpliesPaid(RunWorld(Start(opening), moves)) {
      PaidExactly(RunWorld(Start(opening), moves), opening, m);
    }
  }

  lemma PaidExactly(w: World, opening: map<int, int>, m: Move)
    requires WorldOk(w, opening) && SaleImpliesPaid(w)
    ensures SaleImpliesPaid(NextWorld(w, m)) <==> !SellsUnpaid(w, m)
  {
    if Enabled(w, m) {
      if m.ReconcileCommit? {
        ReconcileExactly(w, opening, m);
      } else {
        OthersKeepPaid(w, opening, m);
      }
    }
  }
}
