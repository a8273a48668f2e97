/** What one uninterrupted in-process attempt achieves, judged from the state it starts in. */
module Outcomes {
  import opened Wrappers
  import opened Books
  import opened Ledgers
  import opened Saga
  import opened LedgerEffects
  import opened SagaTheorems
  import opened Fulfilment

  /** An in-process attempt of a reachable state stays within what is reachable. */
  lemma AttemptReachable(opening: map<int, int>, w: World, trace: seq<Move>, o: OrderId)
    requires Reachable(opening, w) && AttemptTrace(trace, o, [])
    ensures Reachable(opening, RunWorld(w, trace))
  {
    AnsweredRunIsHeard(w, trace);
    ReachableOnward(opening, w, RunWorld(w, trace), |trace|);
  }

  lemma AttemptPrefix(trace: seq<Move>, o: OrderId, n: nat)
    requires AttemptTrace(trace, o, []) && n <= |trace|
    ensures AttemptTrace(trace[..n], o, [])
  {
    forall m | m in trace[..n] ensures Attempting(m, o) && Replies(m) {
      assert m in trace;
    }
  }

  /** An attempt's move is a reserve, a commit, or nothing to the ledger. */
  lemma AttemptStep(w: World, m: Move, o: OrderId) returns (s: Step)
    requires Enabled(w, m) && Attempting(m, o)
    ensures s.Reserve? || s.Commit?
    ensures Do(w, m).ledger == w.ledger || Do(w, m).ledger == Next(w.ledger, s)
  {
    s := Commit(Blank, None);
    match m
    case CommitReceipt(_, _) => s := Commit(w.jobs[o].receipts[w.jobs[o].pos].checkout, Some(o));
    case ReserveReplacement(_, e) =>
      s := Reserve(Shortfall(o, Wanting(w.orders[o], w.jobs[o]).variant), [Wanting(w.orders[o], w.jobs[o])], e);
    case CommitReplacement(_) => s := Commit(Shortfall(o, w.orders[o].items[w.jobs[o].item].variant), Some(o));
    case _ =>
  }

  lemma MoveLosesNothing(w: World, opening: map<int, int>, m: Move, o: OrderId, c: CheckoutId)
    requires LedgerOk(w.ledger, opening) && Attempting(m, o)
    ensures LostRow(NextWorld(w, m).ledger.book, c) <==> LostRow(w.ledger.book, c)
  {
    if Enabled(w, m) {
      var s := AttemptStep(w, m, o);
      StepLosesNothing(w.ledger, opening, s, c);
    }
  }

  lemma {:induction false} AttemptLosesNothing(w: World, opening: map<int, int>, trace: seq<Move>, o: OrderId, c: CheckoutId)
    requires LedgerOk(w.ledger, opening) && AttemptTrace(trace, o, [])
    ensures LostRow(RunWorld(w, trace).ledger.book, c) <==> LostRow(w.ledger.book, c)
  {
    if trace != [] {
      var n := |trace| - 1;
      AttemptPrefix(trace, o, n);
      AttemptLosesNothing(w, opening, trace[..n], o, c);
      RunLedgerOk(w, opening, trace[..n]);
      MoveLosesNothing(RunWorld(w, trace[..n]), opening, trace[n], o, c);
    }
  }

  lemma ItemsStay(w: World, m: Move, o: OrderId)
    requires o in w.orders && Attempting(m, o)
    ensures o in NextWorld(w, m).orders && NextWorld(w, m).orders[o].items == w.orders[o].items
  {}

  lemma {:induction false} AttemptKeepsItems(w: World, trace: seq<Move>, o: OrderId)
    requires o in w.orders && AttemptTrace(trace, o, [])
    ensures o in RunWorld(w, trace).orders && RunWorld(w, trace).orders[o].items == w.orders[o].items
  {
    if trace != [] {
      var n := |trace| - 1;
      AttemptPrefix(trace, o, n);
      AttemptKeepsItems(w, trace[..n], o);
      ItemsStay(RunWorld(w, trace[..n]), trace[n], o);
    }
  }

  /**
   * From a reachable state, an attempt that runs to its end sells each line in full
   * exactly when no replacement hold of it had been released or expired before the
   * attempt began.
   */
  lemma AttemptSells(opening: map<int, int>, w: World, trace: seq<Move>, o: OrderId, k: nat)
    requires Reachable(opening, w) && o in w.orders && k < |w.orders[o].items|
    requires AttemptTrace(trace, o, []) && Finished(w, trace, o)
    ensures var x := w.orders[o].items[k];
            SoldUnits(RunWorld(w, trace).ledger.book, o, x.variant) == x.qty
            <==> !LostRow(w.ledger.book, Shortfall(o, x.variant))
  {
    var n, x := |trace| - 1, w.orders[o].items[k];
    var w1 := RunWorld(w, trace[..n]);
    AttemptPrefix(trace, o, n);
    AttemptReachable(opening, w, trace[..n], o);
    AttemptKeepsItems(w, trace[..n], o);
    ReachableOk(opening, w);
    AttemptLosesNothing(w, opening, trace[..n], o, Shortfall(o, x.variant));
    assert w1.orders[o].items[k] == x;
    FulfilmentOnce(opening, w1, o, k);
  }
}
