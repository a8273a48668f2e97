/**
 * A redelivered attempt whose commit reply is lost for a receipt Orders already recorded
 * as consumed (apps/payments/holds.py:83-137): it forgets what its group sold and sets
 * out to replace every line.
 */
module DeafReplays {
  import opened Wrappers
  import opened Lines
  import opened Books
  import opened Ledgers
  import opened LedgerEffects
  import opened Saga
  import opened SagaInvariant
  import opened SagaRuns
  import opened SagaTheorems

  /** An attempt at a receipt Orders already recorded as consumed. */
  predicate AtConsumed(w: World, o: OrderId) {
    && o in w.jobs && o in w.orders && w.jobs[o].pos == 0
    && |w.jobs[o].receipts| == 1 && w.jobs[o].receipts[0].state == Consumed
  }

  /** The commit goes unanswered, then the first `n` lines are replaced. */
  function DeafReplay(o: OrderId, e: int, n: nat): seq<Move> {
    if n == 0 then [CommitReceipt(o, NeverSent)]
    else DeafReplay(o, e, n - 1) + [ReserveReplacement(o, e), CommitReplacement(o)]
  }

  /** A replacement of the line is already claimed, or the shelf can supply it. */
  predicate Obtainable(l: Ledger, o: OrderId, x: Line) {
    || ReserveKey(Shortfall(o, x.variant)) in l.keys
    || (x.variant in l.book.stock && x.qty <= l.book.stock[x.variant].Available())
  }

  predicate AllObtainable(l: Ledger, o: OrderId, lines: seq<Line>, n: nat)
    requires n <= |lines|
  {
    forall i :: 0 <= i < n ==> Obtainable(l, o, lines[i])
  }

  // ------------------------------------------------------------ one line's replacement

  /** Neither the order's replacement of `v` nor what is available of it has changed. */
  ghost predicate Untouched(l: Ledger, l': Ledger, o: OrderId, v: int) {
    && (ReserveKey(Shortfall(o, v)) in l'.keys <==> ReserveKey(Shortfall(o, v)) in l.keys)
    && CommittedIn(l'.book, Shortfall(o, v), v) == CommittedIn(l.book, Shortfall(o, v), v)
    && (LostRow(l'.book, Shortfall(o, v)) <==> LostRow(l.book, Shortfall(o, v)))
    && (v in l'.book.stock <==> v in l.book.stock)
    && (v in l.book.stock ==> l'.book.stock[v].Available() == l.book.stock[v].Available())
  }

  lemma OtherUnits(x: Line, v: int)
    ensures Units([x], v) == if v == x.variant then x.qty else 0
  {
    Totals.TotalSnoc([], x, UnitsOf(v));
    assert [] + [x] == [x];
  }

  lemma ReserveUntouched(l: Ledger, opening: map<int, int>, o: OrderId, x: Line, e: int, v: int)
    requires LedgerOk(l, opening) && v != x.variant
    ensures Untouched(l, Next(l, Reserve(Shortfall(o, x.variant), [x], e)), o, v)
  {
    var d, s := Shortfall(o, x.variant), Reserve(Shortfall(o, x.variant), [x], e);
    StepLosesNothing(l, opening, s, Shortfall(o, v));
    if ReserveKey(d) !in l.keys && ReserveLines(l, d, [x], e).Ok? {
      ReserveFacts(l, opening, d, [x], e);
      ReserveClaims(l, opening, d, [x], e);
      SortSingle(x);
      OtherAvailable(l.book, Next(l, s).book, x, v);
    }
  }

  lemma OtherAvailable(b: Book, after: Book, x: Line, v: int)
    requires ReservedMore(b, [x], after) && v != x.variant
    ensures (v in after.stock <==> v in b.stock) && (v in b.stock ==> after.stock[v].Available() == b.stock[v].Available())
  {
    OtherUnits(x, v);
  }

  lemma CommitUntouched(l: Ledger, opening: map<int, int>, o: OrderId, u: int, v: int)
    requires LedgerOk(l, opening) && v != u
    ensures Untouched(l, Next(l, Commit(Shortfall(o, u), Some(o))), o, v)
  {
    StepLosesNothing(l, opening, Commit(Shortfall(o, u), Some(o)), Shortfall(o, v));
    CommitAvailable(l, Shortfall(o, u), Some(o), v);
    if CommitHolds(l, Shortfall(o, u), Some(o)).Ok? {
      CommitSells(l, opening, Shortfall(o, u), o);
    }
  }

  /** One line's replacement, reserved and sold, leaves every other line's alone. */
  lemma ReplaceUntouched(l: Ledger, opening: map<int, int>, o: OrderId, x: Line, e: int, v: int)
    requires LedgerOk(l, opening) && v != x.variant
    ensures var l1 := Next(l, Reserve(Shortfall(o, x.variant), [x], e));
            Untouched(l, Next(l1, Commit(Shortfall(o, x.variant), Some(o))), o, v)
  {
    var l1 := Next(l, Reserve(Shortfall(o, x.variant), [x], e));
    StepKeeps(l, opening, Reserve(Shortfall(o, x.variant), [x], e));
    ReserveUntouched(l, opening, o, x, e, v);
    CommitUntouched(l1, opening, o, x.variant, v);
  }

  lemma SingleFits(b: Book, x: Line)
    requires x.variant in b.stock && x.qty >= 1 && forall u :: u in b.stock ==> b.stock[u].Available() >= 0
    ensures Fits(b, [x]) <==> x.qty <= b.stock[x.variant].Available()
  {
    forall u ensures Units([x], u) == if u == x.variant then x.qty else 0 {
      OtherUnits(x, u);
    }
  }

  /** A whole line's replacement is granted exactly when it is obtainable. */
  lemma GrantedExactly(l: Ledger, opening: map<int, int>, orders: Orders, o: OrderId, x: Line, e: int)
    requires LedgerOk(l, opening) && ReplacementsOk(l, orders) && o in orders
    requires x.variant in l.book.stock && x.qty >= 1 && Units(orders[o].items, x.variant) == x.qty
    ensures ReserveLines(l, Shortfall(o, x.variant), [x], e).Ok? <==> Obtainable(l, o, x)
  {
    SortSingle(x);
    if ReserveKey(Shortfall(o, x.variant)) in l.keys {
      assert ReplacementOk(l, orders, o, x.variant);
    } else {
      NeverOverReserved(l.book, opening);
      SingleFits(l.book, x);
      ReservationExact(l, opening, Shortfall(o, x.variant), [x], e);
    }
  }

  // ------------------------------------------------------------ the attempt, line by line

  /** The attempt has lost count: nothing is counted for any line from `n` on. */
  ghost predicate LostCount(w: World, o: OrderId, n: nat) {
    && o in w.jobs && o in w.orders && Sure(w.jobs[o]) && w.jobs[o].item == n && !w.jobs[o].covering
    && forall k :: n <= k < |w.orders[o].items| ==> Get(w.jobs[o].committed, w.orders[o].items[k].variant) == 0
  }

  /** The line's replacement is claimed and settled; its row was lost only if it was before. */
  ghost predicate Replaced(l0: Ledger, l: Ledger, o: OrderId, v: int) {
    && ReserveKey(Shortfall(o, v)) in l.keys && Settled(l.book, Shortfall(o, v))
    && (LostRow(l.book, Shortfall(o, v)) <==> LostRow(l0.book, Shortfall(o, v)))
  }

  /** From line `n` on, nothing has happened yet. */
  ghost predicate Ahead(l0: Ledger, l: Ledger, o: OrderId, items: seq<Line>, n: nat) {
    forall k :: n <= k < |items| ==> Untouched(l0, l, o, items[k].variant)
  }

  /** A line the replay got to has its replacement; any other line's replacement has sold what it had. */
  ghost predicate LineAt(l0: Ledger, l: Ledger, o: OrderId, items: seq<Line>, n: nat, k: nat)
    requires k < |items|
  {
    if k < n && AllObtainable(l0, o, items, k + 1) then Replaced(l0, l, o, items[k].variant)
    else CommittedIn(l.book, Shortfall(o, items[k].variant), items[k].variant)
         == CommittedIn(l0.book, Shortfall(o, items[k].variant), items[k].variant)
  }

  ghost predicate Behind(l0: Ledger, l: Ledger, o: OrderId, items: seq<Line>, n: nat) {
    forall k :: 0 <= k < |items| ==> LineAt(l0, l, o, items, n, k)
  }

  /** Where the replay is after `n` lines, seen from the state it began in. */
  ghost predicate DeafAt(w0: World, w: World, o: OrderId, n: nat)
    requires o in w0.orders && n <= |w0.orders[o].items|
  {
    var items := w0.orders[o].items;
    && w.orders == w0.orders && Later(w0.ledger, w.ledger)
    && (if AllObtainable(w0.ledger, o, items, n) then LostCount(w, o, n) && Ahead(w0.ledger, w.ledger, o, items, n)
        else o !in w.jobs)
    && Behind(w0.ledger, w.ledger, o, items, n)
  }

  lemma DeafBegins(w: World, opening: map<int, int>, o: OrderId)
    requires WorldOk(w, opening) && AtConsumed(w, o)
    ensures DeafAt(w, NextWorld(w, CommitReceipt(o, NeverSent)), o, 0)
  {
    InFlightFacts(w, opening, o);
    BeforeReceipt(w.ledger, o, w.orders[o], w.jobs[o]);
    DeafDone(w, o, NeverSent);
    UnheardOk(w.ledger, w.ledger, o, w.orders[o], w.jobs[o]);
    SameLater(w.ledger);
  }

  /** An attempt that has ended does nothing more. */
  lemma EndedStays(w: World, o: OrderId, e: int)
    requires o !in w.jobs
    ensures NextWorld(NextWorld(w, ReserveReplacement(o, e)), CommitReplacement(o)) == w
  {}

  /** A line that cannot be had ends the attempt. */
  lemma LineRefused(w: World, opening: map<int, int>, o: OrderId, e: int, n: nat)
    requires WorldOk(w, opening) && LostCount(w, o, n) && n < |w.orders[o].items|
    requires !Obtainable(w.ledger, o, w.orders[o].items[n])
    ensures NextWorld(NextWorld(w, ReserveReplacement(o, e)), CommitReplacement(o)) == w.(jobs := Without(w.jobs, o))
  {
    LineAsked(w, opening, o, e, n);
    ReserveDone(w, o, e);
    EndedStays(w.(jobs := Without(w.jobs, o)), o, e);
  }

  /** At line `n` the attempt asks for the whole line, and gets it exactly when it is obtainable. */
  lemma LineAsked(w: World, opening: map<int, int>, o: OrderId, e: int, n: nat)
    requires WorldOk(w, opening) && LostCount(w, o, n) && n < |w.orders[o].items|
    ensures var x := w.orders[o].items[n];
            && Enabled(w, ReserveReplacement(o, e)) && Short(w.orders[o], w.jobs[o]) == x
            && (ReserveLines(w.ledger, Shortfall(o, x.variant), [x], e).Ok? <==> Obtainable(w.ledger, o, x))
  {
    var x := w.orders[o].items[n];
    InFlightFacts(w, opening, o);
    LineIsTotal(w.orders[o].items, n);
    GrantedExactly(w.ledger, opening, w.orders, o, x, e);
  }

  /** A line that can be had is reserved and sold, and the attempt goes on to the next. */
  lemma LineGranted(w: World, opening: map<int, int>, o: OrderId, e: int, n: nat)
    requires WorldOk(w, opening) && LostCount(w, o, n) && n < |w.orders[o].items|
    requires Obtainable(w.ledger, o, w.orders[o].items[n])
    ensures var x, w2 := w.orders[o].items[n], NextWorld(NextWorld(w, ReserveReplacement(o, e)), CommitReplacement(o));
            var l1 := Next(w.ledger, Reserve(Shortfall(o, x.variant), [x], e));
            && w2.orders == w.orders && LostCount(w2, o, n + 1)
            && w2.ledger == Next(l1, Commit(Shortfall(o, x.variant), Some(o)))
            && ReserveKey(Shortfall(o, x.variant)) in w2.ledger.keys && Settled(w2.ledger.book, Shortfall(o, x.variant))
  {
    var x := w.orders[o].items[n];
    LineAsked(w, opening, o, e, n);
    ReserveDone(w, o, e);
    MoveKeeps(w, opening, ReserveReplacement(o, e));
    LineSold(w, NextWorld(w, ReserveReplacement(o, e)), opening, o, n);
  }

  lemma LineSold(w: World, w1: World, opening: map<int, int>, o: OrderId, n: nat)
    requires LostCount(w, o, n) && n < |w.orders[o].items| && WorldOk(w1, opening)
    requires w1 == SetJob(w.(ledger := w1.ledger), o, w.jobs[o].(covering := true))
    requires ShortfallOf(w.orders[o], w.jobs[o]) == w.orders[o].items[n].qty
    ensures var d, w2 := Shortfall(o, w.orders[o].items[n].variant), NextWorld(w1, CommitReplacement(o));
            && w2.orders == w.orders && LostCount(w2, o, n + 1) && w2.ledger == Next(w1.ledger, Commit(d, Some(o)))
            && ReserveKey(d) in w2.ledger.keys && Settled(w2.ledger.book, d)
  {
    var d := Shortfall(o, w.orders[o].items[n].variant);
    InFlightFacts(w1, opening, o);
    assert Enabled(w1, CommitReplacement(o));
    CommitReplacementDone(w1, o);
    CommitFrame(w1, opening, d, o);
    forall k | n < k < |w.orders[o].items|
      ensures Get(ItemDone(w1.orders[o], w1.jobs[o]).committed, w.orders[o].items[k].variant) == 0
    {
      ItemDoneGets(w1.orders[o], w1.jobs[o], k);
    }
  }

  lemma OtherVariant(lines: seq<Line>, n: nat, k: nat)
    requires OncePerVariant(lines) && n < |lines| && k < |lines| && n != k
    ensures lines[n].variant != lines[k].variant
  {
    if lines[n].variant == lines[k].variant {
      TwiceAsked(lines, if n < k then n else k, if n < k then k else n);
    }
  }

  lemma LineOneMore(l0: Ledger, l: Ledger, l2: Ledger, o: OrderId, items: seq<Line>, n: nat, k: nat)
    requires n < |items| && k < |items| && Later(l, l2) && LineAt(l0, l, o, items, n, k)
    requires k >= n ==> Untouched(l0, l, o, items[k].variant)
    requires if k == n then Replaced(l, l2, o, items[k].variant) else Untouched(l, l2, o, items[k].variant)
    requires AllObtainable(l0, o, items, n + 1)
    ensures LineAt(l0, l2, o, items, n + 1, k)
  {
    if k < n {
      assert AllObtainable(l0, o, items, k + 1);
      Frozen(l, l2, Shortfall(o, items[k].variant));
    }
  }

  /** One more line replaced. */
  lemma BehindOneMore(l0: Ledger, l: Ledger, l2: Ledger, o: OrderId, items: seq<Line>, n: nat)
    requires n < |items| && Ahead(l0, l, o, items, n) && Behind(l0, l, o, items, n) && Later(l, l2)
    requires forall k :: 0 <= k < |items| && k != n ==> Untouched(l, l2, o, items[k].variant)
    requires Replaced(l, l2, o, items[n].variant) && AllObtainable(l0, o, items, n + 1)
    ensures Ahead(l0, l2, o, items, n + 1) && Behind(l0, l2, o, items, n + 1)
  {
    var n' := n + 1;
    forall k | 0 <= k < |items| ensures LineAt(l0, l2, o, items, n', k) {
      LineOneMore(l0, l, l2, o, items, n, k);
    }
  }

  /** A line that could not be had changes nothing behind it. */
  lemma BehindStopped(l0: Ledger, l: Ledger, o: OrderId, items: seq<Line>, n: nat)
    requires n < |items| && Behind(l0, l, o, items, n) && !AllObtainable(l0, o, items, n + 1)
    ensures Behind(l0, l, o, items, n + 1)
  {
    var n' := n + 1;
    forall k | 0 <= k < |items| ensures LineAt(l0, l, o, items, n', k) {
      assert LineAt(l0, l, o, items, n, k);
    }
  }

  /** Where one more line leads: granted. */
  lemma DeafGranted(w0: World, w: World, w2: World, opening: map<int, int>, o: OrderId, e: int, n: nat)
    requires WorldOk(w, opening) && o in w0.orders && n < |w0.orders[o].items| && DeafAt(w0, w, o, n)
    requires AllObtainable(w0.ledger, o, w0.orders[o].items, n + 1)
    requires w2 == NextWorld(NextWorld(w, ReserveReplacement(o, e)), CommitReplacement(o))
    ensures DeafAt(w0, w2, o, n + 1)
  {
    var items := w0.orders[o].items;
    var x := items[n];
    assert AllObtainable(w0.ledger, o, items, n) && Obtainable(w0.ledger, o, x);
    assert Untouched(w0.ledger, w.ledger, o, x.variant);
    LineGranted(w, opening, o, e, n);
    GrantedLater(w, w2, opening, o, x, e);
    LaterTransitive(w0.ledger, w.ledger, w2.ledger);
    assert OrderOk(w.ledger, w.orders[o]);
    OthersUntouched(w.ledger, w2.ledger, opening, o, items, n, e);
    BehindOneMore(w0.ledger, w.ledger, w2.ledger, o, items, n);
  }

  /** Replacing line `n` leaves every other line's replacement alone. */
  lemma OthersUntouched(l: Ledger, l': Ledger, opening: map<int, int>, o: OrderId, items: seq<Line>, n: nat, e: int)
    requires LedgerOk(l, opening) && OncePerVariant(items) && n < |items|
    requires var d := Shortfall(o, items[n].variant); l' == Next(Next(l, Reserve(d, [items[n]], e)), Commit(d, Some(o)))
    ensures forall k :: 0 <= k < |items| && k != n ==> Untouched(l, l', o, items[k].variant)
  {
    forall k | 0 <= k < |items| && k != n ensures Untouched(l, l', o, items[k].variant) {
      OtherVariant(items, n, k);
      ReplaceUntouched(l, opening, o, items[n], e, items[k].variant);
    }
  }

  /** Reserving and selling a replacement loses no row of it. */
  lemma GrantedLater(w: World, w2: World, opening: map<int, int>, o: OrderId, x: Line, e: int)
    requires LedgerOk(w.ledger, opening)
    requires w2.ledger == Next(Next(w.ledger, Reserve(Shortfall(o, x.variant), [x], e)), Commit(Shortfall(o, x.variant), Some(o)))
    ensures Later(w.ledger, w2.ledger)
    ensures LostRow(w2.ledger.book, Shortfall(o, x.variant)) <==> LostRow(w.ledger.book, Shortfall(o, x.variant))
  {
    var d := Shortfall(o, x.variant);
    var l1 := Next(w.ledger, Reserve(d, [x], e));
    StepKeeps(w.ledger, opening, Reserve(d, [x], e));
    StepKeeps(l1, opening, Commit(d, Some(o)));
    LaterTransitive(w.ledger, l1, w2.ledger);
    StepLosesNothing(w.ledger, opening, Reserve(d, [x], e), d);
    StepLosesNothing(l1, opening, Commit(d, Some(o)), d);
  }

  /** Where one more line leads: refused now, or the attempt had ended before. */
  lemma DeafStops(w0: World, w: World, w2: World, opening: map<int, int>, o: OrderId, e: int, n: nat)
    requires WorldOk(w, opening) && o in w0.orders && n < |w0.orders[o].items| && DeafAt(w0, w, o, n)
    requires !AllObtainable(w0.ledger, o, w0.orders[o].items, n + 1)
    requires w2 == NextWorld(NextWorld(w, ReserveReplacement(o, e)), CommitReplacement(o))
    ensures DeafAt(w0, w2, o, n + 1)
  {
    var items := w0.orders[o].items;
    BehindStopped(w0.ledger, w.ledger, o, items, n);
    if AllObtainable(w0.ledger, o, items, n) {
      assert !Obtainable(w0.ledger, o, items[n]) && Untouched(w0.ledger, w.ledger, o, items[n].variant);
      LineRefused(w, opening, o, e, n);
    } else {
      EndedStays(w, o, e);
    }
  }

  /** `u` is where replacing one more line leads. */
  predicate Replaces(v: World, u: World, o: OrderId, e: int) {
    u == NextWorld(NextWorld(v, ReserveReplacement(o, e)), CommitReplacement(o))
  }

  /** The states a replay goes through: after its commit, and after each line. */
  ghost predicate Path(w: World, states: seq<World>, o: OrderId, e: int) {
    && states != [] && states[0] == NextWorld(w, CommitReceipt(o, NeverSent))
    && forall k :: 0 < k < |states| ==> Replaces(states[k - 1], states[k], o, e)
  }

  lemma TwoMore(before: seq<Move>, a: Move, b: Move)
    ensures before + [a] + [b] == before + [a, b]
  {}

  lemma RunTwoMore(w: World, before: seq<Move>, a: Move, b: Move)
    ensures RunWorld(w, before + [a, b]) == NextWorld(NextWorld(RunWorld(w, before), a), b)
  {
    var u := RunWorld(w, before);
    var v := NextWorld(u, a);
    ComposeOne(w, before, a, u, v);
    ComposeOne(w, before + [a], b, v, NextWorld(v, b));
    TwoMore(before, a, b);
  }

  lemma DeafReplayStart(w: World, o: OrderId, e: int)
    ensures RunWorld(w, DeafReplay(o, e, 0)) == NextWorld(w, CommitReceipt(o, NeverSent))
  {
    RunWorldSnoc(w, [], CommitReceipt(o, NeverSent));
    assert [] + [CommitReceipt(o, NeverSent)] == DeafReplay(o, e, 0);
  }

  lemma PathOn(w: World, states: seq<World>, u: World, o: OrderId, e: int)
    requires Path(w, states, o, e) && Replaces(states[|states| - 1], u, o, e)
    ensures Path(w, states + [u], o, e)
  {}

  /** Running the replay's moves goes along a path. */
  lemma {:induction false} ReplayRuns(w: World, o: OrderId, e: int, n: nat) returns (states: seq<World>)
    ensures Path(w, states, o, e) && |states| == n + 1 && states[n] == RunWorld(w, DeafReplay(o, e, n))
  {
    if n == 0 {
      DeafReplayStart(w, o, e);
      states := [RunWorld(w, DeafReplay(o, e, 0))];
    } else {
      states := ReplayRuns(w, o, e, n - 1);
      RunTwoMore(w, DeafReplay(o, e, n - 1), ReserveReplacement(o, e), CommitReplacement(o));
      PathOn(w, states, RunWorld(w, DeafReplay(o, e, n)), o, e);
      states := states + [RunWorld(w, DeafReplay(o, e, n))];
    }
  }

  lemma ReplacesKeeps(v: World, u: World, opening: map<int, int>, o: OrderId, e: int)
    requires WorldOk(v, opening) && Replaces(v, u, o, e)
    ensures WorldOk(u, opening)
  {
    MoveKeeps(v, opening, ReserveReplacement(o, e));
    MoveKeeps(NextWorld(v, ReserveReplacement(o, e)), opening, CommitReplacement(o));
  }

  lemma {:induction false} PathOk(w: World, states: seq<World>, opening: map<int, int>, o: OrderId, e: int, n: nat)
    requires WorldOk(w, opening) && Path(w, states, o, e) && n < |states|
    ensures WorldOk(states[n], opening)
  {
    if n == 0 {
      MoveKeeps(w, opening, CommitReceipt(o, NeverSent));
    } else {
      PathOk(w, states, opening, o, e, n - 1);
      ReplacesKeeps(states[n - 1], states[n], opening, o, e);
    }
  }

  /** One more line, granted or not, keeps the replay where it should be. */
  lemma DeafNext(w0: World, w: World, w2: World, opening: map<int, int>, o: OrderId, e: int, n: nat, next: nat)
    requires WorldOk(w, opening) && o in w0.orders && next == n + 1 <= |w0.orders[o].items| && DeafAt(w0, w, o, n)
    requires Replaces(w, w2, o, e)
    ensures DeafAt(w0, w2, o, next)
  {
    if AllObtainable(w0.ledger, o, w0.orders[o].items, n + 1) {
      DeafGranted(w0, w, w2, opening, o, e, n);
    } else {
      DeafStops(w0, w, w2, opening, o, e, n);
    }
  }

  lemma {:induction false} DeafRun(w: World, states: seq<World>, opening: map<int, int>, o: OrderId, e: int, n: nat)
    requires WorldOk(w, opening) && AtConsumed(w, o) && n <= |w.orders[o].items| && Path(w, states, o, e) && n < |states|
    ensures DeafAt(w, states[n], o, n)
  {
    if n == 0 {
      DeafBegins(w, opening, o);
    } else {
      DeafRun(w, states, opening, o, e, n - 1);
      PathOk(w, states, opening, o, e, n - 1);
      DeafNext(w, states[n - 1], states[n], opening, o, e, n - 1, n);
    }
  }

  // ------------------------------------------------------------ what it sells

  /** A replacement that sold was not lost. */
  lemma SoldNotLost(l: Ledger, opening: map<int, int>, orders: Orders, o: OrderId, v: int)
    requires LedgerOk(l, opening) && ReplacementsOk(l, orders) && CommittedIn(l.book, Shortfall(o, v), v) > 0
    ensures ReserveKey(Shortfall(o, v)) in l.keys && !LostRow(l.book, Shortfall(o, v))
  {
    var d := Shortfall(o, v);
    if ReserveKey(d) !in l.keys {
      UnclaimedSoldNothing(l, opening, d, v);
    } else {
      assert ReplacementOk(l, orders, o, v) && GroupOk(l, d);
      var k := OnlyRow(l.book.holds, d, Line(v, Units(orders[o].items, v)));
      OnlyRowTotal(l.book.holds, d, k, v);
    }
  }

  /** Line `k` is doubly sold once the replay is past it, exactly under a condition on the state it begins in. */
  ghost predicate DoublySold(w: World, o: OrderId, k: nat)
    requires o in w.orders && k < |w.orders[o].items|
  {
    var items, l := w.orders[o].items, w.ledger;
    var v := items[k].variant;
    && CommittedIn(l.book, Own(w.orders[o]), v) == items[k].qty
    && (CommittedIn(l.book, Shortfall(o, v), v) > 0
        || (AllObtainable(l, o, items, k + 1) && !LostRow(l.book, Shortfall(o, v))))
  }

  /**
   * In every run: a deaf replay leaves any line `k` it reaches sold twice exactly when the
   * order's own group sold it, and a replacement had sold it before, or every line up to `k`
   * is already claimed or can be supplied and no replacement of `k` was lost.
   */
  lemma DeafReplaySellsAgain(opening: map<int, int>, moves: seq<Move>, o: OrderId, e: int, k: nat, n: nat)
    requires Balances(opening)
    ensures var w := RunWorld(Start(opening), moves);
            AtConsumed(w, o) && k < n <= |w.orders[o].items| ==>
              var x := w.orders[o].items[k];
              var sold := SoldUnits(RunWorld(w, DeafReplay(o, e, n)).ledger.book, o, x.variant);
              (sold > x.qty <==> DoublySold(w, o, k)) && (DoublySold(w, o, k) ==> sold == 2 * x.qty)
  {
    var w := RunWorld(Start(opening), moves);
    EveryRunOk(opening, moves);
    if AtConsumed(w, o) && k < n <= |w.orders[o].items| {
      ReplaySells(w, opening, o, e, k, n);
    }
  }

  /** What the order's own group and its replacement of line `k` have sold by then. */
  lemma LineParts(w: World, w2: World, opening: map<int, int>, o: OrderId, k: nat, n: nat)
    requires WorldOk(w, opening) && WorldOk(w2, opening) && AtConsumed(w, o) && k < n <= |w.orders[o].items|
    requires DeafAt(w, w2, o, n)
    ensures var x, d := w.orders[o].items[k], Shortfall(o, w.orders[o].items[k].variant);
            && CommittedIn(w2.ledger.book, Own(w.orders[o]), x.variant) == CommittedIn(w.ledger.book, Own(w.orders[o]), x.variant)
            && CommittedIn(w2.ledger.book, d, x.variant)
               == if AllObtainable(w.ledger, o, w.orders[o].items, k + 1)
                  then (if LostRow(w.ledger.book, d) then 0 else Units(w.orders[o].items, x.variant))
                  else CommittedIn(w.ledger.book, d, x.variant)
  {
    InFlightFacts(w, opening, o);
    Frozen(w.ledger, w2.ledger, Own(w.orders[o]));
    assert LineAt(w.ledger, w2.ledger, o, w.orders[o].items, n, k);
    if AllObtainable(w.ledger, o, w.orders[o].items, k + 1) {
      ReplacementSold(w2.ledger, opening, w2.orders, o, w.orders[o].items[k].variant);
    }
  }

  lemma ReplaySells(w: World, opening: map<int, int>, o: OrderId, e: int, k: nat, n: nat)
    requires WorldOk(w, opening) && AtConsumed(w, o) && k < n <= |w.orders[o].items|
    ensures var x, sold := w.orders[o].items[k],
                           SoldUnits(RunWorld(w, DeafReplay(o, e, n)).ledger.book, o, w.orders[o].items[k].variant);
            if DoublySold(w, o, k) then sold == 2 * x.qty > x.qty else sold <= x.qty
  {
    var states := ReplayRuns(w, o, e, n);
    DeafRun(w, states, opening, o, e, n);
    PathOk(w, states, opening, o, e, n);
    LineSells(w, states[n], opening, o, k, n);
  }

  lemma LineSells(w: World, w2: World, opening: map<int, int>, o: OrderId, k: nat, n: nat)
    requires WorldOk(w, opening) && WorldOk(w2, opening) && AtConsumed(w, o) && k < n <= |w.orders[o].items|
    requires DeafAt(w, w2, o, n)
    ensures var x, sold := w.orders[o].items[k], SoldUnits(w2.ledger.book, o, w.orders[o].items[k].variant);
            if DoublySold(w, o, k) then sold == 2 * x.qty > x.qty else sold <= x.qty
  {
    LineParts(w, w2, opening, o, k, n);
    SoldParts(w2, opening, o, w.orders[o].items[k].variant);
    SoldBy(w, opening, o, k, SoldUnits(w2.ledger.book, o, w.orders[o].items[k].variant));
  }

  /** The units sold, given what the two groups of the line come to. */
  lemma SoldBy(w: World, opening: map<int, int>, o: OrderId, k: nat, sold: int)
    requires WorldOk(w, opening) && o in w.orders && k < |w.orders[o].items|
    requires var v, d := w.orders[o].items[k].variant, Shortfall(o, w.orders[o].items[k].variant);
             sold == CommittedIn(w.ledger.book, Own(w.orders[o]), v)
                     + if AllObtainable(w.ledger, o, w.orders[o].items, k + 1)
                       then (if LostRow(w.ledger.book, d) then 0 else Units(w.orders[o].items, v))
                       else CommittedIn(w.ledger.book, d, v)
    ensures if DoublySold(w, o, k) then sold == 2 * w.orders[o].items[k].qty > w.orders[o].items[k].qty
            else sold <= w.orders[o].items[k].qty
  {
    var v := w.orders[o].items[k].variant;
    LineUnits(w, opening, o, k);
    SoldParts(w, opening, o, v);
    if CommittedIn(w.ledger.book, Shortfall(o, v), v) > 0 {
      SoldNotLost(w.ledger, opening, w.orders, o, v);
    }
  }

  lemma LineUnits(w: World, opening: map<int, int>, o: OrderId, k: nat)
    requires WorldOk(w, opening) && o in w.orders && k < |w.orders[o].items|
    ensures var x := w.orders[o].items[k]; Units(w.orders[o].items, x.variant) == x.qty >= 1
  {
    assert OrderOk(w.ledger, w.orders[o]);
    LineIsTotal(w.orders[o].items, k);
  }
}
