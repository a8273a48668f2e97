/**
 * The lock programs of `RowLocks` cover the transactions they stand for: whatever existing row a
 * transaction of the ledger or of Orders changes, its program has taken that row's lock and
 * holds it to the end.
 */
module LockCoverage {
  import opened Wrappers
  import opened Lines
  import opened Books
  import opened Ledgers
  import opened LocalProvider
  import Saga
  import opened RowLocks

  // ------------------------------------------------------------ what a ledger program takes

  /** The lock is taken, and nothing is freed before the transaction's end. */
  predicate Locked(p: seq<Action>, x: Lock) {
    Take(x) in p && forall k :: 0 <= k < |p| - 1 ==> p[k].Take?
  }

  lemma TakesExactly(locks: seq<Lock>, x: Lock)
    ensures Locked(Takes(locks) + [Free(LEDGER)], x) <==> x in locks
  {
    var p := Takes(locks) + [Free(LEDGER)];
    if x in locks {
      var k :| 0 <= k < |locks| && locks[k] == x;
      assert p[k] == Take(x);
    }
  }

  /** A commit that sells row `pk` needs this lock for it. */
  predicate SellsAt(holds: seq<Hold>, pk: nat, x: Lock) {
    pk < |holds| && holds[pk].status == Active && (x == HoldRow(pk) || x == StockRow(holds[pk].variant))
  }

  lemma {:induction false} SellTakesExactly(holds: seq<Hold>, pks: seq<nat>, x: Lock)
    ensures Take(x) in SellTakes(holds, pks) <==> exists k :: 0 <= k < |pks| && SellsAt(holds, pks[k], x)
    ensures forall a :: a in SellTakes(holds, pks) ==> a.Take?
  {
    if pks != [] {
      var n := |pks| - 1;
      SellTakesExactly(holds, pks[..n], x);
      assert forall k :: 0 <= k < n ==> pks[..n][k] == pks[k];
      assert Take(x) in SellOneTakes(holds, pks[n]) <==> SellsAt(holds, pks[n], x);
    }
  }

  /** A row of the group. */
  predicate InGroupAt(l: Ledger, c: CheckoutId, pk: nat) { pk < |l.book.holds| && l.book.holds[pk].checkout == c }

  /** Some line asks for the variant whose stock row this is. */
  predicate StockOf(lines: seq<Line>, x: Lock) { exists k :: 0 <= k < |lines| && x == StockRow(lines[k].variant) }

  /** The locks of each ledger transaction, as a set. */
  ghost predicate Needs(l: Ledger, t: LedgerTx, x: Lock) {
    match t
    case Reserving(c, lines) => x == KeyRow(ReserveKey(c)) || StockOf(lines, x)
    case Replaying(c) => x == KeyRow(ReserveKey(c)) || (x.HoldRow? && InGroupAt(l, c, x.pk))
    case Committing(c) =>
      || (x.HoldRow? && InGroupAt(l, c, x.pk))
      || exists pk: nat :: InGroupAt(l, c, pk) && SellsAt(l.book.holds, pk, x)
    case Ending(pk) => pk < |l.book.holds| && x in {HoldRow(pk), StockRow(l.book.holds[pk].variant)}
    case Adjusting(v) => x == StockRow(v)
    case Restoring(o, lines) => x == KeyRow(RefundKey(o)) || StockOf(lines, x)
  }

  lemma SortedStock(lines: seq<Line>, x: Lock)
    ensures x in StockLocks(SortLines(lines)) <==> StockOf(lines, x)
  {
    SortMultiset(lines);
    var s := SortLines(lines);
    if x in StockLocks(s) {
      var k :| 0 <= k < |s| && StockLocks(s)[k] == x;
      assert s[k] in multiset(s);
      assert s[k] in lines;
      var j :| 0 <= j < |lines| && lines[j] == s[k];
    }
    if StockOf(lines, x) {
      var k :| 0 <= k < |lines| && x == StockRow(lines[k].variant);
      assert lines[k] in multiset(lines);
      assert lines[k] in s;
      var j :| 0 <= j < |s| && s[j] == lines[k];
      assert StockLocks(s)[j] == x;
    }
  }

  lemma GroupHolds(l: Ledger, c: CheckoutId, x: Lock)
    ensures x in HoldLocks(GroupPks(l.book.holds, c)) <==> x.HoldRow? && InGroupAt(l, c, x.pk)
  {
    var pks := GroupPks(l.book.holds, c);
    GroupPksExactly(l.book.holds, c);
    if x in HoldLocks(pks) {
      var k :| 0 <= k < |pks| && HoldLocks(pks)[k] == x;
      assert pks[k] in pks;
    }
    if x.HoldRow? && InGroupAt(l, c, x.pk) {
      var k :| 0 <= k < |pks| && pks[k] == x.pk;
      assert HoldLocks(pks)[k] == x;
    }
  }

  lemma PartsExactly(a: seq<Action>, b: seq<Action>, x: Lock)
    requires (forall n :: n in a ==> n.Take?) && (forall n :: n in b ==> n.Take?)
    ensures Locked(a + b + [Free(LEDGER)], x) <==> Take(x) in a || Take(x) in b
  {
    var p := a + b + [Free(LEDGER)];
    forall k | 0 <= k < |p| - 1 ensures p[k].Take? {
      assert p[k] in a || p[k] in b;
    }
  }

  lemma TakesOnly(locks: seq<Lock>, x: Lock)
    ensures Take(x) in Takes(locks) <==> x in locks
    ensures forall n :: n in Takes(locks) ==> n.Take?
  {
    if x in locks {
      var k :| 0 <= k < |locks| && locks[k] == x;
      assert Takes(locks)[k] == Take(x);
    }
  }

  /** The second half of a commit locks the active rows of the group, again, and their stock. */
  lemma SellingExactly(l: Ledger, c: CheckoutId, x: Lock)
    ensures Take(x) in SellTakes(l.book.holds, GroupPks(l.book.holds, c)) <==>
              exists pk: nat :: InGroupAt(l, c, pk) && SellsAt(l.book.holds, pk, x)
  {
    var holds, pks := l.book.holds, GroupPks(l.book.holds, c);
    GroupPksExactly(holds, c);
    SellTakesExactly(holds, pks, x);
    if Take(x) in SellTakes(holds, pks) {
      var k :| 0 <= k < |pks| && SellsAt(holds, pks[k], x);
      assert pks[k] in pks;
      assert InGroupAt(l, c, pks[k]);
    }
    if exists pk: nat :: InGroupAt(l, c, pk) && SellsAt(holds, pk, x) {
      var pk: nat :| InGroupAt(l, c, pk) && SellsAt(holds, pk, x);
      assert pk in pks;
      var k :| 0 <= k < |pks| && pks[k] == pk;
    }
  }

  lemma CommittingExactly(l: Ledger, c: CheckoutId, x: Lock)
    ensures Locked(LedgerProgram(l, Committing(c)), x) <==> Needs(l, Committing(c), x)
  {
    var holds, pks := l.book.holds, GroupPks(l.book.holds, c);
    GroupHolds(l, c, x);
    TakesOnly(HoldLocks(pks), x);
    SellTakesExactly(holds, pks, x);
    PartsExactly(Takes(HoldLocks(pks)), SellTakes(holds, pks), x);
    SellingExactly(l, c, x);
  }

  /** Every ledger program takes exactly these locks, and keeps them to its end. */
  lemma LocksExactly(l: Ledger, t: LedgerTx, x: Lock)
    ensures Locked(LedgerProgram(l, t), x) <==> Needs(l, t, x)
  {
    match t
    case Reserving(c, lines) =>
      SortedStock(lines, x);
      TakesExactly([KeyRow(ReserveKey(c))] + StockLocks(SortLines(lines)), x);
    case Replaying(c) =>
      GroupHolds(l, c, x);
      TakesExactly([KeyRow(ReserveKey(c))] + HoldLocks(GroupPks(l.book.holds, c)), x);
    case Committing(c) => CommittingExactly(l, c, x);
    case Ending(pk) =>
      if pk < |l.book.holds| {
        TakesExactly([HoldRow(pk), StockRow(l.book.holds[pk].variant)], x);
      }
    case Adjusting(v) => TakesExactly([StockRow(v)], x);
    case Restoring(o, lines) =>
      SortedStock(lines, x);
      TakesExactly([KeyRow(RefundKey(o))] + StockLocks(SortLines(lines)), x);
  }

  // ------------------------------------------------------------ what a ledger transaction changes

  /** The transaction that takes this step. */
  function StepTx(l: Ledger, s: Step): LedgerTx {
    match s
    case Reserve(c, lines, _) => if ReserveKey(c) in l.keys then Replaying(c) else Reserving(c, lines)
    case Commit(c, _) => Committing(c)
    case Release(pk) => Ending(pk)
    case Expire(pk, _) => Ending(pk)
    case Adjust(v, _, _, _) => Adjusting(v)
    case Restore(o, lines) => Restoring(o, lines)
  }

  /** Every existing row, counter or key that differs between the two has its lock among these. */
  ghost predicate Covers(l: Ledger, l': Ledger, p: seq<Action>) {
    && (forall pk :: 0 <= pk < |l.book.holds| && pk < |l'.book.holds| && l'.book.holds[pk] != l.book.holds[pk] ==> Locked(p, HoldRow(pk)))
    && (forall v :: v in l.book.stock && v in l'.book.stock && l'.book.stock[v] != l.book.stock[v] ==> Locked(p, StockRow(v)))
    && (forall k :: k in l'.keys && k !in l.keys ==> Locked(p, KeyRow(k)))
  }

  /** Units of a variant that nobody asks for. */
  lemma {:induction false} NotAsked(lines: seq<Line>, v: int)
    requires !StockOf(lines, StockRow(v))
    ensures Units(lines, v) == 0
  {
    if lines != [] {
      var n := |lines| - 1;
      assert StockRow(lines[n].variant) != StockRow(v);
      forall k | 0 <= k < n ensures StockRow(lines[..n][k].variant) != StockRow(v) {
        assert lines[..n][k] == lines[k];
      }
      NotAsked(lines[..n], v);
    }
  }

  lemma ReserveCovers(l: Ledger, opening: map<int, int>, c: CheckoutId, lines: seq<Line>, e: int)
    requires LedgerOk(l, opening)
    ensures Covers(l, Next(l, Reserve(c, lines, e)), LedgerProgram(l, StepTx(l, Reserve(c, lines, e))))
  {
    var l', p := Next(l, Reserve(c, lines, e)), LedgerProgram(l, StepTx(l, Reserve(c, lines, e)));
    if ReserveKey(c) !in l.keys && ReserveLines(l, c, lines, e).Ok? {
      ReserveFacts(l, opening, c, lines, e);
      ReservationEffect(l, opening, c, lines, e);
      forall v | v in l.book.stock && l'.book.stock[v] != l.book.stock[v] ensures Locked(p, StockRow(v)) {
        if !StockOf(lines, StockRow(v)) {
          NotAsked(lines, v);
        }
        LocksExactly(l, Reserving(c, lines), StockRow(v));
      }
      LocksExactly(l, Reserving(c, lines), KeyRow(ReserveKey(c)));
    }
  }

  /** The commit loop changes only counters of active rows of its group. */
  lemma {:induction false} CommitTouches(b: Book, c: CheckoutId, order: Option<OrderId>, n: nat, v: int)
    requires n <= |b.holds| && CommitUpTo(b, c, order, n).Ok?
    requires forall i :: 0 <= i < n && b.holds[i].checkout == c && b.holds[i].status == Active ==> b.holds[i].variant != v
    ensures var b' := CommitUpTo(b, c, order, n).value.0;
            (v in b'.stock <==> v in b.stock) && (v in b.stock ==> b'.stock[v] == b.stock[v])
  {
    if n > 0 {
      CommitTouches(b, c, order, n - 1, v);
    }
  }

  lemma CommitCovers(l: Ledger, c: CheckoutId, order: Option<OrderId>)
    ensures Covers(l, Next(l, Commit(c, order)), LedgerProgram(l, Committing(c)))
  {
    var l', p := Next(l, Commit(c, order)), LedgerProgram(l, Committing(c));
    if CommitHolds(l, c, order).Ok? {
      CommitShape(l, c, order);
      forall pk | 0 <= pk < |l.book.holds| && l'.book.holds[pk] != l.book.holds[pk] ensures Locked(p, HoldRow(pk)) {
        LocksExactly(l, Committing(c), HoldRow(pk));
      }
      forall v | v in l.book.stock && v in l'.book.stock && l'.book.stock[v] != l.book.stock[v] ensures Locked(p, StockRow(v)) {
        LocksExactly(l, Committing(c), StockRow(v));
        if forall i :: 0 <= i < |l.book.holds| && l.book.holds[i].checkout == c && l.book.holds[i].status == Active ==>
             l.book.holds[i].variant != v {
          CommitTouches(l.book, c, order, |l.book.holds|, v);
        }
        var i: nat :| i < |l.book.holds| && l.book.holds[i].checkout == c && l.book.holds[i].status == Active
                      && l.book.holds[i].variant == v;
        assert InGroupAt(l, c, i);
      }
    }
  }

  lemma EndingCovers(l: Ledger, s: Step)
    requires s.Release? || s.Expire?
    ensures Covers(l, Next(l, s), LedgerProgram(l, Ending(s.pk)))
  {
    if s.pk < |l.book.holds| {
      LocksExactly(l, Ending(s.pk), HoldRow(s.pk));
      LocksExactly(l, Ending(s.pk), StockRow(l.book.holds[s.pk].variant));
    }
  }

  lemma AdjustCovers(l: Ledger, s: Step)
    requires s.Adjust?
    ensures Covers(l, Next(l, s), LedgerProgram(l, Adjusting(s.variant)))
  {
    LocksExactly(l, Adjusting(s.variant), StockRow(s.variant));
  }

  lemma {:induction false} RestoreTouches(b: Book, o: OrderId, lines: seq<Line>, v: int)
    requires RestoreAll(b, o, lines).Ok? && !StockOf(lines, StockRow(v))
    ensures var b' := RestoreAll(b, o, lines).value;
            (v in b'.stock <==> v in b.stock) && (v in b.stock ==> b'.stock[v] == b.stock[v])
  {
    if lines != [] {
      var n := |lines| - 1;
      assert StockRow(lines[n].variant) != StockRow(v);
      forall k | 0 <= k < n ensures StockRow(lines[..n][k].variant) != StockRow(v) {
        assert lines[..n][k] == lines[k];
      }
      RestoreTouches(b, o, lines[..n], v);
    }
  }

  lemma RestoreCovers(l: Ledger, opening: map<int, int>, o: OrderId, lines: seq<Line>)
    requires LedgerOk(l, opening)
    ensures Covers(l, Next(l, Restore(o, lines)), LedgerProgram(l, Restoring(o, lines)))
  {
    var l', p := Next(l, Restore(o, lines)), LedgerProgram(l, Restoring(o, lines));
    if RefundKey(o) !in l.keys && Attempt(l, Restore(o, lines)).Ok? {
      RestoreAllKeeps(l.book, opening, o, SortLines(lines));
      forall v | v in l.book.stock && v in l'.book.stock && l'.book.stock[v] != l.book.stock[v] ensures Locked(p, StockRow(v)) {
        LocksExactly(l, Restoring(o, lines), StockRow(v));
        SortedStock(lines, StockRow(v));
        if !StockOf(SortLines(lines), StockRow(v)) {
          RestoreTouches(l.book, o, SortLines(lines), v);
        }
        StockOfSorted(lines, v);
      }
      LocksExactly(l, Restoring(o, lines), KeyRow(RefundKey(o)));
    }
  }

  lemma StockOfSorted(lines: seq<Line>, v: int)
    ensures StockOf(SortLines(lines), StockRow(v)) <==> StockOf(lines, StockRow(v))
  {
    SortedStock(lines, StockRow(v));
    var s := SortLines(lines);
    if StockOf(s, StockRow(v)) {
      var k :| 0 <= k < |s| && StockRow(v) == StockRow(s[k].variant);
      assert StockLocks(s)[k] == StockRow(v);
    }
    if StockRow(v) in StockLocks(s) {
      var k :| 0 <= k < |s| && StockLocks(s)[k] == StockRow(v);
    }
  }

  /**
   * Whatever existing hold, counter or key a ledger transaction changes, its program has taken
   * that row's lock, and frees none before its end.
   */
  lemma LedgerCovers(l: Ledger, opening: map<int, int>, s: Step)
    requires LedgerOk(l, opening)
    ensures Covers(l, Next(l, s), LedgerProgram(l, StepTx(l, s)))
  {
    match s
    case Reserve(c, lines, e) => ReserveCovers(l, opening, c, lines, e);
    case Commit(c, o) => CommitCovers(l, c, o);
    case Release(pk) => EndingCovers(l, s);
    case Expire(pk, now) => EndingCovers(l, s);
    case Adjust(v, d, r, o) => AdjustCovers(l, s);
    case Restore(o, lines) => RestoreCovers(l, opening, o, lines);
  }

  // ------------------------------------------------------------ what an Orders transaction holds and changes

  /** The lock is held when the program is about to end. */
  predicate HeldToEnd(p: seq<Action>, x: Lock) { p != [] && x in HeldAfter(p[..|p| - 1]) }

  /** Ledger transactions run inside free no lock of Orders. */
  lemma {:induction false} OuterKept(outer: seq<Action>, p: seq<Action>, x: Lock)
    requires x in HeldAfter(outer) && Tier(x) < LEDGER && forall k :: 0 <= k < |p| ==> p[k].Take? || p[k] == Free(LEDGER)
    ensures x in HeldAfter(outer + p)
  {
    if p == [] {
      assert outer + p == outer;
    } else {
      var n := |p| - 1;
      OuterKept(outer, p[..n], x);
      assert outer + p == (outer + p[..n]) + [p[n]];
      Extend(outer + p[..n], p[n]);
    }
  }

  lemma ErrandActions(o: OrderId, e: Errand, opening: map<int, int>)
    requires e.Nested? ==> LedgerOk(e.l, opening)
    ensures forall k :: 0 <= k < |ErrandProgram(o, e)| ==> ErrandProgram(o, e)[k].Take? || ErrandProgram(o, e)[k] == Free(LEDGER)
  {
    if e.Nested? {
      LedgerPlans(e.l, opening, e.tx);
      forall k | 0 <= k < |ErrandProgram(o, e)| ensures OfLedger(ErrandProgram(o, e)[k]) {
        assert ErrandProgram(o, e)[k] in ErrandProgram(o, e);
      }
    }
  }

  /** One errand more: what was held of Orders is still held, and the receipt too if this saves it. */
  lemma OneErrand(before: seq<Action>, o: OrderId, e: Errand, opening: map<int, int>, x: Lock)
    requires e.Nested? ==> LedgerOk(e.l, opening)
    requires (x in HeldAfter(before) && Tier(x) < LEDGER) || (e == SaveReceipt && x == ReceiptRow(o))
    ensures x in HeldAfter(before + ErrandProgram(o, e))
  {
    if x in HeldAfter(before) {
      ErrandActions(o, e, opening);
      OuterKept(before, ErrandProgram(o, e), x);
    } else {
      Extend(before, Take(ReceiptRow(o)));
    }
  }

  lemma SavedBefore(errands: seq<Errand>)
    requires errands != []
    ensures SaveReceipt in errands <==> SaveReceipt in errands[..|errands| - 1] || errands[|errands| - 1] == SaveReceipt
  {
    assert errands == errands[..|errands| - 1] + [errands[|errands| - 1]];
  }

  /** Between and after its errands an Orders transaction still holds its order row, and its receipt once saved. */
  lemma {:induction false} ErrandsHold(outer: seq<Action>, o: OrderId, errands: seq<Errand>, opening: map<int, int>)
    requires OrderRow(o) in HeldAfter(outer)
    requires forall k :: 0 <= k < |errands| && errands[k].Nested? ==> LedgerOk(errands[k].l, opening)
    ensures OrderRow(o) in HeldAfter(outer + Errands(o, errands))
    ensures SaveReceipt in errands ==> ReceiptRow(o) in HeldAfter(outer + Errands(o, errands))
  {
    if errands == [] {
      assert outer + Errands(o, errands) == outer;
    } else {
      var n := |errands| - 1;
      var before := outer + Errands(o, errands[..n]);
      ErrandsHold(outer, o, errands[..n], opening);
      ErrandsSnoc(outer, o, errands);
      SavedBefore(errands);
      OneErrand(before, o, errands[n], opening, OrderRow(o));
      if SaveReceipt in errands {
        OneErrand(before, o, errands[n], opening, ReceiptRow(o));
      }
    }
  }

  /** The transaction of Orders that makes a move. */
  ghost predicate Makes(t: ShopTx, w: Saga.World, m: Saga.Move) {
    match m
    case Transition(o, _) => t.OrderTx? && t.order == o
    case CancelByAdmin(o) => t.OrderTx? && t.order == o && SaveReceipt in t.errands
    case Refund(o) => t.OrderTx? && t.order == o
    case Finish(o) => t.OrderTx? && t.order == o && SaveReceipt in t.errands
    case Confirm(o) => t == PaymentTx(o)
    case FailPayment(o) => t == PaymentTx(o)
    case FailSession(o, _) => t == ReceiptTx(o)
    case ReconcileSave(o, _) => t == ReceiptTx(o)
    case RedeliverSave(k) => k < |w.outbox| && w.outbox[k].payload.StockCommit? && t == ReceiptTx(w.outbox[k].payload.order)
    case Mark(k, _) => t.MessageTx? && k in t.ids
    case _ => true
  }

  /** The row locks an existing order's or message's change needs. */
  ghost predicate OrdersCovered(w: Saga.World, w': Saga.World, p: seq<Action>) {
    && (forall o :: o in w.orders && o in w'.orders ==>
          && (w'.orders[o].status != w.orders[o].status ==> HeldToEnd(p, OrderRow(o)))
          && (w'.orders[o].receipts != w.orders[o].receipts ==> HeldToEnd(p, ReceiptRow(o)))
          && (w'.orders[o].payment != w.orders[o].payment && w.orders[o].payment.Recorded? ==> HeldToEnd(p, PaymentRow(o))))
    && (forall k :: 0 <= k < |w.outbox| && k < |w'.outbox| && w'.outbox[k] != w.outbox[k] ==> HeldToEnd(p, MessageRow(k)))
  }

  lemma {:induction false} TakesHeld(locks: seq<Lock>, x: Lock)
    ensures x in HeldAfter(Takes(locks)) <==> x in locks
  {
    if locks != [] {
      var n := |locks| - 1;
      TakesHeld(locks[..n], x);
      assert Takes(locks) == Takes(locks[..n]) + [Take(locks[n])];
      assert locks == locks[..n] + [locks[n]];
      Extend(Takes(locks[..n]), Take(locks[n]));
    }
  }

  lemma TakesHeldToEnd(locks: seq<Lock>, x: Lock)
    ensures HeldToEnd(Takes(locks) + [Free(0)], x) <==> x in locks
  {
    TakesHeld(locks, x);
    var p := Takes(locks) + [Free(0)];
    assert p[..|p| - 1] == Takes(locks);
  }

  lemma OrderTxHolds(o: OrderId, errands: seq<Errand>, opening: map<int, int>)
    requires Sound(OrderTx(o, errands), opening)
    ensures HeldToEnd(ProgramOf(OrderTx(o, errands)), OrderRow(o))
    ensures SaveReceipt in errands ==> HeldToEnd(ProgramOf(OrderTx(o, errands)), ReceiptRow(o))
  {
    OuterAlone(o);
    ErrandsHold([Take(OrderRow(o))], o, errands, opening);
    var p := ProgramOf(OrderTx(o, errands));
    assert p[..|p| - 1] == [Take(OrderRow(o))] + Errands(o, errands);
  }

  /** The locks of the other transactions of Orders. */
  lemma OtherTxHolds(t: ShopTx, x: Lock)
    requires !t.OrderTx? && !t.Alone?
    ensures HeldToEnd(ProgramOf(t), x) <==>
              match t
              case PaymentTx(o) => x == PaymentRow(o) || x == OrderRow(o)
              case BuildTx(year) => x == YearRow(year)
              case ReceiptTx(o) => x == ReceiptRow(o)
              case MessageTx(ids) => x.MessageRow? && x.id in ids
              case _ => false
  {
    match t
    case PaymentTx(o) => TakesHeldToEnd([PaymentRow(o), OrderRow(o)], x);
    case BuildTx(year) => TakesHeldToEnd([YearRow(year)], x);
    case ReceiptTx(o) => TakesHeldToEnd([ReceiptRow(o)], x);
    case MessageTx(ids) =>
      TakesHeldToEnd(MessageLocks(ids), x);
      if x.MessageRow? && x.id in ids {
        var k :| 0 <= k < |ids| && ids[k] == x.id;
        assert MessageLocks(ids)[k] == x;
      }
    case _ =>
  }

  /** A move that rewrites one order, and leaves the messages there were as they are. */
  ghost predicate Rewrites(w: Saga.World, w': Saga.World, o: OrderId) {
    && o in w.orders && o in w'.orders && w'.orders == w.orders[o := w'.orders[o]]
    && |w.outbox| <= |w'.outbox| && forall k :: 0 <= k < |w.outbox| ==> w'.outbox[k] == w.outbox[k]
  }

  lemma OrderTxRewrites(w: Saga.World, m: Saga.Move)
    requires Saga.Enabled(w, m) && (m.Transition? || m.CancelByAdmin? || m.Refund? || m.Finish?)
    ensures var w' := Saga.Do(w, m);
            && Rewrites(w, w', m.order) && w'.orders[m.order].payment == w.orders[m.order].payment
            && (m.Transition? || m.Refund? ==> w'.orders[m.order].receipts == w.orders[m.order].receipts)
  {}

  lemma PaymentTxRewrites(w: Saga.World, m: Saga.Move)
    requires Saga.Enabled(w, m) && (m.Confirm? || m.FailPayment?)
    ensures Rewrites(w, Saga.Do(w, m), m.order)
    ensures Saga.Do(w, m).orders[m.order].receipts == w.orders[m.order].receipts
  {}

  function ReceiptOrder(w: Saga.World, m: Saga.Move): OrderId
    requires Saga.Enabled(w, m) && (m.FailSession? || m.ReconcileSave? || m.RedeliverSave?)
  {
    if m.RedeliverSave? then w.outbox[m.message].payload.order else m.order
  }

  lemma ReceiptTxRewrites(w: Saga.World, m: Saga.Move)
    requires Saga.Enabled(w, m) && (m.FailSession? || m.ReconcileSave? || m.RedeliverSave?)
    ensures var o, w' := ReceiptOrder(w, m), Saga.Do(w, m);
            && Rewrites(w, w', o) && w'.orders[o].status == w.orders[o].status
            && (w'.orders[o].payment == w.orders[o].payment || !w.orders[o].payment.Recorded?)
  {}

  /** An attempt writes nothing of Orders before it finishes. */
  lemma AttemptRewritesNothing(w: Saga.World, m: Saga.Move)
    requires Saga.Enabled(w, m) && (m.CommitReceipt? || m.ReserveReplacement? || m.CommitReplacement?)
    ensures Saga.Do(w, m).orders == w.orders && Saga.Do(w, m).outbox == w.outbox
  {}

  /** Moves that no Orders transaction with a lock makes: they insert, open a session, or work on the ledger or the attempt. */
  predicate Lockless(m: Saga.Move) {
    && !m.Transition? && !m.CancelByAdmin? && !m.Refund? && !m.Finish? && !m.Confirm? && !m.FailPayment?
    && !m.FailSession? && !m.ReconcileSave? && !m.RedeliverSave? && !m.Mark?
  }

  lemma OthersRewriteNothing(w: Saga.World, m: Saga.Move)
    requires Saga.Enabled(w, m) && Lockless(m)
    ensures var w' := Saga.Do(w, m);
            && w'.outbox == w.outbox
            && forall o :: o in w.orders ==>
                 o in w'.orders && (w'.orders[o] == w.orders[o] || (w.orders[o].payment == Saga.NoSession
                                    && w'.orders[o] == w.orders[o].(payment := w'.orders[o].payment)))
  {
    if m.CommitReceipt? || m.ReserveReplacement? || m.CommitReplacement? {
      AttemptRewritesNothing(w, m);
    } else {
      RestRewriteNothing(w, m);
    }
  }

  lemma RestRewriteNothing(w: Saga.World, m: Saga.Move)
    requires Saga.Enabled(w, m) && Lockless(m) && !m.CommitReceipt? && !m.ReserveReplacement? && !m.CommitReplacement?
    ensures var w' := Saga.Do(w, m);
            && w'.outbox == w.outbox
            && forall o :: o in w.orders ==>
                 o in w'.orders && (w'.orders[o] == w.orders[o] || (w.orders[o].payment == Saga.NoSession
                                    && w'.orders[o] == w.orders[o].(payment := w'.orders[o].payment)))
  {}

  lemma OrderTxCovers(w: Saga.World, m: Saga.Move, t: ShopTx, opening: map<int, int>)
    requires Saga.Enabled(w, m) && Makes(t, w, m) && Sound(t, opening)
    requires m.Transition? || m.CancelByAdmin? || m.Refund? || m.Finish?
    ensures OrdersCovered(w, Saga.Do(w, m), ProgramOf(t))
  {
    OrderTxRewrites(w, m);
    OrderTxHolds(t.order, t.errands, opening);
  }

  lemma PaymentTxCovers(w: Saga.World, m: Saga.Move, t: ShopTx)
    requires Saga.Enabled(w, m) && Makes(t, w, m) && (m.Confirm? || m.FailPayment?)
    ensures OrdersCovered(w, Saga.Do(w, m), ProgramOf(t))
  {
    PaymentTxRewrites(w, m);
    OtherTxHolds(t, OrderRow(m.order));
    OtherTxHolds(t, PaymentRow(m.order));
  }

  lemma ReceiptTxCovers(w: Saga.World, m: Saga.Move, t: ShopTx)
    requires Saga.Enabled(w, m) && Makes(t, w, m) && (m.FailSession? || m.ReconcileSave? || m.RedeliverSave?)
    ensures OrdersCovered(w, Saga.Do(w, m), ProgramOf(t))
  {
    ReceiptTxRewrites(w, m);
    OtherTxHolds(t, ReceiptRow(ReceiptOrder(w, m)));
  }

  /**
   * Whatever existing order, receipt, payment or message a transaction of Orders changes, its
   * program holds that row's lock when it ends, ledger transactions nested in it or not.
   */
  lemma OrdersTxCovers(w: Saga.World, m: Saga.Move, t: ShopTx, opening: map<int, int>)
    requires Saga.Enabled(w, m) && Makes(t, w, m) && Sound(t, opening)
    ensures OrdersCovered(w, Saga.Do(w, m), ProgramOf(t))
  {
    if m.Transition? || m.CancelByAdmin? || m.Refund? || m.Finish? {
      OrderTxCovers(w, m, t, opening);
    } else if m.Confirm? || m.FailPayment? {
      PaymentTxCovers(w, m, t);
    } else if m.FailSession? || m.ReconcileSave? || m.RedeliverSave? {
      ReceiptTxCovers(w, m, t);
    } else if m.Mark? {
      OtherTxHolds(t, MessageRow(m.message));
    } else {
      OthersRewriteNothing(w, m);
    }
  }
}
