/**
 * Deadlock freedom. Every transaction takes its row locks in one global order: payment
 * and year before order before receipt before message, then idempotency key before hold
 * before stock; messages and holds by primary key, stock by variant
 * (apps/inventory/providers/local.py). Locks are idealised: one owner each, freed when
 * their transaction ends.
 */
module RowLocks {
  import opened Totals
  import opened Lines
  import opened Books
  import opened Ledgers
  import opened LocalProvider

  /** An order has one receipt. */
  datatype Lock =
    | PaymentRow(order: OrderId)
    | YearRow(year: int)
    | OrderRow(order: OrderId)
    | ReceiptRow(order: OrderId)
    | MessageRow(id: nat)
    | KeyRow(key: Key)
    | HoldRow(pk: nat)
    | StockRow(variant: int)

  function Tier(x: Lock): nat {
    match x
    case PaymentRow(_) => 0
    case YearRow(_) => 0
    case OrderRow(_) => 1
    case ReceiptRow(_) => 2
    case MessageRow(_) => 3
    case KeyRow(_) => 4
    case HoldRow(_) => 5
    case StockRow(_) => 6
  }

  /** The first tier of the stock database. */
  const LEDGER := 4

  /** The global order; two keys, two orders or two payments have none between them. */
  predicate Below(a: Lock, b: Lock) {
    || Tier(a) < Tier(b)
    || (a.MessageRow? && b.MessageRow? && a.id < b.id)
    || (a.HoldRow? && b.HoldRow? && a.pk < b.pk)
    || (a.StockRow? && b.StockRow? && a.variant < b.variant)
  }

  /** A ledger transaction nested in an Orders transaction frees its own locks and keeps the outer ones. */
  datatype Action = Take(lock: Lock) | Free(tier: nat)

  function Done(held: set<Lock>, a: Action): set<Lock> {
    if a.Take? then held + {a.lock} else set x | x in held && Tier(x) < a.tier
  }

  function HeldAfter(program: seq<Action>): set<Lock> {
    if program == [] then {} else Done(HeldAfter(program[..|program| - 1]), program[|program| - 1])
  }

  /** The lock is already held, or above everything held. */
  predicate MayTake(held: set<Lock>, x: Lock) { x in held || forall y :: y in held ==> Below(y, x) }

  /** Every lock is asked for in the global order; taking one again never waits. */
  predicate InOrder(program: seq<Action>) {
    program == []
    || var n := |program| - 1;
       InOrder(program[..n]) && (program[n].Take? ==> MayTake(HeldAfter(program[..n]), program[n].lock))
  }

  /** A transaction program: in order, and holding nothing at its end. */
  predicate Plan(program: seq<Action>) { InOrder(program) && HeldAfter(program) == {} }

  // ------------------------------------------------------------ transactions together

  datatype Tx = Tx(program: seq<Action>, pc: nat)

  function Held(t: Tx): set<Lock> { if t.pc <= |t.program| then HeldAfter(t.program[..t.pc]) else {} }

  predicate Unfinished(t: Tx) { t.pc < |t.program| }

  /** Transaction `i` wants a lock that `j` holds. */
  predicate Waits(s: seq<Tx>, i: nat, j: nat) {
    && i < |s| && j < |s| && i != j && Unfinished(s[i]) && s[i].program[s[i].pc].Take?
    && s[i].program[s[i].pc].lock in Held(s[j])
  }

  predicate CanAdvance(s: seq<Tx>, i: nat) {
    i < |s| && Unfinished(s[i]) && forall j :: 0 <= j < |s| ==> !Waits(s, i, j)
  }

  datatype Event = Start(program: seq<Action>) | Advance(tx: nat) | RollBack(tx: nat)

  function Happen(s: seq<Tx>, e: Event): seq<Tx> {
    match e
    case Start(program) => s + [Tx(program, 0)]
    case Advance(i) => if CanAdvance(s, i) then s[i := s[i].(pc := s[i].pc + 1)] else s
    case RollBack(i) => if i < |s| then s[i := Tx([], 0)] else s
  }

  function Happened(events: seq<Event>): seq<Tx> {
    if events == [] then [] else Happen(Happened(events[..|events| - 1]), events[|events| - 1])
  }

  /** Every transaction follows a plan, and no lock has two owners. */
  ghost predicate LocksOk(s: seq<Tx>) {
    && (forall i :: 0 <= i < |s| ==> Plan(s[i].program) && s[i].pc <= |s[i].program|)
    && (forall i, j, x :: 0 <= i < |s| && 0 <= j < |s| && x in Held(s[i]) && x in Held(s[j]) ==> i == j)
  }

  lemma EmptyPlan()
    ensures Plan([]) && Held(Tx([], 0)) == {}
  {}

  lemma HeldNext(t: Tx)
    requires Unfinished(t)
    ensures Held(t.(pc := t.pc + 1)) == Done(Held(t), t.program[t.pc])
  {
    assert t.program[..t.pc + 1][..t.pc] == t.program[..t.pc];
  }

  /** A rollback ends its transaction, frees all its locks, and leaves the others as they are. */
  lemma RollBackFrees(s: seq<Tx>, i: nat)
    requires i < |s|
    ensures var s' := Happen(s, RollBack(i));
            && |s'| == |s| && Held(s'[i]) == {} && !Unfinished(s'[i])
            && forall j :: 0 <= j < |s| && j != i ==> s'[j] == s[j]
  {
    EmptyPlan();
  }

  lemma HappenKeeps(s: seq<Tx>, e: Event)
    requires LocksOk(s) && (e.Start? ==> Plan(e.program))
    ensures LocksOk(Happen(s, e))
  {
    EmptyPlan();
    match e
    case Start(program) => assert Held(Tx(program, 0)) == {};
    case RollBack(i) =>
    case Advance(i) =>
      if CanAdvance(s, i) {
        HeldNext(s[i]);
        var s' := Happen(s, e);
        forall j, x | 0 <= j < |s| && j != i && x in Held(s'[j]) ensures x !in Held(s'[i]) {
          assert s'[j] == s[j] && !Waits(s, i, j);
        }
      }
  }

  /** Every start follows a plan. */
  ghost predicate Planned(events: seq<Event>) {
    forall k :: 0 <= k < |events| && events[k].Start? ==> Plan(events[k].program)
  }

  lemma {:induction false} HappenedOk(events: seq<Event>)
    requires Planned(events)
    ensures LocksOk(Happened(events))
  {
    if events != [] {
      var n := |events| - 1;
      assert forall k :: 0 <= k < n ==> events[..n][k] == events[k];
      HappenedOk(events[..n]);
      HappenKeeps(Happened(events[..n]), events[n]);
    }
  }

  function Wanted(t: Tx): Lock
    requires Unfinished(t) && t.program[t.pc].Take?
  {
    t.program[t.pc].lock
  }

  lemma {:induction false} InOrderAt(program: seq<Action>, k: nat)
    requires InOrder(program) && k < |program| && program[k].Take?
    ensures MayTake(HeldAfter(program[..k]), program[k].lock)
  {
    var n := |program| - 1;
    if k < n {
      InOrderAt(program[..n], k);
      assert program[..n][..k] == program[..k];
    }
  }

  /** Who is waited for, if waiting itself, waits for something higher. */
  lemma WaitsClimb(s: seq<Tx>, i: nat, j: nat, k: nat)
    requires LocksOk(s) && Waits(s, i, j) && Waits(s, j, k)
    ensures Below(Wanted(s[i]), Wanted(s[j]))
  {
    InOrderAt(s[j].program, s[j].pc);
    assert Wanted(s[j]) in Held(s[k]) && Wanted(s[j]) !in Held(s[j]);
  }

  /** The n-th transaction of the ring waits for the next one. */
  predicate Link(s: seq<Tx>, ring: seq<nat>, n: nat) { n + 1 < |ring| && Waits(s, ring[n], ring[n + 1]) }

  /** Transactions each waiting for the next, back to the first. */
  ghost predicate Ring(s: seq<Tx>, ring: seq<nat>) {
    |ring| >= 2 && ring[0] == ring[|ring| - 1] && forall n :: 0 <= n < |ring| - 1 ==> Link(s, ring, n)
  }

  lemma {:induction false} RingClimbs(s: seq<Tx>, ring: seq<nat>, n: nat)
    requires LocksOk(s) && Ring(s, ring) && 1 <= n < |ring| - 1
    ensures Link(s, ring, 0) && Link(s, ring, n) && Below(Wanted(s[ring[0]]), Wanted(s[ring[n]]))
  {
    assert Link(s, ring, n - 1) && Link(s, ring, n) && Link(s, ring, 0);
    WaitsClimb(s, ring[n - 1], ring[n], ring[n + 1]);
    if n > 1 {
      RingClimbs(s, ring, n - 1);
    }
  }

  /** No transaction of a ring can be waiting: it would want something above itself. */
  lemma NoRing(s: seq<Tx>, ring: seq<nat>)
    requires LocksOk(s)
    ensures !Ring(s, ring)
  {
    if Ring(s, ring) {
      var last := |ring| - 2;
      assert Link(s, ring, last) && Link(s, ring, 0);
      if last > 0 {
        WaitsClimb(s, ring[last], ring[0], ring[1]);
        RingClimbs(s, ring, last);
      }
      assert false;
    }
  }

  /** In no reachable state, whatever transactions run, start and roll back, is there a wait cycle. */
  lemma NoWaitCycle(events: seq<Event>, ring: seq<nat>)
    requires Planned(events)
    ensures !Ring(Happened(events), ring)
  {
    HappenedOk(events);
    NoRing(Happened(events), ring);
  }

  // ------------------------------------------------------------ somebody can always go on

  /** Among blocked transactions, one that wants nothing below what another wants. */
  lemma {:induction false} Topmost(s: seq<Tx>, n: nat) returns (m: nat)
    requires n <= |s| && exists i :: 0 <= i < n && Unfinished(s[i])
    requires forall i :: 0 <= i < n && Unfinished(s[i]) ==> s[i].program[s[i].pc].Take?
    ensures m < n && Unfinished(s[m])
    ensures forall i :: 0 <= i < n && Unfinished(s[i]) ==> !Below(Wanted(s[m]), Wanted(s[i]))
  {
    if exists i :: 0 <= i < n - 1 && Unfinished(s[i]) {
      m := Topmost(s, n - 1);
      if Unfinished(s[n - 1]) && Below(Wanted(s[m]), Wanted(s[n - 1])) {
        m := n - 1;
      }
    } else {
      m := n - 1;
    }
  }

  /** While any transaction is unfinished, some transaction can take its next step. */
  lemma Progress(events: seq<Event>)
    requires Planned(events)
    ensures var s := Happened(events);
            (exists i :: 0 <= i < |s| && Unfinished(s[i])) ==> exists i :: CanAdvance(s, i)
  {
    HappenedOk(events);
    SomeoneAdvances(Happened(events));
  }

  lemma SomeoneAdvances(s: seq<Tx>)
    requires LocksOk(s)
    ensures (exists i :: 0 <= i < |s| && Unfinished(s[i])) ==> exists i :: CanAdvance(s, i)
  {
    if (exists i :: 0 <= i < |s| && Unfinished(s[i])) && !exists i :: CanAdvance(s, i) {
      forall i | 0 <= i < |s| && Unfinished(s[i]) ensures s[i].program[s[i].pc].Take? {
        assert !CanAdvance(s, i);
      }
      var m := Topmost(s, |s|);
      assert !CanAdvance(s, m);
      var j: nat :| j < |s| && Waits(s, m, j);
      if !Unfinished(s[j]) {
        FinishedHoldsNothing(s[j]);
      }
      assert !CanAdvance(s, j);
      var k: nat :| k < |s| && Waits(s, j, k);
      WaitsClimb(s, m, j, k);
      assert false;
    }
  }

  lemma FinishedHoldsNothing(t: Tx)
    requires Plan(t.program) && !Unfinished(t)
    ensures Held(t) == {}
  {
    if t.pc == |t.program| {
      assert t.program[..t.pc] == t.program;
    }
  }

  // ------------------------------------------------------------ everybody can finish

  /** Steps a transaction has left; a measure for `Total`. */
  function StepsLeft(): Tx -> int { (t: Tx) => if t.pc < |t.program| then |t.program| - t.pc else 0 }

  function HappenedFrom(s: seq<Tx>, events: seq<Event>): seq<Tx>
    decreases |events|
  {
    if events == [] then s else HappenedFrom(Happen(s, events[0]), events[1..])
  }

  lemma {:induction false} HappenedOnward(events: seq<Event>, more: seq<Event>)
    ensures Happened(events + more) == HappenedFrom(Happened(events), more)
    decreases |more|
  {
    if more == [] {
      assert events + more == events;
    } else {
      assert (events + [more[0]])[..|events|] == events;
      assert events + more == (events + [more[0]]) + more[1..];
      HappenedOnward(events + [more[0]], more[1..]);
    }
  }

  /** One step of a transaction that can take it leaves one step less to take. */
  lemma OneStepLess(s: seq<Tx>, i: nat)
    requires CanAdvance(s, i)
    ensures Total(Happen(s, Advance(i)), StepsLeft()) == Total(s, StepsLeft()) - 1
  {
    TotalUpdate(s, i, s[i].(pc := s[i].pc + 1), StepsLeft());
  }

  lemma AllAtEnd(s: seq<Tx>)
    requires LocksOk(s) && forall i :: 0 <= i < |s| ==> !Unfinished(s[i])
    ensures Total(s, StepsLeft()) == 0 && AllOver(s)
  {
    TotalNonNegative(s, StepsLeft());
    forall i | 0 <= i < |s| ensures Held(s[i]) == {} {
      FinishedHoldsNothing(s[i]);
    }
  }

  /** Every transaction has ended and holds nothing. */
  ghost predicate AllOver(s: seq<Tx>) { forall i :: 0 <= i < |s| ==> !Unfinished(s[i]) && Held(s[i]) == {} }

  lemma HappenedFirst(s: seq<Tx>, e: Event, rest: seq<Event>)
    ensures HappenedFrom(s, [e] + rest) == HappenedFrom(Happen(s, e), rest)
  {
    assert ([e] + rest)[1..] == rest;
  }

  /** From any state of planned transactions, letting only running ones go on finishes them all. */
  lemma {:induction false} CanFinish(s: seq<Tx>) returns (more: seq<Event>)
    requires LocksOk(s)
    ensures forall k :: 0 <= k < |more| ==> more[k].Advance?
    ensures |HappenedFrom(s, more)| == |s| && |more| == Total(s, StepsLeft())
    ensures AllOver(HappenedFrom(s, more))
    decreases Total(s, StepsLeft()), 1
  {
    TotalNonNegative(s, StepsLeft());
    SomeoneAdvances(s);
    if i: nat :| CanAdvance(s, i) {
      OneStepLess(s, i);
      HappenKeeps(s, Advance(i));
      var rest := FinishAfter(s, i);
      more := [Advance(i)] + rest;
      HappenedFirst(s, Advance(i), rest);
    } else {
      more := [];
      AllAtEnd(s);
    }
  }

  lemma FinishAfter(s: seq<Tx>, i: nat) returns (rest: seq<Event>)
    requires LocksOk(s) && CanAdvance(s, i) && LocksOk(Happen(s, Advance(i)))
    requires Total(Happen(s, Advance(i)), StepsLeft()) == Total(s, StepsLeft()) - 1
    ensures forall k :: 0 <= k < |rest| ==> rest[k].Advance?
    ensures var s' := HappenedFrom(Happen(s, Advance(i)), rest);
            |s'| == |s| && |rest| == Total(s, StepsLeft()) - 1 && AllOver(s')
    decreases Total(s, StepsLeft()), 0
  {
    TotalNonNegative(Happen(s, Advance(i)), StepsLeft());
    rest := CanFinish(Happen(s, Advance(i)));
  }

  // ------------------------------------------------------------ the programs of the shop's transactions

  lemma Extend(p: seq<Action>, a: Action)
    ensures InOrder(p + [a]) <==> InOrder(p) && (a.Take? ==> MayTake(HeldAfter(p), a.lock))
    ensures HeldAfter(p + [a]) == Done(HeldAfter(p), a)
  {
    assert (p + [a])[..|p|] == p;
  }

  /** A step of a ledger transaction. */
  predicate OfLedger(a: Action) {
    match a
    case Take(x) => Tier(x) >= LEDGER
    case Free(tier) => tier == LEDGER
  }

  /** A ledger transaction's part of a program: only ledger locks, and all of them freed at its end. */
  ghost predicate Inner(p: seq<Action>) {
    && Plan(p)
    && forall a :: a in p ==> OfLedger(a)
  }

  /** A ledger program run while holding only Orders locks. */
  lemma {:induction false} Nest(outer: seq<Action>, p: seq<Action>)
    requires InOrder(outer) && (forall x :: x in HeldAfter(outer) ==> Tier(x) < LEDGER)
    requires InOrder(p) && forall a :: a in p ==> OfLedger(a)
    ensures InOrder(outer + p) && HeldAfter(outer + p) == HeldAfter(outer) + HeldAfter(p)
  {
    if p == [] {
      assert outer + p == outer;
    } else {
      var n := |p| - 1;
      forall a | a in p[..n] ensures OfLedger(a) {
        assert a in p;
      }
      Nest(outer, p[..n]);
      assert p[n] in p;
      assert outer + p == (outer + p[..n]) + [p[n]];
      Extend(outer + p[..n], p[n]);
    }
  }

  function Takes(locks: seq<Lock>): seq<Action> { seq(|locks|, i requires 0 <= i < |locks| => Take(locks[i])) }

  function StockLocks(lines: seq<Line>): seq<Lock> {
    seq(|lines|, i requires 0 <= i < |lines| => StockRow(lines[i].variant))
  }

  function HoldLocks(pks: seq<nat>): seq<Lock> { seq(|pks|, i requires 0 <= i < |pks| => HoldRow(pks[i])) }

  /** Each lock is above the ones before it, or one of them. */
  predicate Climbing(locks: seq<Lock>) {
    forall i, j :: 0 <= i < j < |locks| ==> Below(locks[i], locks[j]) || locks[i] == locks[j]
  }

  lemma {:induction false} TakesClimb(locks: seq<Lock>)
    requires Climbing(locks)
    ensures InOrder(Takes(locks)) && forall x :: x in HeldAfter(Takes(locks)) <==> x in locks
  {
    if locks != [] {
      var n := |locks| - 1;
      TakesClimb(locks[..n]);
      assert Takes(locks) == Takes(locks[..n]) + [Take(locks[n])];
      assert locks == locks[..n] + [locks[n]];
      Extend(Takes(locks[..n]), Take(locks[n]));
      forall y | y in HeldAfter(Takes(locks[..n])) ensures Below(y, locks[n]) || y == locks[n] {
        var i :| 0 <= i < n && locks[..n][i] == y;
        assert locks[i] == y;
      }
      if locks[n] !in locks[..n] {
        assert forall y :: y in HeldAfter(Takes(locks[..n])) ==> y != locks[n];
      }
    }
  }

  /** Closing a ledger transaction frees everything it took. */
  lemma Closes(p: seq<Action>)
    requires InOrder(p) && forall a :: a in p ==> a.Take? && Tier(a.lock) >= LEDGER
    ensures Inner(p + [Free(LEDGER)])
  {
    HeldIsTaken(p);
    Extend(p, Free(LEDGER));
  }

  lemma {:induction false} HeldIsTaken(p: seq<Action>)
    ensures forall x :: x in HeldAfter(p) ==> Take(x) in p
  {
    if p != [] {
      HeldIsTaken(p[..|p| - 1]);
      assert p == p[..|p| - 1] + [p[|p| - 1]];
    }
  }

  lemma ClimbingPlan(locks: seq<Lock>)
    requires Climbing(locks) && forall x :: x in locks ==> Tier(x) >= LEDGER
    ensures Inner(Takes(locks) + [Free(LEDGER)])
  {
    TakesClimb(locks);
    forall a | a in Takes(locks) ensures a.Take? && Tier(a.lock) >= LEDGER {
      var i :| 0 <= i < |locks| && Takes(locks)[i] == a;
      assert locks[i] in locks;
    }
    Closes(Takes(locks));
  }

  /** A commit's second half: each active row is locked again, then its stock. */
  function SellTakes(holds: seq<Hold>, pks: seq<nat>): seq<Action> {
    if pks == [] then []
    else
      var pk := pks[|pks| - 1];
      SellTakes(holds, pks[..|pks| - 1])
      + SellOneTakes(holds, pk)
  }

  /** One transaction of the in-process ledger. */
  datatype LedgerTx =
    | Reserving(checkout: CheckoutId, lines: seq<Line>)
    | Replaying(checkout: CheckoutId)
    | Committing(checkout: CheckoutId)
    | Ending(pk: nat)
    | Adjusting(variant: int)
    | Restoring(order: OrderId, lines: seq<Line>)

  /** Rows of the group, ascending. */
  ghost predicate RowsOf(holds: seq<Hold>, c: CheckoutId, pks: seq<nat>) {
    && (forall k :: 0 <= k < |pks| ==> pks[k] < |holds| && holds[pks[k]].checkout == c)
    && (forall j, k :: 0 <= j < k < |pks| ==> pks[j] < pks[k])
  }

  lemma {:induction false} GroupPksOk(holds: seq<Hold>, c: CheckoutId)
    ensures RowsOf(holds, c, GroupPks(holds, c))
  {
    if holds != [] {
      var n := |holds| - 1;
      var before := GroupPks(holds[..n], c);
      GroupPksOk(holds[..n], c);
      assert RowsOf(holds[..n], c, before);
      forall k | 0 <= k < |before| ensures before[k] < n && holds[before[k]].checkout == c {
        assert holds[..n][before[k]] == holds[before[k]];
      }
    }
  }

  /** The locks a ledger transaction takes on this ledger, and their release at its commit. */
  function LedgerProgram(l: Ledger, t: LedgerTx): seq<Action> {
    match t
    case Reserving(c, lines) => Takes([KeyRow(ReserveKey(c))] + StockLocks(SortLines(lines))) + [Free(LEDGER)]
    case Replaying(c) => Takes([KeyRow(ReserveKey(c))] + HoldLocks(GroupPks(l.book.holds, c))) + [Free(LEDGER)]
    case Committing(c) =>
      var pks := GroupPks(l.book.holds, c);
      Takes(HoldLocks(pks)) + SellTakes(l.book.holds, pks) + [Free(LEDGER)]
    case Ending(pk) =>
      if pk < |l.book.holds| then Takes([HoldRow(pk), StockRow(l.book.holds[pk].variant)]) + [Free(LEDGER)] else []
    case Adjusting(v) => Takes([StockRow(v)]) + [Free(LEDGER)]
    case Restoring(o, lines) => Takes([KeyRow(RefundKey(o))] + StockLocks(SortLines(lines))) + [Free(LEDGER)]
  }

  lemma StockClimbs(lines: seq<Line>)
    requires Ascending(lines)
    ensures Climbing(StockLocks(lines))
  {
    forall i, j | 0 <= i < j < |lines| ensures lines[i].variant <= lines[j].variant {
      AscendingAt(lines, i, j);
    }
  }

  lemma KeyClimbs(k: Key, locks: seq<Lock>)
    requires Climbing(locks) && forall x :: x in locks ==> Tier(x) > LEDGER
    ensures Climbing([KeyRow(k)] + locks)
  {
    var all := [KeyRow(k)] + locks;
    forall i, j | 0 <= i < j < |all| ensures Below(all[i], all[j]) || all[i] == all[j] {
      assert locks[j - 1] in locks;
      assert i > 0 ==> Below(locks[i - 1], locks[j - 1]) || locks[i - 1] == locks[j - 1];
    }
  }

  lemma KeyPlan(k: Key, locks: seq<Lock>)
    requires Climbing(locks) && forall x :: x in locks ==> Tier(x) > LEDGER
    ensures Inner(Takes([KeyRow(k)] + locks) + [Free(LEDGER)])
  {
    KeyClimbs(k, locks);
    ClimbingPlan([KeyRow(k)] + locks);
  }

  lemma StockTiers(lines: seq<Line>)
    ensures forall x :: x in StockLocks(lines) ==> Tier(x) > LEDGER
  {}

  lemma KeyThenStock(k: Key, ordered: seq<Line>)
    requires Ascending(ordered)
    ensures Inner(Takes([KeyRow(k)] + StockLocks(ordered)) + [Free(LEDGER)])
  {
    var locks := StockLocks(ordered);
    StockClimbs(ordered);
    StockTiers(ordered);
    KeyPlan(k, locks);
  }

  lemma KeyThenHolds(k: Key, holds: seq<Hold>, c: CheckoutId)
    ensures Inner(Takes([KeyRow(k)] + HoldLocks(GroupPks(holds, c))) + [Free(LEDGER)])
  {
    GroupPksOk(holds, c);
    ClimbingPlan([KeyRow(k)] + HoldLocks(GroupPks(holds, c)));
  }

  /** What a commit of these rows holds: their hold rows, and stock of variants already sold. */
  ghost predicate SellingHeld(held: set<Lock>, holds: seq<Hold>, pks: seq<nat>, n: nat) {
    && (forall k :: 0 <= k < |pks| ==> HoldRow(pks[k]) in held)
    && forall x :: x in held ==> x.HoldRow? || (x.StockRow? && SoldBefore(holds, pks, n, x.variant))
  }

  predicate SoldBefore(holds: seq<Hold>, pks: seq<nat>, n: nat, v: int) {
    exists k :: 0 <= k < n <= |pks| && pks[k] < |holds| && holds[pks[k]].variant == v
  }

  function SellOneTakes(holds: seq<Hold>, pk: nat): seq<Action> {
    if pk < |holds| && holds[pk].status == Active then [Take(HoldRow(pk)), Take(StockRow(holds[pk].variant))] else []
  }

  /** Primary keys climb with variants within these rows. */
  ghost predicate VariantsClimb(holds: seq<Hold>, pks: seq<nat>) {
    forall j, k :: 0 <= j < k < |pks| && pks[j] < |holds| && pks[k] < |holds| ==> holds[pks[j]].variant <= holds[pks[k]].variant
  }

  lemma MoreSold(held: set<Lock>, holds: seq<Hold>, pks: seq<nat>, n: nat)
    requires SellingHeld(held, holds, pks, n) && n < |pks| && pks[n] < |holds|
    ensures SellingHeld(held, holds, pks, n + 1)
    ensures SellingHeld(held + {StockRow(holds[pks[n]].variant)}, holds, pks, n + 1)
    ensures VariantsClimb(holds, pks) ==> MayTake(held, StockRow(holds[pks[n]].variant))
  {
    var v := holds[pks[n]].variant;
    forall u | SoldBefore(holds, pks, n, u) ensures SoldBefore(holds, pks, n + 1, u) {
      var k :| 0 <= k < n <= |pks| && pks[k] < |holds| && holds[pks[k]].variant == u;
      assert 0 <= k < n + 1;
    }
    assert SoldBefore(holds, pks, n + 1, v);
    if VariantsClimb(holds, pks) && StockRow(v) !in held {
      forall y | y in held ensures Below(y, StockRow(v)) {
        if y.StockRow? {
          var k :| 0 <= k < n <= |pks| && pks[k] < |holds| && holds[pks[k]].variant == y.variant;
        }
      }
    }
  }

  lemma SellOne(holds: seq<Hold>, pks: seq<nat>, n: nat, p: seq<Action>)
    requires VariantsClimb(holds, pks) && n < |pks| && pks[n] < |holds| && InOrder(p)
    requires SellingHeld(HeldAfter(p), holds, pks, n)
    ensures InOrder(p + SellOneTakes(holds, pks[n])) && SellingHeld(HeldAfter(p + SellOneTakes(holds, pks[n])), holds, pks, n + 1)
  {
    MoreSold(HeldAfter(p), holds, pks, n);
    if holds[pks[n]].status == Active {
      var again, stock := Take(HoldRow(pks[n])), Take(StockRow(holds[pks[n]].variant));
      Extend(p, again);
      assert HeldAfter(p + [again]) == HeldAfter(p);
      Extend(p + [again], stock);
      assert p + SellOneTakes(holds, pks[n]) == (p + [again]) + [stock];
    } else {
      assert p + [] == p;
    }
  }

  /** The second half of a commit climbs the stock rows, because primary keys climb with variants. */
  lemma {:induction false} SellingClimbs(holds: seq<Hold>, pks: seq<nat>, p: seq<Action>, n: nat)
    requires VariantsClimb(holds, pks) && n <= |pks| && (forall k :: 0 <= k < |pks| ==> pks[k] < |holds|)
    requires InOrder(p) && SellingHeld(HeldAfter(p), holds, pks, 0)
    ensures InOrder(p + SellTakes(holds, pks[..n])) && SellingHeld(HeldAfter(p + SellTakes(holds, pks[..n])), holds, pks, n)
  {
    if n == 0 {
      assert p + SellTakes(holds, pks[..0]) == p;
    } else {
      SellingClimbs(holds, pks, p, n - 1);
      assert pks[..n][..n - 1] == pks[..n - 1];
      SellOne(holds, pks, n - 1, p + SellTakes(holds, pks[..n - 1]));
      assert p + SellTakes(holds, pks[..n]) == (p + SellTakes(holds, pks[..n - 1])) + SellOneTakes(holds, pks[n - 1]);
    }
  }

  lemma GroupLocked(holds: seq<Hold>, c: CheckoutId)
    ensures var pks := GroupPks(holds, c); var p := Takes(HoldLocks(pks));
            InOrder(p) && SellingHeld(HeldAfter(p), holds, pks, 0)
  {
    var pks := GroupPks(holds, c);
    GroupPksOk(holds, c);
    TakesClimb(HoldLocks(pks));
    forall k | 0 <= k < |pks| ensures HoldRow(pks[k]) in HeldAfter(Takes(HoldLocks(pks))) {
      assert HoldLocks(pks)[k] == HoldRow(pks[k]);
    }
  }

  lemma SellTakesTiers(holds: seq<Hold>, pks: seq<nat>)
    ensures forall a :: a in SellTakes(holds, pks) ==> a.Take? && Tier(a.lock) >= LEDGER
  {}

  lemma GroupVariantsClimb(l: Ledger, c: CheckoutId)
    requires GroupOk(l, c)
    ensures VariantsClimb(l.book.holds, GroupPks(l.book.holds, c))
  {
    var holds, pks := l.book.holds, GroupPks(l.book.holds, c);
    GroupPksOk(holds, c);
    forall j, k | 0 <= j < k < |pks| ensures holds[pks[j]].variant <= holds[pks[k]].variant {
      PkOrderIsVariantOrder(l, c, pks[j], pks[k]);
    }
  }

  lemma HoldTakesTiers(pks: seq<nat>)
    ensures forall a :: a in Takes(HoldLocks(pks)) ==> a.Take? && Tier(a.lock) >= LEDGER
  {}

  /** A commit's whole program is in order, because of how its group was written. */
  lemma CommittingPlan(l: Ledger, c: CheckoutId)
    requires GroupOk(l, c)
    ensures Inner(LedgerProgram(l, Committing(c)))
  {
    var holds, pks := l.book.holds, GroupPks(l.book.holds, c);
    var p := Takes(HoldLocks(pks));
    GroupPksOk(holds, c);
    GroupVariantsClimb(l, c);
    GroupLocked(holds, c);
    SellingClimbs(holds, pks, p, |pks|);
    assert pks[..|pks|] == pks;
    SellTakesTiers(holds, pks);
    HoldTakesTiers(pks);
    Closes(p + SellTakes(holds, pks));
  }

  /** Every transaction of the in-process ledger takes its locks in order and frees them. */
  lemma LedgerPlans(l: Ledger, opening: map<int, int>, t: LedgerTx)
    requires LedgerOk(l, opening)
    ensures Inner(LedgerProgram(l, t))
  {
    match t
    case Reserving(c, lines) =>
      SortAscending(lines);
      KeyThenStock(ReserveKey(c), SortLines(lines));
    case Replaying(c) => KeyThenHolds(ReserveKey(c), l.book.holds, c);
    case Committing(c) =>
      assert GroupOk(l, c);
      CommittingPlan(l, c);
    case Ending(pk) =>
      if pk < |l.book.holds| {
        ClimbingPlan([HoldRow(pk), StockRow(l.book.holds[pk].variant)]);
      }
    case Adjusting(v) => ClimbingPlan([StockRow(v)]);
    case Restoring(o, lines) =>
      SortAscending(lines);
      KeyThenStock(RefundKey(o), SortLines(lines));
  }

  // ------------------------------------------------------------ transactions of the shop

  /** What an Orders transaction does while it holds its order row. */
  datatype Errand = Nested(l: Ledger, tx: LedgerTx) | SaveReceipt

  /**
   * The shop's transactions. An Orders transaction nests ledger transactions, each on the
   * ledger of its moment, and saves its order's receipt between them. The drain locks the
   * messages it claims by primary key; skipping locked ones, it waits less than this.
   */
  datatype ShopTx =
    | Alone(l: Ledger, tx: LedgerTx)
    | OrderTx(order: OrderId, errands: seq<Errand>)
    | PaymentTx(order: OrderId)
    | BuildTx(year: int)
    | ReceiptTx(order: OrderId)
    | MessageTx(ids: seq<nat>)

  function ErrandProgram(o: OrderId, e: Errand): seq<Action> {
    if e.Nested? then LedgerProgram(e.l, e.tx) else [Take(ReceiptRow(o))]
  }

  function Errands(o: OrderId, errands: seq<Errand>): seq<Action> {
    if errands == [] then [] else Errands(o, errands[..|errands| - 1]) + ErrandProgram(o, errands[|errands| - 1])
  }

  function MessageLocks(ids: seq<nat>): seq<Lock> {
    seq(|ids|, k requires 0 <= k < |ids| => MessageRow(ids[k]))
  }

  function ProgramOf(t: ShopTx): seq<Action> {
    match t
    case Alone(l, tx) => LedgerProgram(l, tx)
    case OrderTx(o, errands) => [Take(OrderRow(o))] + Errands(o, errands) + [Free(0)]
    case PaymentTx(o) => Takes([PaymentRow(o), OrderRow(o)]) + [Free(0)]
    case BuildTx(year) => Takes([YearRow(year)]) + [Free(0)]
    case ReceiptTx(o) => Takes([ReceiptRow(o)]) + [Free(0)]
    case MessageTx(ids) => Takes(MessageLocks(ids)) + [Free(0)]
  }

  ghost predicate Sound(t: ShopTx, opening: map<int, int>) {
    match t
    case Alone(l, _) => LedgerOk(l, opening)
    case OrderTx(_, errands) => forall k :: 0 <= k < |errands| && errands[k].Nested? ==> LedgerOk(errands[k].l, opening)
    case MessageTx(ids) => forall j, k :: 0 <= j < k < |ids| ==> ids[j] < ids[k]
    case _ => true
  }

  /** Between its errands an Orders transaction holds its order row, and perhaps its receipt. */
  ghost predicate OwnRows(held: set<Lock>, o: OrderId) {
    forall x :: x in held ==> x == OrderRow(o) || x == ReceiptRow(o)
  }

  lemma OuterAlone(o: OrderId)
    ensures InOrder([Take(OrderRow(o))]) && HeldAfter([Take(OrderRow(o))]) == {OrderRow(o)}
  {
    Extend([], Take(OrderRow(o)));
    assert [] + [Take(OrderRow(o))] == [Take(OrderRow(o))];
  }

  lemma RunErrand(outer: seq<Action>, o: OrderId, e: Errand, opening: map<int, int>)
    requires InOrder(outer) && OwnRows(HeldAfter(outer), o) && (e.Nested? ==> LedgerOk(e.l, opening))
    ensures InOrder(outer + ErrandProgram(o, e)) && OwnRows(HeldAfter(outer + ErrandProgram(o, e)), o)
  {
    match e
    case Nested(l, tx) =>
      LedgerPlans(l, opening, tx);
      Nest(outer, LedgerProgram(l, tx));
    case SaveReceipt => Extend(outer, Take(ReceiptRow(o)));
  }

  lemma ErrandsSnoc(outer: seq<Action>, o: OrderId, errands: seq<Errand>)
    requires errands != []
    ensures var n := |errands| - 1;
            outer + Errands(o, errands) == (outer + Errands(o, errands[..n])) + ErrandProgram(o, errands[n])
  {}

  lemma {:induction false} RunErrands(outer: seq<Action>, o: OrderId, errands: seq<Errand>, opening: map<int, int>)
    requires InOrder(outer) && OwnRows(HeldAfter(outer), o)
    requires forall k :: 0 <= k < |errands| && errands[k].Nested? ==> LedgerOk(errands[k].l, opening)
    ensures InOrder(outer + Errands(o, errands)) && OwnRows(HeldAfter(outer + Errands(o, errands)), o)
  {
    if errands == [] {
      assert outer + Errands(o, errands) == outer;
    } else {
      var n := |errands| - 1;
      var sofar := outer + Errands(o, errands[..n]);
      RunErrands(outer, o, errands[..n], opening);
      RunErrand(sofar, o, errands[n], opening);
      ErrandsSnoc(outer, o, errands);
    }
  }

  /** A transaction that climbs and then ends. */
  lemma ClimbThenEnd(locks: seq<Lock>)
    requires Climbing(locks)
    ensures Plan(Takes(locks) + [Free(0)])
  {
    TakesClimb(locks);
    Extend(Takes(locks), Free(0));
  }

  /** Every transaction of the shop follows a plan. */
  lemma ShopPlans(t: ShopTx, opening: map<int, int>)
    requires Sound(t, opening)
    ensures Plan(ProgramOf(t))
  {
    match t
    case Alone(l, tx) => LedgerPlans(l, opening, tx);
    case OrderTx(o, errands) =>
      OuterAlone(o);
      RunErrands([Take(OrderRow(o))], o, errands, opening);
      Extend([Take(OrderRow(o))] + Errands(o, errands), Free(0));
    case PaymentTx(o) => ClimbThenEnd([PaymentRow(o), OrderRow(o)]);
    case BuildTx(year) => ClimbThenEnd([YearRow(year)]);
    case ReceiptTx(o) => ClimbThenEnd([ReceiptRow(o)]);
    case MessageTx(ids) => ClimbThenEnd(MessageLocks(ids));
  }

  /** Whatever the shop's transactions are, however they interleave and roll back. */
  ghost predicate ShopEvents(opening: map<int, int>, events: seq<Event>, txs: seq<ShopTx>) {
    && |txs| == |events|
    && (forall k :: 0 <= k < |txs| ==> Sound(txs[k], opening))
    && (forall k :: 0 <= k < |events| && events[k].Start? ==> events[k].program == ProgramOf(txs[k]))
  }

  lemma ShopPlanned(opening: map<int, int>, events: seq<Event>, txs: seq<ShopTx>)
    requires ShopEvents(opening, events, txs)
    ensures Planned(events)
  {
    forall k | 0 <= k < |events| && events[k].Start? ensures Plan(events[k].program) {
      ShopPlans(txs[k], opening);
    }
  }

  /** No lock has two owners, nobody waits in a circle, and somebody can go on. */
  lemma DeadlockFree(opening: map<int, int>, events: seq<Event>, txs: seq<ShopTx>, ring: seq<nat>)
    requires ShopEvents(opening, events, txs)
    ensures var s := Happened(events);
            && (forall i, j, x :: 0 <= i < |s| && 0 <= j < |s| && x in Held(s[i]) && x in Held(s[j]) ==> i == j)
            && !Ring(s, ring)
            && ((exists i :: 0 <= i < |s| && Unfinished(s[i])) ==> exists i :: CanAdvance(s, i))
  {
    ShopPlanned(opening, events, txs);
    HappenedOk(events);
    NoWaitCycle(events, ring);
    Progress(events);
  }

  /**
   * From every such state, letting running transactions go on, one step at a time and without
   * rolling any back, brings all of them to their end with every lock freed.
   */
  lemma AllFinish(opening: map<int, int>, events: seq<Event>, txs: seq<ShopTx>) returns (more: seq<Event>)
    requires ShopEvents(opening, events, txs)
    ensures forall k :: 0 <= k < |more| ==> more[k].Advance?
    ensures var s, s' := Happened(events), Happened(events + more);
            |s'| == |s| && AllOver(s')
  {
    ShopPlanned(opening, events, txs);
    HappenedOk(events);
    more := CanFinish(Happened(events));
    HappenedOnward(events, more);
  }
}
