/**
 * The in-process provider (apps/inventory/providers/local.py): loops that update
 * rows in place inside a transaction, proved equal to the steps of `Ledgers`.
 */
module LocalProvider {
  import opened Wrappers
  import opened Totals
  import opened Lines
  import opened Books
  import opened Ledgers

  /** The primary keys of one hold group, ascending. */
  function GroupPks(holds: seq<Hold>, c: CheckoutId): seq<nat> {
    if holds == [] then []
    else
      GroupPks(holds[..|holds| - 1], c)
      + if holds[|holds| - 1].checkout == c then [|holds| - 1] else []
  }

  /** `n` consecutive primary keys. */
  function Appended(first: nat, n: nat): seq<nat> { seq(n, i => first + i) }

  function Releases(pks: seq<nat>): seq<Step> { seq(|pks|, i requires 0 <= i < |pks| => Release(pks[i])) }

  function Expiries(pks: seq<nat>, now: int): seq<Step> {
    seq(|pks|, i requires 0 <= i < |pks| => Expire(pks[i], now))
  }

  lemma RunSnoc(l: Ledger, steps: seq<Step>, s: Step)
    ensures Run(l, steps + [s]) == Next(Run(l, steps), s)
  {
    assert (steps + [s])[..|steps|] == steps;
  }

  class Provider {
    var stock: map<int, Counters>
    var holds: seq<Hold>
    var moves: seq<Movement>
    var keys: map<Key, seq<Line>>
    ghost const opening: map<int, int>

    function State(): Ledger
      reads this
    {
      Ledger(Book(stock, holds, moves), keys)
    }

    ghost predicate Valid()
      reads this
    {
      LedgerOk(State(), opening)
    }

    constructor (balances: map<int, int>)
      requires forall v :: v in balances ==> balances[v] >= 0
      ensures opening == balances && State() == Opened(balances) && Valid()
    {
      stock := map v | v in balances :: Counters(balances[v], 0);
      holds, moves, keys := [], [], map[];
      opening := balances;
      OpenedOk(balances);
    }

    /** One line: its counter and its row, or the refusal. */
    method HoldLine(c: CheckoutId, line: Line, expiresAt: int) returns (r: Result<nat, StockError>)
      modifies this`stock, this`holds
      ensures match PlaceHold(old(State()).book, c, line, expiresAt)
              case Err(e) => r == Err(e) && State() == old(State())
              case Ok(b) => r == Ok(|old(holds)|) && State() == old(State()).(book := b)
    {
      if line.qty < 1 {
        return Err(BadValue);
      }
      if line.variant !in stock {
        return Err(UnknownVariant);
      }
      var row := stock[line.variant];
      if row.Available() < line.qty {
        return Err(InsufficientStock);
      }
      stock := stock[line.variant := row.(reserved := row.reserved + line.qty)];
      holds := holds + [Hold(line.variant, line.qty, Active, c, None, expiresAt)];
      return Ok(|holds| - 1);
    }

    /** The loop of `ReserveLines`, line by line in variant order, stopping at the first refusal. */
    method HoldLines(c: CheckoutId, ordered: seq<Line>, expiresAt: int) returns (r: Result<seq<nat>, StockError>)
      modifies this`stock, this`holds
      ensures match HoldAll(old(State()).book, c, ordered, expiresAt)
              case Err(e) => r == Err(e)
              case Ok(b) => State().book == b && r == Ok(Appended(|old(holds)|, |ordered|))
    {
      var created: seq<nat> := [];
      for i := 0 to |ordered|
        invariant HoldAll(old(State()).book, c, ordered[..i], expiresAt) == Ok(State().book)
        invariant |holds| == |old(holds)| + i && created == Appended(|old(holds)|, i)
      {
        HoldAllNext(old(State()).book, c, ordered, expiresAt, i, State().book);
        var done := HoldLine(c, ordered[i], expiresAt);
        if done.Err? {
          return Err(done.error);
        }
        created := created + [done.value];
      }
      assert ordered[..|ordered|] == ordered;
      return Ok(created);
    }

    /** The claim of an id nobody holds, with its rows; a refusal rolls both back. */
    method ClaimLines(c: CheckoutId, ordered: seq<Line>, expiresAt: int) returns (r: Result<seq<nat>, StockError>)
      modifies this`stock, this`holds, this`keys
      ensures match HoldAll(old(State()).book, c, ordered, expiresAt)
              case Err(e) => r == Err(e) && State() == old(State())
              case Ok(b) =>
                r == Ok(Appended(|old(holds)|, |ordered|)) && State() == Ledger(b, old(keys)[ReserveKey(c) := ordered])
      ensures r.Ok? ==> RowsAdded(old(holds), holds, c, ordered, expiresAt, r.value)
    {
      AddedRows(State().book, c, ordered, expiresAt);
      var savedStock, savedHolds := stock, holds;
      r := HoldLines(c, ordered, expiresAt);
      if r.Err? {
        stock, holds := savedStock, savedHolds;
      } else {
        keys := keys[ReserveKey(c) := ordered];
      }
    }

    /** The claim was taken before: the group's rows, or a refusal of a payload that changed. */
    method ReplayLines(c: CheckoutId, ordered: seq<Line>) returns (r: Result<seq<nat>, StockError>)
      requires ReserveKey(c) in keys
      ensures r == if keys[ReserveKey(c)] == ordered then Ok(GroupPks(holds, c)) else Err(ReservationUnavailable)
    {
      if keys[ReserveKey(c)] != ordered {
        return Err(ReservationUnavailable);
      }
      return Ok(GroupPks(holds, c));
    }

    /** All lines under one id, or nothing. The rows returned are the new ones, or on a replay the group's. */
    method ReserveLines(c: CheckoutId, lines: seq<Line>, ttlMinutes: Option<nat>, now: int)
      returns (r: Result<seq<nat>, StockError>)
      modifies this`stock, this`holds, this`keys
      ensures match Ledgers.ReserveLines(old(State()), c, lines,
                                              now + 60 * (if ttlMinutes.None? || ttlMinutes.value == 0 then 15 else ttlMinutes.value))
              case Err(e) => r == Err(e) && State() == old(State())
              case Ok(l) =>
                && State() == l
                && r == Ok(if ReserveKey(c) in old(keys) then GroupPks(holds, c) else Appended(|old(holds)|, |lines|))
      ensures c == Blank || lines == [] ==> r == Err(BadValue)
      ensures c != Blank && lines != [] && ReserveKey(c) in old(keys) ==>
                if old(keys)[ReserveKey(c)] == SortLines(lines) then r.Ok? else r == Err(ReservationUnavailable)
      ensures ReserveKey(c) in old(keys) ==> State() == old(State())
      ensures r.Ok? && ReserveKey(c) !in old(keys) ==>
                RowsAdded(old(holds), holds, c, SortLines(lines),
                          now + 60 * (if ttlMinutes.None? || ttlMinutes.value == 0 then 15 else ttlMinutes.value), r.value)
    {
      if c == Blank || lines == [] {
        return Err(BadValue);
      }
      var ordered := SortLines(lines);
      SortLength(lines);
      if ReserveKey(c) in keys {
        r := ReplayLines(c, ordered);
        return;
      }
      r := ClaimLines(c, ordered, now + 60 * Ttl(ttlMinutes));
    }

    /** Converts one active hold into a sale. */
    method CommitReservation(pk: nat, order: Option<OrderId>) returns (r: Result<(), StockError>)
      requires pk < |holds|
      modifies this`stock, this`holds, this`moves
      ensures match CommitHold(old(State()).book, pk, order)
              case Err(e) => r == Err(e) && State() == old(State())
              case Ok(b) => r == Ok(()) && State() == old(State()).(book := b)
      ensures var h := old(holds)[pk];
              && (r == Err(UnknownVariant) <==> h.status == Active && h.variant !in old(stock))
              && (r == Err(InvalidReservationState) <==>
                    h.status != Active
                    || (h.variant in old(stock) && (old(stock)[h.variant].onHand < h.qty || old(stock)[h.variant].reserved < h.qty)))
              && (r.Err? ==> r.error in {UnknownVariant, InvalidReservationState})
    {
      var hold := holds[pk];
      if hold.status != Active {
        return Err(InvalidReservationState);
      }
      if hold.variant !in stock {
        return Err(UnknownVariant);
      }
      var row := stock[hold.variant];
      if row.onHand < hold.qty || row.reserved < hold.qty {
        return Err(InvalidReservationState);
      }
      stock := stock[hold.variant := Counters(row.onHand - hold.qty, row.reserved - hold.qty)];
      moves := moves + [Movement(hold.variant, -hold.qty, Sale, order)];
      holds := holds[pk := hold.(status := Committed, order := order)];
      return Ok(());
    }

    /** The loop of `CommitHolds`, stopping at the first refusal. */
    method CommitRows(c: CheckoutId, order: Option<OrderId>) returns (r: Result<map<int, int>, StockError>)
      modifies this`stock, this`holds, this`moves
      ensures match CommitUpTo(old(State()).book, c, order, |old(holds)|)
              case Err(e) => r == Err(e)
              case Ok((b, m)) => State().book == b && r == Ok(m)
    {
      var rows := holds;
      var committed: map<int, int> := map[];
      for pk := 0 to |rows|
        invariant |holds| == |rows| && keys == old(keys)
        invariant CommitUpTo(old(State()).book, c, order, pk) == Ok((State().book, committed))
      {
        CommitStops(old(State()).book, c, order, pk + 1);
        var row := rows[pk];
        if row.checkout == c && (row.status == Committed || row.status == Active) {
          if row.status == Committed {
            if row.order != order {
              return Err(InvalidReservationState);
            }
          } else {
            var done := CommitReservation(pk, order);
            if done.Err? {
              return Err(done.error);
            }
          }
          committed := Plus(committed, row.variant, row.qty);
        }
      }
      return Ok(committed);
    }

    /** Converts every active hold of a group, and returns what the group has committed. */
    method CommitHolds(c: CheckoutId, order: Option<OrderId>) returns (r: Result<map<int, int>, StockError>)
      modifies this`stock, this`holds, this`moves
      ensures State() == Next(old(State()), Commit(c, order))
      ensures match Ledgers.CommitHolds(old(State()), c, order)
              case Err(e) => r == Err(e)
              case Ok((_, m)) => r == Ok(m)
      ensures r.Ok? ==>
                && |holds| == |old(holds)|
                && (forall i :: 0 <= i < |holds| ==>
                      var h := old(holds)[i];
                      holds[i] == if h.checkout == c && h.status == Active then h.(status := Committed, order := order) else h)
                && (forall v :: (if v in r.value then r.value[v] else 0) == CommittedIn(State().book, c, v))
      ensures old(Valid()) && r.Err? ==>
                && r.error == InvalidReservationState
                && exists i :: 0 <= i < |old(holds)| && old(holds)[i].checkout == c
                               && old(holds)[i].status == Committed && old(holds)[i].order != order
    {
      var savedStock, savedHolds, savedMoves := stock, holds, moves;
      CommitOutcome(State(), c, order);
      if LedgerOk(State(), opening) {
        CommitRefused(State(), opening, c, order);
      }
      r := CommitRows(c, order);
      if r.Err? {
        stock, holds, moves := savedStock, savedHolds, savedMoves;
      }
    }

    /** `_end_active_reservation` under the row locks its callers hold. */
    method EndActiveReservation(pk: nat, terminal: HoldStatus) returns (r: Result<(), StockError>)
      requires pk < |holds|
      modifies this`stock, this`holds
      ensures match EndHold(old(State()).book, pk, terminal)
              case Err(e) => r == Err(e) && State() == old(State())
              case Ok(b) => r == Ok(()) && State() == old(State()).(book := b)
      ensures var h := old(holds)[pk];
              && (r == Err(UnknownVariant) <==> h.variant !in old(stock))
              && (r == Err(InvalidReservationState) <==> h.variant in old(stock) && old(stock)[h.variant].reserved < h.qty)
              && (r.Err? ==> r.error in {UnknownVariant, InvalidReservationState})
    {
      var hold := holds[pk];
      if hold.variant !in stock {
        return Err(UnknownVariant);
      }
      var row := stock[hold.variant];
      if row.reserved < hold.qty {
        return Err(InvalidReservationState);
      }
      stock := stock[hold.variant := row.(reserved := row.reserved - hold.qty)];
      holds := holds[pk := hold.(status := terminal)];
      return Ok(());
    }

    method ReleaseReservation(pk: nat) returns (r: Result<(), StockError>)
      requires pk < |holds|
      modifies this`stock, this`holds
      ensures State() == Next(old(State()), Release(pk))
      ensures r.Ok? <==> Attempt(old(State()), Release(pk)).Ok?
      ensures old(holds)[pk].status == Committed ==> r == Err(InvalidReservationState) && State() == old(State())
      ensures old(holds)[pk].status in {Released, Expired} ==> r == Ok(()) && State() == old(State())
    {
      var status := holds[pk].status;
      if status == Released || status == Expired {
        return Ok(());
      }
      if status == Committed {
        return Err(InvalidReservationState);
      }
      r := EndActiveReservation(pk, Released);
    }

    /** The active rows `select` picks, by primary key. */
    method ActivePks(select: Hold -> bool) returns (pks: seq<nat>)
      ensures Picked(holds, select, pks)
    {
      pks := [];
      for pk := 0 to |holds|
        invariant Picked(holds[..pk], select, pks)
      {
        if holds[pk].status == Active && select(holds[pk]) {
          pks := pks + [pk];
        }
      }
      assert holds[..|holds|] == holds;
    }

    /** The loop of `ReleaseHolds`: one transaction a row, stopping where one raises. */
    method ReleaseRows(ids: seq<nat>) returns (r: Result<nat, StockError>, released: nat)
      requires forall k :: 0 <= k < |ids| ==> ids[k] < |holds|
      modifies this`stock, this`holds
      ensures |holds| == |old(holds)| && released <= |ids|
      ensures State() == Run(old(State()), Releases(ids[..released]))
      ensures r.Ok? ==> released == |ids| && r.value == released
      ensures r.Err? ==> released < |ids| && Attempt(State(), Release(ids[released])).Err?
    {
      released := 0;
      while released < |ids|
        invariant released <= |ids| && |holds| == |old(holds)| && keys == old(keys)
        invariant State() == Run(old(State()), Releases(ids[..released]))
      {
        assert Releases(ids[..released + 1]) == Releases(ids[..released]) + [Release(ids[released])];
        RunSnoc(old(State()), Releases(ids[..released]), Release(ids[released]));
        var done := ReleaseReservation(ids[released]);
        if done.Err? {
          return Err(done.error), released;
        }
        released := released + 1;
      }
      return Ok(released), released;
    }

    /** Releases a group's active holds; an unknown id releases nothing and succeeds. */
    method ReleaseHolds(c: CheckoutId) returns (r: Result<nat, StockError>, ghost pks: seq<nat>)
      requires Valid()
      modifies this`stock, this`holds
      ensures Picked(old(holds), InGroup(c), pks) && r == Ok(|pks|)
      ensures State() == Run(old(State()), Releases(pks))
      ensures Ended(old(holds), holds, InGroup(c), Released)
      ensures forall i :: 0 <= i < |holds| ==>
                var h := old(holds)[i];
                holds[i] == if h.status == Active && h.checkout == c then h.(status := Released) else h
    {
      var ids := ActivePks(InGroup(c));
      pks := ids;
      var released;
      r, released := ReleaseRows(ids);
      assert r.Err? ==> Attempt(Run(old(State()), Releases(ids[..released])), Release(ids[released])).Err?;
      AlwaysCovered(old(State()), opening);
      ReleasesNeverRaise(old(State()), InGroup(c), ids, released);
      assert ids[..|ids|] == ids;
    }

    /** One row of the sweep, re-checked under the lock; a raising row is skipped. */
    method ExpireRow(pk: nat, now: int) returns (ended: bool)
      requires pk < |holds|
      modifies this`stock, this`holds
      ensures State() == Next(old(State()), Expire(pk, now))
      ensures ended <==> State() != old(State())
    {
      ExpireChanges(State(), pk, now);
      if holds[pk].status != Active || holds[pk].expiresAt > now {
        return false;
      }
      var done := EndActiveReservation(pk, Expired);
      return done.Ok?;
    }

    /** The loop of the sweep, one transaction a row. */
    method ExpireRows(ids: seq<nat>, now: int) returns (expired: nat)
      requires forall k :: 0 <= k < |ids| ==> ids[k] < |holds|
      modifies this`stock, this`holds
      ensures State() == Run(old(State()), Expiries(ids, now))
      ensures expired == ExpiredCount(old(State()), ids, now, |ids|)
    {
      expired := 0;
      for k := 0 to |ids|
        invariant |holds| == |old(holds)|
        invariant State() == Run(old(State()), Expiries(ids[..k], now))
        invariant expired == ExpiredCount(old(State()), ids, now, k)
      {
        ExpiriesNext(old(State()), ids, now, k);
        var ended := ExpireRow(ids[k], now);
        if ended {
          expired := expired + 1;
        }
      }
      assert ids[..|ids|] == ids;
    }

    /** The TTL sweep: no overdue hold is active afterwards, nothing else changed, and the count is right. */
    method ReleaseExpiredReservations(now: int) returns (expired: nat, ghost pks: seq<nat>)
      requires Valid()
      modifies this`stock, this`holds
      ensures Picked(old(holds), Overdue(now), pks) && expired == |pks|
      ensures State() == Run(old(State()), Expiries(pks, now))
      ensures Ended(old(holds), holds, Overdue(now), Expired)
      ensures forall i :: 0 <= i < |holds| ==>
                var h := old(holds)[i];
                holds[i] == if h.status == Active && h.expiresAt <= now then h.(status := Expired) else h
    {
      var ids := ActivePks(Overdue(now));
      pks := ids;
      expired := ExpireRows(ids, now);
      AlwaysCovered(old(State()), opening);
      ExpiriesEndAll(old(State()), ids, now, |ids|);
      ExpiriesCount(old(State()), ids, now, |ids|);
      assert ids[..|ids|] == ids;
      EndedAll(old(holds), holds, Overdue(now), ids, Expired);
    }

    method AdjustStock(v: int, delta: int, reason: Reason, ref: Option<OrderId>) returns (r: Result<(), StockError>)
      modifies this`stock, this`moves
      ensures State() == Next(old(State()), Adjust(v, delta, reason, ref))
      ensures match Attempt(old(State()), Adjust(v, delta, reason, ref))
              case Err(e) => r == Err(e)
              case Ok(_) => r == Ok(())
      ensures r == Err(InvalidStockAdjustment) <==>
                || delta == 0 || reason == Sale || (delta < 0 && reason in {Restock, Return})
                || (v in old(stock) && old(stock)[v].onHand + delta < old(stock)[v].reserved)
      ensures r.Err? && r.error != InvalidStockAdjustment ==> r.error == UnknownVariant && v !in old(stock)
      ensures if r.Ok? then
                && v in old(stock)
                && stock == old(stock)[v := Counters(old(stock)[v].onHand + delta, old(stock)[v].reserved)]
                && moves == old(moves) + [Movement(v, delta, reason, ref)]
              else State() == old(State())
    {
      if delta == 0 {
        return Err(InvalidStockAdjustment);
      }
      if reason == Sale {
        return Err(InvalidStockAdjustment);
      }
      if (reason == Restock || reason == Return) && delta < 0 {
        return Err(InvalidStockAdjustment);
      }
      if v !in stock {
        return Err(UnknownVariant);
      }
      var row := stock[v];
      var newOnHand := row.onHand + delta;
      if newOnHand < row.reserved {
        return Err(InvalidStockAdjustment);
      }
      stock := stock[v := row.(onHand := newOnHand)];
      moves := moves + [Movement(v, delta, reason, ref)];
      return Ok(());
    }

    /** `aggregate(Sum("delta"))` over one order's movements of one variant and reason. */
    method SumDeltas(v: int, order: OrderId, reason: Reason) returns (total: int)
      ensures reason == Sale ==> total == -SoldUnits(State().book, order, v)
      ensures reason == Return ==> total == ReturnedUnits(State().book, order, v)
    {
      total := 0;
      for i := 0 to |moves|
        invariant reason == Sale ==> total == -Total(moves[..i], SoldFor(Some(order), v))
        invariant reason == Return ==> total == Total(moves[..i], ReturnedFor(Some(order), v))
      {
        assert moves[..i + 1][..i] == moves[..i];
        if moves[i].variant == v && moves[i].order == Some(order) && moves[i].reason == reason {
          total := total + moves[i].delta;
        }
      }
      assert moves[..|moves|] == moves;
    }

    /** One line of a refund: what is still out, never more than the line. */
    method RestoreOne(order: OrderId, line: Line) returns (r: Result<(), StockError>)
      modifies this`stock, this`moves
      ensures match RestoreLine(old(State()).book, order, line)
              case Err(e) => r == Err(e)
              case Ok(b) => State().book == b && r == Ok(())
    {
      if line.variant !in stock {
        return Err(UnknownVariant);
      }
      var sales := SumDeltas(line.variant, order, Sale);
      var returned := SumDeltas(line.variant, order, Return);
      var quantity := Min(line.qty, Max(0, -sales - returned));
      if quantity == 0 {
        return Ok(());
      }
      r := AdjustStock(line.variant, quantity, Return, Some(order));
    }

    /** The loop of `RestoreOrderStock`, stopping at the first refusal. */
    method RestoreLines(order: OrderId, ordered: seq<Line>) returns (r: Result<(), StockError>)
      modifies this`stock, this`moves
      ensures match RestoreAll(old(State()).book, order, ordered)
              case Err(e) => r == Err(e)
              case Ok(b) => State().book == b && r == Ok(())
    {
      for i := 0 to |ordered|
        invariant RestoreAll(old(State()).book, order, ordered[..i]) == Ok(State().book)
      {
        assert ordered[..i + 1][..i] == ordered[..i];
        RestoreStops(old(State()).book, order, ordered, i + 1);
        var done := RestoreOne(order, ordered[i]);
        if done.Err? {
          return Err(done.error);
        }
      }
      assert ordered[..|ordered|] == ordered;
      return Ok(());
    }

    /** Restores a full refund once; a replay is a no-op, a changed payload is refused. */
    method RestoreOrderStock(order: OrderId, lines: seq<Line>) returns (r: Result<(), StockError>)
      modifies this`stock, this`moves, this`keys
      ensures State() == Next(old(State()), Restore(order, lines))
      ensures match Attempt(old(State()), Restore(order, lines))
              case Err(e) => r == Err(e)
              case Ok(_) => r == Ok(())
      ensures RefundKey(order) in old(keys) ==>
                && State() == old(State())
                && r == if old(keys)[RefundKey(order)] == SortLines(SortLines(lines)) then Ok(()) else Err(InvalidStockAdjustment)
    {
      var ordered := SortLines(lines);
      var fingerprint := SortLines(ordered);
      if RefundKey(order) in keys {
        if keys[RefundKey(order)] != fingerprint {
          return Err(InvalidStockAdjustment);
        }
        return Ok(());
      }
      var savedStock, savedMoves := stock, moves;
      r := RestoreLines(order, ordered);
      if r.Err? {
        stock, moves := savedStock, savedMoves;
      } else {
        keys := keys[RefundKey(order) := fingerprint];
      }
    }
  }

  lemma SortLength(lines: seq<Line>)
    ensures |SortLines(lines)| == |lines|
  {
    SortAscending(lines);
  }

  /** The keys of exactly the group's rows, ascending. */
  ghost predicate GroupKeys(holds: seq<Hold>, c: CheckoutId, pks: seq<nat>) {
    && (forall pk: nat :: pk in pks <==> pk < |holds| && holds[pk].checkout == c)
    && (forall j, k :: 0 <= j < k < |pks| ==> pks[j] < pks[k])
  }

  lemma {:induction false} GroupPksExactly(holds: seq<Hold>, c: CheckoutId)
    ensures GroupKeys(holds, c, GroupPks(holds, c))
  {
    if holds != [] {
      var n := |holds| - 1;
      var before := GroupPks(holds[..n], c);
      GroupPksExactly(holds[..n], c);
      forall k | 0 <= k < |before| ensures before[k] < n {
        assert before[k] in before;
      }
      assert GroupPks(holds, c) == before + if holds[n].checkout == c then [n] else [];
    }
  }

  /** One active row a line was added, in order, and `pks` are their keys; no other row changed. */
  ghost predicate RowsAdded(was: seq<Hold>, now: seq<Hold>, c: CheckoutId, lines: seq<Line>, expiresAt: int, pks: seq<nat>) {
    && |now| == |was| + |lines| && now[..|was|] == was && |pks| == |lines|
    && forall k :: 0 <= k < |lines| ==>
         && pks[k] == |was| + k
         && now[pks[k]] == Hold(lines[k].variant, lines[k].qty, Active, c, None, expiresAt)
  }

  lemma {:induction false} AddedRows(b: Book, c: CheckoutId, lines: seq<Line>, e: int)
    ensures HoldAll(b, c, lines, e).Ok? ==>
              RowsAdded(b.holds, HoldAll(b, c, lines, e).value.holds, c, lines, e, Appended(|b.holds|, |lines|))
  {
    if lines != [] {
      AddedRows(b, c, lines[..|lines| - 1], e);
    }
  }

  /** What a commit that succeeds does to the rows, and what it returns. */
  lemma CommitOutcome(l: Ledger, c: CheckoutId, order: Option<OrderId>)
    ensures Ledgers.CommitHolds(l, c, order).Ok? ==>
              var (l', m) := Ledgers.CommitHolds(l, c, order).value;
              && |l'.book.holds| == |l.book.holds|
              && (forall i :: 0 <= i < |l.book.holds| ==>
                    var h := l.book.holds[i];
                    l'.book.holds[i] == if h.checkout == c && h.status == Active then h.(status := Committed, order := order) else h)
              && forall v :: (if v in m then m[v] else 0) == CommittedIn(l'.book, c, v)
  {
    if Ledgers.CommitHolds(l, c, order).Ok? {
      var (l', m) := Ledgers.CommitHolds(l, c, order).value;
      CommitShape(l, c, order);
      forall v ensures (if v in m then m[v] else 0) == CommittedIn(l'.book, c, v) {
        CommittedMapTotals(l'.book.holds, c, v);
      }
    }
  }

  lemma {:induction false} CommitError(b: Book, opening: map<int, int>, c: CheckoutId, order: Option<OrderId>, n: nat)
    requires BookOk(b, opening) && n <= |b.holds| && CommitUpTo(b, c, order, n).Err?
    ensures CommitUpTo(b, c, order, n).error == InvalidReservationState
  {
    if CommitUpTo(b, c, order, n - 1).Err? {
      CommitError(b, opening, c, order, n - 1);
    } else if b.holds[n - 1].status == Active {
      CommitUpToKeeps(b, opening, c, order, n - 1);
      ActiveCommits(CommitUpTo(b, c, order, n - 1).value.0, opening, n - 1, order);
    }
  }

  /** A sound ledger refuses a commit only of a group that was sold to another order. */
  lemma CommitRefused(l: Ledger, opening: map<int, int>, c: CheckoutId, order: Option<OrderId>)
    requires LedgerOk(l, opening)
    ensures Ledgers.CommitHolds(l, c, order).Err? ==>
              && Ledgers.CommitHolds(l, c, order).error == InvalidReservationState
              && exists i :: 0 <= i < |l.book.holds| && l.book.holds[i].checkout == c
                             && l.book.holds[i].status == Committed && l.book.holds[i].order != order
  {
    CommitSucceeds(l, opening, c, order);
    if Ledgers.CommitHolds(l, c, order).Err? {
      CommitError(l.book, opening, c, order, |l.book.holds|);
    }
  }

  /** One more line of a reserve that has gone well so far. */
  lemma HoldAllNext(b: Book, c: CheckoutId, lines: seq<Line>, e: int, n: nat, mid: Book)
    requires n < |lines| && HoldAll(b, c, lines[..n], e) == Ok(mid)
    ensures HoldAll(b, c, lines[..n + 1], e) == PlaceHold(mid, c, lines[n], e)
    ensures PlaceHold(mid, c, lines[n], e).Err? ==> HoldAll(b, c, lines, e) == PlaceHold(mid, c, lines[n], e)
  {
    assert lines[..n + 1][..n] == lines[..n];
    HoldAllStops(b, c, lines, e, n + 1);
  }

  lemma {:induction false} GroupPksAppend(holds: seq<Hold>, added: seq<Hold>, c: CheckoutId)
    requires forall i :: 0 <= i < |added| ==> added[i].checkout == c
    ensures GroupPks(holds + added, c) == GroupPks(holds, c) + Appended(|holds|, |added|)
  {
    if added == [] {
      assert holds + added == holds;
    } else {
      var n := |added| - 1;
      assert (holds + added)[..|holds| + n] == holds + added[..n];
      GroupPksAppend(holds, added[..n], c);
      assert Appended(|holds|, n + 1) == Appended(|holds|, n) + [|holds| + n];
    }
  }

  /** A first reserve and every replay of it return the same rows: the group's, for good. */
  lemma ReserveReturnsGroup(l: Ledger, opening: map<int, int>, c: CheckoutId, lines: seq<Line>, e: int)
    requires LedgerOk(l, opening) && ReserveKey(c) !in l.keys && Ledgers.ReserveLines(l, c, lines, e).Ok?
    ensures GroupPks(Ledgers.ReserveLines(l, c, lines, e).value.book.holds, c) == Appended(|l.book.holds|, |lines|)
  {
    ReserveFacts(l, opening, c, lines, e);
    FreshFacts(c, SortLines(lines), e, c);
    SortAscending(lines);
    GroupPksAppend(l.book.holds, Fresh(c, SortLines(lines), e), c);
    UnclaimedHasNoPks(l, opening, c);
    assert [] + Appended(|l.book.holds|, |lines|) == Appended(|l.book.holds|, |lines|);
  }

  /** What one row transaction of the sweep does. */
  lemma ExpireChanges(l: Ledger, pk: nat, now: int)
    requires pk < |l.book.holds|
    ensures var due := l.book.holds[pk].status == Active && l.book.holds[pk].expiresAt <= now;
            && Next(l, Expire(pk, now))
               == (if due && EndHold(l.book, pk, Expired).Ok? then l.(book := EndHold(l.book, pk, Expired).value) else l)
            && (Next(l, Expire(pk, now)) != l <==> due && EndHold(l.book, pk, Expired).Ok?)
  {
    var due := l.book.holds[pk].status == Active && l.book.holds[pk].expiresAt <= now;
    if due && EndHold(l.book, pk, Expired).Ok? {
      assert EndHold(l.book, pk, Expired).value.holds[pk].status == Expired;
    }
  }

  /** How many of the first `n` row transactions changed anything. */
  function ExpiredCount(l: Ledger, ids: seq<nat>, now: int, n: nat): nat
    requires n <= |ids|
  {
    if n == 0 then 0
    else
      var was := Run(l, Expiries(ids[..n - 1], now));
      ExpiredCount(l, ids, now, n - 1) + if Next(was, Expire(ids[n - 1], now)) != was then 1 else 0
  }

  /** One more row of the sweep's run, and of its count. */
  lemma ExpiriesNext(l: Ledger, ids: seq<nat>, now: int, k: nat)
    requires k < |ids|
    ensures var was := Run(l, Expiries(ids[..k], now));
            && Run(l, Expiries(ids[..k + 1], now)) == Next(was, Expire(ids[k], now))
            && ExpiredCount(l, ids, now, k + 1)
               == ExpiredCount(l, ids, now, k) + if Next(was, Expire(ids[k], now)) != was then 1 else 0
  {
    assert Expiries(ids[..k + 1], now) == Expiries(ids[..k], now) + [Expire(ids[k], now)];
    RunSnoc(l, Expiries(ids[..k], now), Expire(ids[k], now));
  }

  /** `pks` are exactly the active rows `select` picks, ascending. */
  ghost predicate Picked(holds: seq<Hold>, select: Hold -> bool, pks: seq<nat>) {
    && (forall k :: 0 <= k < |pks| ==> pks[k] < |holds| && holds[pks[k]].status == Active && select(holds[pks[k]]))
    && (forall pk :: 0 <= pk < |holds| && holds[pk].status == Active && select(holds[pk]) ==> pk in pks)
    && (forall j, k :: 0 <= j < k < |pks| ==> pks[j] < pks[k])
  }

  /** Every active row `select` picks was given `terminal`, and no other row changed. */
  ghost predicate Ended(was: seq<Hold>, now: seq<Hold>, select: Hold -> bool, terminal: HoldStatus) {
    && |now| == |was|
    && forall i :: 0 <= i < |was| ==>
         now[i] == if was[i].status == Active && select(was[i]) then was[i].(status := terminal) else was[i]
  }

  /** The first `n` of `ids` were given `terminal`, and no other row changed. */
  ghost predicate EndedFirst(was: seq<Hold>, now: seq<Hold>, ids: seq<nat>, n: nat, terminal: HoldStatus)
    requires n <= |ids|
  {
    && |now| == |was|
    && forall i :: 0 <= i < |was| ==> now[i] == if i in ids[..n] then was[i].(status := terminal) else was[i]
  }

  lemma EndedFirstStep(was: seq<Hold>, now: seq<Hold>, ids: seq<nat>, n: nat, terminal: HoldStatus)
    requires n < |ids| && ids[n] < |was| && EndedFirst(was, now, ids, n, terminal)
    requires forall j, k :: 0 <= j < k < |ids| ==> ids[j] < ids[k]
    ensures now[ids[n]] == was[ids[n]]
    ensures EndedFirst(was, now[ids[n] := now[ids[n]].(status := terminal)], ids, n + 1, terminal)
  {
    assert ids[n] !in ids[..n];
    assert ids[..n + 1] == ids[..n] + [ids[n]];
  }

  lemma EndedAll(was: seq<Hold>, now: seq<Hold>, select: Hold -> bool, ids: seq<nat>, terminal: HoldStatus)
    requires Picked(was, select, ids) && EndedFirst(was, now, ids, |ids|, terminal)
    ensures Ended(was, now, select, terminal)
  {
    assert ids[..|ids|] == ids;
  }

  /** `r` names rows still active, and each row's own transaction succeeds. */
  lemma EndOneMore(l: Ledger, ids: seq<nat>, n: nat, steps: seq<Step>, s: Step, terminal: HoldStatus)
    requires n < |ids| && (forall k :: 0 <= k < |ids| ==> ids[k] < |l.book.holds| && l.book.holds[ids[k]].status == Active)
    requires forall j, k :: 0 <= j < k < |ids| ==> ids[j] < ids[k]
    requires EndedFirst(l.book.holds, Run(l, steps).book.holds, ids, n, terminal)
    requires EndHold(Run(l, steps).book, ids[n], terminal).Ok?
    requires Next(Run(l, steps), s).book == EndHold(Run(l, steps).book, ids[n], terminal).value
    ensures EndedFirst(l.book.holds, Run(l, steps + [s]).book.holds, ids, n + 1, terminal)
  {
    RunSnoc(l, steps, s);
    EndedFirstStep(l.book.holds, Run(l, steps).book.holds, ids, n, terminal);
  }

  lemma StillActive(was: seq<Hold>, now: seq<Hold>, ids: seq<nat>, n: nat, terminal: HoldStatus)
    requires n < |ids| && ids[n] < |was| && EndedFirst(was, now, ids, n, terminal)
    requires forall j, k :: 0 <= j < k < |ids| ==> ids[j] < ids[k]
    ensures ids[n] < |now| && now[ids[n]] == was[ids[n]]
  {
    EndedFirstStep(was, now, ids, n, terminal);
  }

  /** If the row is active, its units can be given back. */
  ghost predicate RowCovered(b: Book, pk: nat) {
    pk < |b.holds| && b.holds[pk].status == Active ==> EndHold(b, pk, Released).Ok? && EndHold(b, pk, Expired).Ok?
  }

  /** In a sound ledger every active row stays covered, whatever ran before. */
  lemma AlwaysCovered(l: Ledger, opening: map<int, int>)
    requires LedgerOk(l, opening)
    ensures AllCovered(l)
  {
    forall steps, pk ensures RowCovered(Run(l, steps).book, pk) {
      RunKeeps(l, opening, steps);
      CoveredNow(Run(l, steps).book, opening, pk);
    }
  }

  lemma CoveredNow(b: Book, opening: map<int, int>, pk: nat)
    requires BookOk(b, opening)
    ensures RowCovered(b, pk)
  {
    if pk < |b.holds| && b.holds[pk].status == Active {
      GuardsNeverFire(b, opening, pk, None, Released);
      GuardsNeverFire(b, opening, pk, None, Expired);
    }
  }

  /** Steps before which every row that is active can be ended. */
  ghost predicate AllCovered(l: Ledger) { forall steps, pk :: RowCovered(Run(l, steps).book, pk) }

  /** Distinct active rows, ascending. */
  ghost predicate ActiveIds(holds: seq<Hold>, ids: seq<nat>) {
    && (forall k :: 0 <= k < |ids| ==> ids[k] < |holds| && holds[ids[k]].status == Active)
    && (forall j, k :: 0 <= j < k < |ids| ==> ids[j] < ids[k])
  }

  /** One more of the rows is released. */
  lemma ReleasesOne(l: Ledger, ids: seq<nat>, n: nat)
    requires AllCovered(l) && ActiveIds(l.book.holds, ids) && n < |ids|
    requires EndedFirst(l.book.holds, Run(l, Releases(ids[..n])).book.holds, ids, n, Released)
    ensures ids[n] < |l.book.holds| == |Run(l, Releases(ids[..n])).book.holds|
    ensures Attempt(Run(l, Releases(ids[..n])), Release(ids[n])).Ok?
    ensures EndedFirst(l.book.holds, Run(l, Releases(ids[..n + 1])).book.holds, ids, n + 1, Released)
  {
    var steps := Releases(ids[..n]);
    assert Releases(ids[..n + 1]) == steps + [Release(ids[n])];
    assert RowCovered(Run(l, steps).book, ids[n]);
    StillActive(l.book.holds, Run(l, steps).book.holds, ids, n, Released);
    EndOneMore(l, ids, n, steps, Release(ids[n]), Released);
  }

  lemma {:induction false} ReleasesEnd(l: Ledger, ids: seq<nat>, n: nat)
    requires AllCovered(l) && ActiveIds(l.book.holds, ids) && n <= |ids|
    ensures EndedFirst(l.book.holds, Run(l, Releases(ids[..n])).book.holds, ids, n, Released)
  {
    if n == 0 {
      assert Releases(ids[..0]) == [];
      assert ids[..0] == [];
    } else {
      ReleasesEnd(l, ids, n - 1);
      ReleasesOne(l, ids, n - 1);
    }
  }

  /** Releasing rows that are active raises nowhere. */
  lemma ReleasesNeverRaise(l: Ledger, select: Hold -> bool, ids: seq<nat>, n: nat)
    requires AllCovered(l) && Picked(l.book.holds, select, ids) && n <= |ids|
    ensures var l' := Run(l, Releases(ids[..n]));
            && EndedFirst(l.book.holds, l'.book.holds, ids, n, Released)
            && (n < |ids| ==> ids[n] < |l'.book.holds| && Attempt(l', Release(ids[n])).Ok?)
            && (n == |ids| ==> Ended(l.book.holds, l'.book.holds, select, Released))
  {
    ReleasesEnd(l, ids, n);
    if n < |ids| {
      ReleasesOne(l, ids, n);
    } else {
      EndedAll(l.book.holds, Run(l, Releases(ids[..n])).book.holds, select, ids, Released);
    }
  }

  /** One more of the overdue rows is expired, and its transaction changes the ledger. */
  lemma ExpiresOne(l: Ledger, ids: seq<nat>, now: int, n: nat)
    requires AllCovered(l) && ActiveIds(l.book.holds, ids) && n < |ids| && l.book.holds[ids[n]].expiresAt <= now
    requires EndedFirst(l.book.holds, Run(l, Expiries(ids[..n], now)).book.holds, ids, n, Expired)
    ensures EndedFirst(l.book.holds, Run(l, Expiries(ids[..n + 1], now)).book.holds, ids, n + 1, Expired)
    ensures var was := Run(l, Expiries(ids[..n], now)); Next(was, Expire(ids[n], now)) != was
  {
    var steps := Expiries(ids[..n], now);
    assert Expiries(ids[..n + 1], now) == steps + [Expire(ids[n], now)];
    assert RowCovered(Run(l, steps).book, ids[n]);
    StillActive(l.book.holds, Run(l, steps).book.holds, ids, n, Expired);
    ExpireChanges(Run(l, steps), ids[n], now);
    EndOneMore(l, ids, n, steps, Expire(ids[n], now), Expired);
  }

  /** Expiring overdue rows ends every one of them. */
  lemma {:induction false} ExpiriesEndAll(l: Ledger, ids: seq<nat>, now: int, n: nat)
    requires AllCovered(l) && Picked(l.book.holds, Overdue(now), ids) && n <= |ids|
    ensures EndedFirst(l.book.holds, Run(l, Expiries(ids[..n], now)).book.holds, ids, n, Expired)
  {
    if n == 0 {
      assert Expiries(ids[..0], now) == [];
      assert ids[..0] == [];
    } else {
      ExpiriesEndAll(l, ids, now, n - 1);
      ExpiresOne(l, ids, now, n - 1);
    }
  }

  /** Each overdue row counts once. */
  lemma {:induction false} ExpiriesCount(l: Ledger, ids: seq<nat>, now: int, n: nat)
    requires AllCovered(l) && Picked(l.book.holds, Overdue(now), ids) && n <= |ids|
    ensures ExpiredCount(l, ids, now, n) == n
  {
    if n > 0 {
      ExpiriesCount(l, ids, now, n - 1);
      ExpiriesEndAll(l, ids, now, n - 1);
      ExpiresOne(l, ids, now, n - 1);
    }
  }

  lemma {:induction false} CommitStops(b: Book, c: CheckoutId, order: Option<OrderId>, n: nat)
    requires n <= |b.holds|
    ensures CommitUpTo(b, c, order, n).Err? ==> CommitUpTo(b, c, order, |b.holds|) == CommitUpTo(b, c, order, n)
    decreases |b.holds| - n
  {
    if n < |b.holds| {
      CommitStops(b, c, order, n + 1);
    }
  }

  lemma {:induction false} RestoreStops(b: Book, order: OrderId, lines: seq<Line>, n: nat)
    requires n <= |lines|
    ensures RestoreAll(b, order, lines[..n]).Err? ==> RestoreAll(b, order, lines) == RestoreAll(b, order, lines[..n])
    decreases |lines| - n
  {
    if n == |lines| {
      assert lines[..n] == lines;
    } else {
      RestoreStops(b, order, lines, n + 1);
      assert lines[..n + 1][..n] == lines[..n];
    }
  }

  lemma {:induction false} NoPks(holds: seq<Hold>, c: CheckoutId)
    requires GroupLines(holds, c) == []
    ensures GroupPks(holds, c) == []
  {
    if holds != [] {
      NoPks(holds[..|holds| - 1], c);
    }
  }

  lemma UnclaimedHasNoPks(l: Ledger, opening: map<int, int>, c: CheckoutId)
    requires LedgerOk(l, opening)
    ensures ReserveKey(c) !in l.keys ==> GroupPks(l.book.holds, c) == []
  {
    assert GroupOk(l, c);
    if ReserveKey(c) !in l.keys {
      NoPks(l.book.holds, c);
    }
  }
}
