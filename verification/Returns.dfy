/**
 * Returns that name an order, at the remote ledger (services/inventory/api.py): each is cut to
 * what of the order is still out, so no traffic returns more than was sold.
 */
module Returns {
  import opened Wrappers
  import opened Totals
  import opened Lines
  import opened Books
  import opened Ledgers
  import opened Services

  /** Every hold asks for at least one unit. */
  ghost predicate Stocky(holds: seq<Hold>) { forall i :: 0 <= i < |holds| ==> holds[i].qty >= 1 }

  /** And no order has got back more than it was sold. */
  ghost predicate ReturnsOk(b: Book) {
    && Stocky(b.holds)
    && (forall o, v :: 0 <= ReturnedUnits(b, o, v) <= SoldUnits(b, o, v))
  }

  /** What one more movement adds to what an order was sold and got back. */
  lemma MovementUnits(b: Book, m: Movement, o: OrderId, v: int)
    ensures var more := b.(moves := b.moves + [m]);
            && SoldUnits(more, o, v)
               == SoldUnits(b, o, v) + (if m.reason == Sale && m.order == Some(o) && m.variant == v then -m.delta else 0)
            && ReturnedUnits(more, o, v)
               == ReturnedUnits(b, o, v) + (if m.reason == Return && m.order == Some(o) && m.variant == v then m.delta else 0)
  {
    TotalSnoc(b.moves, m, SoldFor(Some(o), v));
    TotalSnoc(b.moves, m, ReturnedFor(Some(o), v));
  }

  /** The units of an adjustment that reach the shelf. */
  ghost predicate Counts(b: Book, after: Book, v: int, d: int, reason: Reason, order: Option<OrderId>) {
    && v in b.stock && after.holds == b.holds
    && after.stock == b.stock[v := Counters(b.stock[v].onHand + d, b.stock[v].reserved)]
    && after.moves == b.moves + if d == 0 then [] else [Movement(v, d, reason, order)]
  }

  /**
   * An accepted return of `delta` units that names an order brings back some `d` of them: all,
   * if so much is still out, and never more than is. The shelf and the trail gain the same `d`.
   */
  lemma AcceptedReturn(b: Book, v: int, delta: int, o: OrderId) returns (d: int)
    requires ServeAdjust(b, v, delta, Some(Return), Some(o)).Ok?
    ensures var after, out := ServeAdjust(b, v, delta, Some(Return), Some(o)).value.0, SoldUnits(b, o, v) - ReturnedUnits(b, o, v);
            && 0 <= d <= delta && (delta <= out ==> d == delta) && (0 <= out <= delta ==> d == out) && (out <= 0 ==> d == 0)
            && Counts(b, after, v, d, Return, Some(o))
            && ReturnedUnits(after, o, v) == ReturnedUnits(b, o, v) + d && SoldUnits(after, o, v) == SoldUnits(b, o, v)
            && (out >= 0 ==> ReturnedUnits(after, o, v) <= SoldUnits(after, o, v))
  {
    var after := ServeAdjust(b, v, delta, Some(Return), Some(o)).value.0;
    d := after.stock[v].onHand - b.stock[v].onHand;
    MovementUnits(b, Movement(v, d, Return, Some(o)), o, v);
    assert b.moves + [] == b.moves;
  }

  /** Any other accepted adjustment counts in full. */
  lemma AcceptedInFull(b: Book, v: int, delta: int, reason: Reason, order: Option<OrderId>)
    requires ServeAdjust(b, v, delta, Some(reason), order).Ok? && !(reason == Return && order.Some?)
    ensures Counts(b, ServeAdjust(b, v, delta, Some(reason), order).value.0, v, delta, reason, order)
  {}

  /**
   * Which adjustments are accepted, and how the others are refused, in a book that is not
   * over-reserved.
   */
  lemma AdjustRefusals(b: Book, v: int, delta: int, reason: Option<Reason>, order: Option<OrderId>)
    requires v in b.stock ==> b.stock[v].reserved <= b.stock[v].onHand
    ensures var r := ServeAdjust(b, v, delta, reason, order);
            var malformed := delta == 0 || reason in {None, Some(Sale)} || (delta < 0 && reason in {Some(Restock), Some(Return)});
            && (r == Err(Answer(400, Refusal(Invalid))) <==> malformed)
            && (r == Err(Answer(404, Refusal(NoSuchVariant))) <==> !malformed && v !in b.stock)
            && (r == Err(Answer(409, Refusal(WouldBreak))) <==>
                  !malformed && v in b.stock && b.stock[v].onHand + delta < b.stock[v].reserved)
            && (r.Ok? <==> !malformed && v in b.stock && b.stock[v].reserved <= b.stock[v].onHand + delta)
  {}

  lemma AdjustReturnsOk(b: Book, v: int, delta: int, reason: Option<Reason>, order: Option<OrderId>)
    requires ReturnsOk(b) && ServeAdjust(b, v, delta, reason, order).Ok?
    ensures ReturnsOk(ServeAdjust(b, v, delta, reason, order).value.0)
  {
    var after := ServeAdjust(b, v, delta, reason, order).value.0;
    if reason == Some(Return) && order.Some? {
      var d := AcceptedReturn(b, v, delta, order.value);
      forall o, u ensures 0 <= ReturnedUnits(after, o, u) <= SoldUnits(after, o, u) {
        MovementUnits(b, Movement(v, d, Return, order), o, u);
      }
    } else {
      forall o, u ensures 0 <= ReturnedUnits(after, o, u) <= SoldUnits(after, o, u) {
        MovementUnits(b, Movement(v, delta, reason.value, order), o, u);
      }
    }
  }

  lemma SellReturnsOk(b: Book, pk: nat, order: Option<OrderId>)
    requires ReturnsOk(b) && pk < |b.holds| && SellRow(b, pk, order).Ok?
    ensures ReturnsOk(SellRow(b, pk, order).value)
  {
    var h := b.holds[pk];
    forall o, u
      ensures 0 <= ReturnedUnits(SellRow(b, pk, order).value, o, u) <= SoldUnits(SellRow(b, pk, order).value, o, u)
    {
      MovementUnits(b, Movement(h.variant, -h.qty, Sale, order), o, u);
    }
  }

  lemma {:induction false} SellRowsReturnsOk(b: Book, pks: seq<nat>, order: Option<OrderId>)
    requires ReturnsOk(b) && (forall k :: 0 <= k < |pks| ==> pks[k] < |b.holds|) && SellRows(b, pks, order).Ok?
    ensures ReturnsOk(SellRows(b, pks, order).value)
  {
    if pks != [] {
      var n := |pks| - 1;
      SellRowsReturnsOk(b, pks[..n], order);
      SellReturnsOk(SellRows(b, pks[..n], order).value, pks[n], order);
    }
  }

  /** Without a movement nothing is sold or returned. */
  lemma SameTrail(b: Book, after: Book)
    requires ReturnsOk(b) && after.moves == b.moves && Stocky(after.holds)
    ensures ReturnsOk(after)
  {
    forall o, v ensures 0 <= ReturnedUnits(after, o, v) <= SoldUnits(after, o, v) {
      assert ReturnedUnits(after, o, v) == ReturnedUnits(b, o, v);
    }
  }

  lemma {:induction false} EndRowsTrail(b: Book, pks: seq<nat>, terminal: HoldStatus)
    requires Stocky(b.holds) && (forall k :: 0 <= k < |pks| ==> pks[k] < |b.holds|) && EndRows(b, pks, terminal).Ok?
    ensures Stocky(EndRows(b, pks, terminal).value.holds) && EndRows(b, pks, terminal).value.moves == b.moves
  {
    if pks != [] {
      EndRowsTrail(b, pks[..|pks| - 1], terminal);
    }
  }

  lemma {:induction false} HoldAllTrail(b: Book, c: CheckoutId, lines: seq<Line>, e: int)
    requires Stocky(b.holds) && HoldAll(b, c, lines, e).Ok?
    ensures Stocky(HoldAll(b, c, lines, e).value.holds) && HoldAll(b, c, lines, e).value.moves == b.moves
  {
    if lines != [] {
      HoldAllTrail(b, c, lines[..|lines| - 1], e);
    }
  }

  lemma ServeReturnsOk(b: Book, r: Request, now: int)
    requires ReturnsOk(b) && Serve(b, r, now).Ok?
    ensures ReturnsOk(Serve(b, r, now).value.0)
  {
    match r.body
    case ReserveBody(c, lines, ttl) =>
      HoldAllTrail(b, c, SortLines(lines), now + 60 * Ttl(ttl));
      SameTrail(b, Serve(b, r, now).value.0);
    case CommitBody(order) => SellRowsReturnsOk(b, Selected(b.holds, InGroup(r.path)), order);
    case ReleaseBody =>
      EndRowsTrail(b, Selected(b.holds, InGroup(r.path)), Released);
      SameTrail(b, Serve(b, r, now).value.0);
    case AdjustBody(v, d, reason, order) => AdjustReturnsOk(b, v, d, reason, order);
  }

  lemma EventReturnsOk(s: Service, e: Event)
    requires ReturnsOk(s.book)
    ensures ReturnsOk(Services.Next(s, e).book)
  {
    match e
    case Ask(r, now) =>
      if Serve(s.book, r, now).Ok? {
        ServeReturnsOk(s.book, r, now);
      }
    case Tick(now) =>
      var pks := Selected(s.book.holds, Overdue(now));
      if EndRows(s.book, pks, Expired).Ok? {
        EndRowsTrail(s.book, pks, Expired);
        SameTrail(s.book, EndRows(s.book, pks, Expired).value);
      }
  }

  /** Over any traffic from an empty table, no order gets back more of a variant than it was sold. */
  lemma {:induction false} NoOverReturn(stock: map<int, Counters>, events: seq<Event>)
    ensures var b := Services.Run(Service(Book(stock, [], []), map[]), events).book;
            ReturnsOk(b) && forall o, v :: 0 <= ReturnedUnits(b, o, v) <= SoldUnits(b, o, v)
  {
    if events != [] {
      NoOverReturn(stock, events[..|events| - 1]);
      EventReturnsOk(Services.Run(Service(Book(stock, [], []), map[]), events[..|events| - 1]), events[|events| - 1]);
    }
  }
}
