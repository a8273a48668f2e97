/**
 * The remote ledger's handlers as they run (services/inventory/api.py,
 * services/inventory/idempotency.py): a claim row, loops that lock and update rows,
 * the recorded answer, and a rollback wherever one raises. Proved equal to `Services`.
 */
module ServiceHandlers {
  import opened Wrappers
  import opened Totals
  import opened Lines
  import opened Books
  import opened Ledgers
  import opened Services

  /** What a handler's first step found. */
  datatype Claimant = Go(key: HashKey) | Stop(answer: Answer)

  class Server {
    var stock: map<int, Counters>
    var holds: seq<Hold>
    var moves: seq<Movement>
    var records: map<HashKey, Record>

    function Table(): Book
      reads this
    {
      Book(stock, holds, moves)
    }

    function State(): Service
      reads this
    {
      Service(Book(stock, holds, moves), records)
    }

    constructor (stock: map<int, Counters>)
      ensures State() == Service(Book(stock, [], []), map[])
    {
      this.stock, holds, moves, records := stock, [], [], map[];
    }

    /** `claim`: inserts the in-flight row, or resolves the one already there. */
    method Claim(r: Request) returns (c: Claimant)
      modifies this`records
      ensures match ClaimOf(old(State()), r)
              case Answered(a) => c == Stop(a) && records == old(records)
              case Claimed(key) => c == Go(key) && records == old(records)[key := Record(r.body, 0, ReleasedRows(0))]
    {
      var token := TokenOf(r);
      if token.None? {
        return Stop(Deny(400, KeyRequired));
      }
      var key := HashKey(RouteOf(r.body), token.value);
      if key in records {
        var existing := records[key];
        if existing.fingerprint != r.body {
          return Stop(Deny(422, KeyReuse));
        }
        if existing.status == 0 {
          return Stop(Deny(409, InProgress));
        }
        return Stop(Answer(existing.status, existing.reply));
      }
      records := records[key := Record(r.body, 0, ReleasedRows(0))];
      return Go(key);
    }

    /** `select(...).where(...).order_by(variant_id).with_for_update()` over the active rows. */
    method SelectActive(select: Hold -> bool) returns (pks: seq<nat>)
      ensures pks == Selected(holds, select)
    {
      var found: seq<nat> := [];
      for pk := 0 to |holds|
        invariant found == ActiveRows(holds[..pk], select)
      {
        assert holds[..pk + 1][..pk] == holds[..pk];
        if holds[pk].status == Active && select(holds[pk]) {
          found := found + [pk];
        }
      }
      assert holds[..|holds|] == holds;
      return ByVariant(holds, found);
    }

    /** The loop of a reserve, over lines in variant order. */
    method HoldLines(c: CheckoutId, ordered: seq<Line>, expiresAt: int) returns (r: Result<(), Answer>)
      requires forall k :: 0 <= k < |ordered| ==> ordered[k].qty >= 1
      modifies this`stock, this`holds
      ensures match HoldAll(old(Table()), c, ordered, expiresAt)
              case Err(e) => r == Err(if e == InsufficientStock then Deny(409, Insufficient) else Deny(404, NoSuchVariant))
              case Ok(b) => Table() == b && r == Ok(()) && |holds| == |old(holds)| + |ordered|
    {
      for i := 0 to |ordered|
        invariant HoldAll(old(Table()), c, ordered[..i], expiresAt) == Ok(Table())
        invariant |holds| == |old(holds)| + i
      {
        assert ordered[..i + 1][..i] == ordered[..i];
        HoldAllStops(old(Table()), c, ordered, expiresAt, i + 1);
        var line := ordered[i];
        if line.variant !in stock {
          return Err(Deny(404, NoSuchVariant));
        }
        var row := stock[line.variant];
        if row.Available() < line.qty {
          return Err(Deny(409, Insufficient));
        }
        stock := stock[line.variant := row.(reserved := row.reserved + line.qty)];
        holds := holds + [Hold(line.variant, line.qty, Active, c, None, expiresAt)];
      }
      assert ordered[..|ordered|] == ordered;
      return Ok(());
    }

    /** The loop of a commit over the rows it locked. */
    method SellLocked(pks: seq<nat>, order: Option<OrderId>) returns (r: Result<(), Answer>)
      requires forall k :: 0 <= k < |pks| ==> pks[k] < |holds|
      modifies this`stock, this`holds, this`moves
      ensures match SellRows(old(Table()), pks, order)
              case Err(a) => r == Err(a)
              case Ok(b) => r == Ok(()) && Table() == b
    {
      for i := 0 to |pks|
        invariant SellRows(old(Table()), pks[..i], order) == Ok(Table()) && |holds| == |old(holds)|
      {
        assert pks[..i + 1][..i] == pks[..i];
        SellStops(old(Table()), pks, order, i + 1);
        var hold := holds[pks[i]];
        if hold.variant !in stock || stock[hold.variant].onHand < hold.qty {
          return Err(Deny(409, CannotCover));
        }
        var row := stock[hold.variant];
        stock := stock[hold.variant := Counters(row.onHand - hold.qty, row.reserved - hold.qty)];
        moves := moves + [Movement(hold.variant, -hold.qty, Sale, order)];
        holds := holds[pks[i] := hold.(status := Committed, order := order)];
      }
      assert pks[..|pks|] == pks;
      return Ok(());
    }

    /** `_release_all` */
    method ReleaseAll(pks: seq<nat>, terminal: HoldStatus) returns (r: Result<nat, Answer>)
      requires forall k :: 0 <= k < |pks| ==> pks[k] < |holds|
      modifies this`stock, this`holds
      ensures match EndRows(old(Table()), pks, terminal)
              case Err(a) => r == Err(a)
              case Ok(b) => r == Ok(|pks|) && Table() == b
    {
      var released := 0;
      for i := 0 to |pks|
        invariant EndRows(old(Table()), pks[..i], terminal) == Ok(Table()) && |holds| == |old(holds)| && released == i
      {
        assert pks[..i + 1][..i] == pks[..i];
        EndStops(old(Table()), pks, terminal, i + 1);
        var hold := holds[pks[i]];
        if hold.variant !in stock || stock[hold.variant].reserved < hold.qty {
          return Err(Deny(409, Underflow));
        }
        var row := stock[hold.variant];
        stock := stock[hold.variant := row.(reserved := row.reserved - hold.qty)];
        holds := holds[pks[i] := hold.(status := terminal)];
        released := released + 1;
      }
      assert pks[..|pks|] == pks;
      return Ok(released);
    }

    /** The totals query behind the clamp on returns that name an order. */
    method Outstanding(v: int, order: OrderId) returns (units: int)
      ensures units == SoldUnits(Table(), order, v) - ReturnedUnits(Table(), order, v)
    {
      var sale, returned := 0, 0;
      for i := 0 to |moves|
        invariant sale == -Total(moves[..i], SoldFor(Some(order), v))
        invariant returned == Total(moves[..i], ReturnedFor(Some(order), v))
      {
        assert moves[..i + 1][..i] == moves[..i];
        if moves[i].variant == v && moves[i].order == Some(order) {
          if moves[i].reason == Sale {
            sale := sale + moves[i].delta;
          } else if moves[i].reason == Return {
            returned := returned + moves[i].delta;
          }
        }
      }
      assert moves[..|moves|] == moves;
      return -sale - returned;
    }

    /** The body of the adjustment, after its claim. */
    method Adjust(v: int, delta: int, reason: Option<Reason>, order: Option<OrderId>) returns (r: Result<Reply, Answer>)
      modifies this`stock, this`moves
      ensures match ServeAdjust(old(Table()), v, delta, reason, order)
              case Err(a) => r == Err(a)
              case Ok((b, reply)) => r == Ok(reply) && Table() == b
      ensures r.Ok? ==>
                && v in old(stock) && reason.Some?
                && var out := if order.Some? then SoldUnits(old(Table()), order.value, v) - ReturnedUnits(old(Table()), order.value, v) else 0;
                   var d := if reason == Some(Return) && order.Some? && out <= delta then (if out <= 0 then 0 else out) else delta;
                   && stock == old(stock)[v := Counters(old(stock)[v].onHand + d, old(stock)[v].reserved)]
                   && moves == old(moves) + (if d == 0 then [] else [Movement(v, d, reason.value, order)])
                   && r.value == StockNow(stock[v])
    {
      if delta == 0 || reason == Some(Sale) || reason.None? {
        return Err(Deny(400, Invalid));
      }
      if (reason.value == Restock || reason.value == Return) && delta < 0 {
        return Err(Deny(400, Invalid));
      }
      if v !in stock {
        return Err(Deny(404, NoSuchVariant));
      }
      var row, d := stock[v], delta;
      if reason.value == Return && order.Some? {
        var outstanding := Outstanding(v, order.value);
        d := Min(d, Max(0, outstanding));
      }
      if row.onHand + d < row.reserved {
        return Err(Deny(409, WouldBreak));
      }
      stock := stock[v := row.(onHand := row.onHand + d)];
      if d != 0 {
        moves := moves + [Movement(v, d, reason.value, order)];
      }
      return Ok(StockNow(stock[v]));
    }

    method Reserve(c: CheckoutId, lines: seq<Line>, expiresAt: int) returns (m: Result<Reply, Answer>)
      requires forall k :: 0 <= k < |lines| ==> lines[k].qty >= 1
      modifies this`stock, this`holds
      ensures match ServeReserve(old(Table()), c, lines, expiresAt)
              case Err(a) => m == Err(a)
              case Ok((b, reply)) => m == Ok(reply) && Table() == b
    {
      SortedQuantities(lines);
      var first := |holds|;
      var done := HoldLines(c, SortLines(lines), expiresAt);
      m := if done.Ok? then Ok(HeldRows(Rows(first, |lines|))) else Err(done.error);
    }

    method Commit(c: CheckoutId, order: Option<OrderId>) returns (m: Result<Reply, Answer>)
      modifies this`stock, this`holds, this`moves
      ensures match ServeCommit(old(Table()), c, order)
              case Err(a) => m == Err(a)
              case Ok((b, reply)) => m == Ok(reply) && Table() == b
    {
      var pks := SelectActive(InGroup(c));
      var sold := RowLines(holds, pks);
      var done := SellLocked(pks, order);
      m := if done.Ok? then Ok(SoldRows(sold)) else Err(done.error);
    }

    method Release(c: CheckoutId) returns (m: Result<Reply, Answer>)
      modifies this`stock, this`holds
      ensures match ServeRelease(old(Table()), c)
              case Err(a) => m == Err(a)
              case Ok((b, reply)) => m == Ok(reply) && Table() == b
    {
      var pks := SelectActive(InGroup(c));
      var done := ReleaseAll(pks, Released);
      m := if done.Ok? then Ok(ReleasedRows(done.value)) else Err(done.error);
    }

    /** What each route does once its key is claimed. */
    method Mutate(r: Request, now: int) returns (m: Result<Reply, Answer>)
      requires Validated(r.body)
      modifies this`stock, this`holds, this`moves
      ensures match Serve(old(Table()), r, now)
              case Err(a) => m == Err(a)
              case Ok((b, reply)) => m == Ok(reply) && Table() == b
    {
      match r.body
      case ReserveBody(c, lines, ttl) =>
        m := Reserve(c, lines, now + 60 * Ttl(ttl));
      case CommitBody(order) =>
        m := Commit(r.path, order);
      case ReleaseBody =>
        m := Release(r.path);
      case AdjustBody(v, d, reason, order) =>
        m := Adjust(v, d, reason, order);
    }

    /** One request: claim, mutate, record, commit; anything raised rolls all of it back, the claim included. */
    method Respond(r: Request, now: int) returns (answer: Answer)
      modifies this
      ensures (State(), answer) == Handle(old(State()), r, now)
    {
      if !Validated(r.body) {
        return Deny(422, Invalid);
      }
      var savedStock, savedHolds, savedMoves, savedRecords := stock, holds, moves, records;
      var claim := Claim(r);
      if claim.Stop? {
        return claim.answer;
      }
      var done := Mutate(r, now);
      if done.Err? {
        stock, holds, moves, records := savedStock, savedHolds, savedMoves, savedRecords;
        return done.error;
      }
      records := records[claim.key := records[claim.key].(status := StatusOf(r.body), reply := done.value)];
      assert records == savedRecords[claim.key := Record(r.body, StatusOf(r.body), done.value)];
      return Answer(StatusOf(r.body), done.value);
    }

    /** The TTL sweep: every overdue hold in one transaction, and how many there were. */
    method ExpireReservations(now: int) returns (r: Result<nat, Answer>)
      modifies this`stock, this`holds
      ensures State() == Sweep(old(State()), now)
      ensures match EndRows(old(Table()), Selected(old(holds), Overdue(now)), Expired)
              case Err(a) => r == Err(a)
              case Ok(_) => r == Ok(|Selected(old(holds), Overdue(now))|)
    {
      var savedStock, savedHolds := stock, holds;
      var pks := SelectActive(Overdue(now));
      r := ReleaseAll(pks, Expired);
      if r.Err? {
        stock, holds := savedStock, savedHolds;
      }
    }
  }

  lemma SortedQuantities(lines: seq<Line>)
    requires forall k :: 0 <= k < |lines| ==> lines[k].qty >= 1
    ensures |SortLines(lines)| == |lines|
    ensures forall k :: 0 <= k < |lines| ==> SortLines(lines)[k].qty >= 1
  {
    SortAscending(lines);
    SortMultiset(lines);
    forall k | 0 <= k < |lines| ensures SortLines(lines)[k].qty >= 1 {
      assert SortLines(lines)[k] in multiset(SortLines(lines));
    }
  }

  lemma {:induction false} SellStops(b: Book, pks: seq<nat>, order: Option<OrderId>, n: nat)
    requires n <= |pks| && forall k :: 0 <= k < |pks| ==> pks[k] < |b.holds|
    ensures SellRows(b, pks[..n], order).Err? ==> SellRows(b, pks, order) == SellRows(b, pks[..n], order)
    decreases |pks| - n
  {
    if n == |pks| {
      assert pks[..n] == pks;
    } else {
      SellStops(b, pks, order, n + 1);
      assert pks[..n + 1][..n] == pks[..n];
    }
  }

  lemma {:induction false} EndStops(b: Book, pks: seq<nat>, terminal: HoldStatus, n: nat)
    requires n <= |pks| && forall k :: 0 <= k < |pks| ==> pks[k] < |b.holds|
    ensures EndRows(b, pks[..n], terminal).Err? ==> EndRows(b, pks, terminal) == EndRows(b, pks[..n], terminal)
    decreases |pks| - n
  {
    if n == |pks| {
      assert pks[..n] == pks;
    } else {
      EndStops(b, pks, terminal, n + 1);
      assert pks[..n + 1][..n] == pks[..n];
    }
  }
}
