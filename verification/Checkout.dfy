/**
 * The checkout service (apps/orders/checkout.py): one cart becomes one pending order
 * whose stock is held, or every hold it took is given back. Faults of the network,
 * the database and the payment provider are a script.
 */
module Checkout {
  import opened Wrappers
  import opened Totals
  import opened Lines
  import opened Books
  import opened Ledgers
  import opened Saga
  import opened Fulfilment
  import opened Payments
  import opened OrderNumbers

  const MAX_CHECKOUT_LINES := 20
  const MAX_LINE_QTY := 99
  const DEADLOCK_ATTEMPTS := 3

  datatype CheckoutError =
    | BadCart
    | BadContact
    | BadZone
    | UnknownItems
    | StockRefused(stock: StockError)
    | BuildFailed
    | PaymentSessionError

  // ------------------------------------------------------------ the cart

  /** A cart line as the client sent it; None is a field that is missing or not an integer. */
  datatype RawLine = RawLine(variant: Option<int>, qty: Option<int>)

  predicate Parses(x: RawLine) { x.variant.Some? && x.qty.Some? && 1 <= x.qty.value <= MAX_LINE_QTY }

  predicate Acceptable(raw: seq<RawLine>) {
    1 <= |raw| <= MAX_CHECKOUT_LINES && forall i :: 0 <= i < |raw| ==> Parses(raw[i])
  }

  /** Units of `v` a raw line asks for; a measure for `Total`. */
  function RawUnits(v: int): RawLine -> int {
    (x: RawLine) => if x.variant == Some(v) && x.qty.Some? then x.qty.value else 0
  }

  /** One line per variant, each asking for at least one unit. */
  ghost predicate Merged(lines: seq<Line>) {
    DistinctVariants(lines) && forall i :: 0 <= i < |lines| ==> lines[i].qty >= 1
  }

  /** `quantities[variant_id] = quantities.get(variant_id, 0) + qty` */
  method AddQuantity(quantities: seq<Line>, variant: int, qty: int) returns (r: seq<Line>)
    requires Merged(quantities) && qty >= 1
    ensures Merged(r) && r != []
    ensures forall v :: Units(r, v) == Units(quantities, v) + UnitsOf(v)(Line(variant, qty))
  {
    var i := 0;
    while i < |quantities| && quantities[i].variant != variant
      invariant i <= |quantities|
      invariant forall k :: 0 <= k < i ==> quantities[k].variant != variant
    {
      i := i + 1;
    }
    if i == |quantities| {
      r := quantities + [Line(variant, qty)];
      forall v ensures Units(r, v) == Units(quantities, v) + UnitsOf(v)(Line(variant, qty)) {
        TotalSnoc(quantities, Line(variant, qty), UnitsOf(v));
      }
    } else {
      r := quantities[i := Line(variant, quantities[i].qty + qty)];
      forall v ensures Units(r, v) == Units(quantities, v) + UnitsOf(v)(Line(variant, qty)) {
        TotalUpdate(quantities, i, r[i], UnitsOf(v));
      }
    }
  }

  /** Accepts a cart exactly when it is well formed, and merges its duplicates without losing a unit. */
  method ParseItems(raw: seq<RawLine>) returns (r: Result<seq<Line>, CheckoutError>)
    ensures if Acceptable(raw) then r.Ok? else r == Err(BadCart)
    ensures r.Ok? <==> 1 <= |raw| <= 20 && forall i :: 0 <= i < |raw| ==>
              raw[i].variant.Some? && raw[i].qty.Some? && 1 <= raw[i].qty.value <= 99
    ensures r.Ok? ==> Merged(r.value) && r.value != [] && forall v :: Units(r.value, v) == Total(raw, RawUnits(v))
  {
    if raw == [] || |raw| > MAX_CHECKOUT_LINES {
      return Err(BadCart);
    }
    var quantities: seq<Line> := [];
    for i := 0 to |raw|
      invariant forall k :: 0 <= k < i ==> Parses(raw[k])
      invariant Merged(quantities) && (i > 0 ==> quantities != [])
      invariant forall v :: Units(quantities, v) == Total(raw[..i], RawUnits(v))
    {
      if raw[i].variant.None? || raw[i].qty.None? {
        return Err(BadCart);
      }
      if !(1 <= raw[i].qty.value <= MAX_LINE_QTY) {
        return Err(BadCart);
      }
      assert raw[..i + 1] == raw[..i] + [raw[i]];
      forall v ensures Total(raw[..i + 1], RawUnits(v)) == Total(raw[..i], RawUnits(v)) + RawUnits(v)(raw[i]) {
        TotalSnoc(raw[..i], raw[i], RawUnits(v));
      }
      quantities := AddQuantity(quantities, raw[i].variant.value, raw[i].qty.value);
    }
    assert raw[..|raw|] == raw;
    return Ok(quantities);
  }

  // ------------------------------------------------------------ the money

  /** An OrderItem's price snapshot, and an order's money columns. */
  datatype Priced = Priced(variant: int, qty: int, unitPrice: int)

  datatype Bill = Bill(orderNo: string, subtotal: int, fee: int, total: int, items: seq<Priced>)

  function LineTotal(): Priced -> int { (x: Priced) => x.unitPrice * x.qty }

  /** One more item charges its price times its quantity. */
  lemma ChargeSnoc(items: seq<Priced>, x: Priced)
    ensures Total(items + [x], LineTotal()) == Total(items, LineTotal()) + x.unitPrice * x.qty
  {
    TotalSnoc(items, x, LineTotal());
  }

  predicate Known(lines: seq<Line>, prices: map<int, int>) {
    forall i :: 0 <= i < |lines| ==> lines[i].variant in prices
  }

  /** The bill charges each line at its current price, and its total is its lines plus the fee. */
  ghost predicate BillOk(bill: Bill, lines: seq<Line>, prices: map<int, int>, fee: int) {
    && |bill.items| == |lines|
    && (forall i :: 0 <= i < |lines| ==>
          lines[i].variant in prices && bill.items[i] == Priced(lines[i].variant, lines[i].qty, prices[lines[i].variant]))
    && bill.fee == fee
    && bill.total == Total(bill.items, LineTotal()) + fee == bill.subtotal + fee
  }

  method MakeBill(orderNo: string, lines: seq<Line>, prices: map<int, int>, fee: int) returns (bill: Bill)
    requires Known(lines, prices)
    ensures BillOk(bill, lines, prices, fee) && bill.orderNo == orderNo
  {
    var subtotal, items := 0, [];
    for i := 0 to |lines|
      invariant |items| == i && subtotal == Total(items, LineTotal())
      invariant forall k :: 0 <= k < i ==> items[k] == Priced(lines[k].variant, lines[k].qty, prices[lines[k].variant])
    {
      var item := Priced(lines[i].variant, lines[i].qty, prices[lines[i].variant]);
      ChargeSnoc(items, item);
      subtotal := subtotal + prices[lines[i].variant] * lines[i].qty;
      items := items + [item];
    }
    return Bill(orderNo, subtotal, fee, subtotal + fee, items);
  }

  // ------------------------------------------------------------ compensation

  /** The group a release reaches, if its request is sent. */
  function ReleasedBy(c: CheckoutId, fate: Outcome): set<CheckoutId> { if fate == NeverSent then {} else {c} }

  /** `_release_quietly`: True when the release answered; an unanswered one may have landed. */
  method ReleaseQuietly(shop: Shop, c: CheckoutId, fate: Outcome) returns (ok: bool, ghost moves: seq<Move>)
    requires shop.Valid()
    modifies shop.ledger
    ensures shop.Valid() && LedgerRun(moves, old(shop.ledger.State()), shop.ledger.State())
    ensures ok <==> fate == Replied
    ensures GivenBack(old(shop.ledger.State()), shop.ledger.State(), ReleasedBy(c, fate))
  {
    moves := AskRelease(shop, c, fate);
    return fate == Replied, moves;
  }

  /** The rows a checkout added are the only ones it has touched; no unit moved, and no other key was claimed. */
  ghost predicate OnlyNew(l: Ledger, l': Ledger, c: CheckoutId) {
    && l'.book.moves == l.book.moves && |l.book.holds| <= |l'.book.holds|
    && (forall k :: k in l.keys ==> k in l'.keys && l'.keys[k] == l.keys[k])
    && (forall k :: k in l'.keys ==> k in l.keys || k == ReserveKey(c))
    && (forall i :: 0 <= i < |l.book.holds| ==> l'.book.holds[i] == l.book.holds[i])
    && (forall i :: |l.book.holds| <= i < |l'.book.holds| ==> l'.book.holds[i].checkout == c)
  }

  lemma NobodysRows(l: Ledger, opening: map<int, int>, c: CheckoutId)
    requires LedgerOk(l, opening) && ReserveKey(c) !in l.keys
    ensures Settled(l.book, c) && forall i :: 0 <= i < |l.book.holds| ==> l.book.holds[i].checkout != c
  {
    assert GroupOk(l, c);
    EmptyGroup(l.book.holds, c);
  }

  lemma ReserveOnlyNew(l: Ledger, opening: map<int, int>, c: CheckoutId, lines: seq<Line>, e: int)
    requires LedgerOk(l, opening) && ReserveKey(c) !in l.keys
    ensures OnlyNew(l, Next(l, Reserve(c, lines, e)), c)
  {
    if ReserveLines(l, c, lines, e).Ok? {
      ReserveFacts(l, opening, c, lines, e);
      FreshFacts(c, SortLines(lines), e, c);
    }
  }

  /** Giving the checkout's own group back touches its new rows only. */
  lemma BackOnlyNew(l: Ledger, l1: Ledger, l2: Ledger, c: CheckoutId, fate: Outcome)
    requires OnlyNew(l, l1, c) && GivenBack(l1, l2, ReleasedBy(c, fate))
    requires forall i :: 0 <= i < |l.book.holds| ==> l.book.holds[i].checkout != c
    ensures OnlyNew(l, l2, c)
  {}

  // ------------------------------------------------------------ S1: the stock

  /** The group holds exactly these lines, and every one of its rows is active. */
  ghost predicate HeldFor(l: Ledger, c: CheckoutId, lines: seq<Line>) {
    && GroupLines(l.book.holds, c) == SortLines(lines)
    && forall i :: 0 <= i < |l.book.holds| && l.book.holds[i].checkout == c ==> l.book.holds[i].status == Active
  }

  /** What a reserve under a fresh id leaves of the group, and of the ledger. */
  lemma Asked(l: Ledger, opening: map<int, int>, c: CheckoutId, lines: seq<Line>, e: int)
    requires LedgerOk(l, opening) && ReserveKey(c) !in l.keys
    ensures Settled(l.book, c) && LedgerOk(Next(l, Reserve(c, lines, e)), opening)
    ensures ReserveLines(l, c, lines, e).Ok? ==> HeldFor(ReserveLines(l, c, lines, e).value, c, lines)
  {
    NobodysRows(l, opening, c);
    StepKeeps(l, opening, Reserve(c, lines, e));
    if ReserveLines(l, c, lines, e).Ok? {
      ReservedActive(l, opening, c, lines, e);
    }
  }

  lemma Places(w: World, c: CheckoutId, lines: seq<Line>, e: int)
    requires c.Minted? && ReserveKey(c) !in w.ledger.keys && DistinctVariants(lines)
    ensures NextWorld(w, Place(c, lines, e))
         == match ReserveLines(w.ledger, c, lines, e)
            case Err(_) => w
            case Ok(l) => w.(ledger := l, carts := w.carts[c := lines])
  {}

  /** The ledger a reserve call leaves, if its request is sent. */
  function AfterAsk(l: Ledger, c: CheckoutId, lines: seq<Line>, now: int, fate: Outcome): Ledger {
    if fate == NeverSent then l else Next(l, Reserve(c, lines, now + 60 * Ttl(None)))
  }

  /** The reserve itself: the stock is held and the cart noted, or nothing changes. */
  method TakeHold(shop: Shop, c: CheckoutId, lines: seq<Line>, now: int) returns (r: Result<(), StockError>)
    requires shop.Valid() && c.Minted? && ReserveKey(c) !in shop.ledger.keys && DistinctVariants(lines)
    modifies shop.ledger, shop`carts
    ensures shop.Valid() && shop.Now() == NextWorld(old(shop.Now()), Place(c, lines, now + 60 * Ttl(None)))
    ensures shop.ledger.State() == Next(old(shop.ledger.State()), Reserve(c, lines, now + 60 * Ttl(None)))
    ensures r.Ok? <==> ReserveLines(old(shop.ledger.State()), c, lines, now + 60 * Ttl(None)).Ok?
    ensures r.Ok? ==> HeldFor(shop.ledger.State(), c, lines) && c in shop.carts && shop.carts[c] == lines
    ensures r.Err? ==> r.error == ReserveLines(old(shop.ledger.State()), c, lines, now + 60 * Ttl(None)).error
    ensures r.Err? ==> shop.Now() == old(shop.Now()) && Settled(shop.ledger.State().book, c)
  {
    Asked(shop.ledger.State(), shop.ledger.opening, c, lines, now + 60 * Ttl(None));
    Places(shop.Now(), c, lines, now + 60 * Ttl(None));
    var held := shop.ledger.ReserveLines(c, lines, None, now);
    if held.Err? {
      return Err(held.error);
    }
    shop.carts := shop.carts[c := lines];
    return Ok(());
  }

  /** The reserve call: its answer, which may be lost after the hold was taken. */
  method AskToHold(shop: Shop, c: CheckoutId, lines: seq<Line>, now: int, fate: Outcome)
    returns (r: Result<(), StockError>, ghost trace: seq<Move>)
    requires shop.Valid() && c.Minted? && ReserveKey(c) !in shop.ledger.keys && DistinctVariants(lines)
    modifies shop.ledger, shop`carts
    ensures shop.Valid() && shop.Now() == RunWorld(old(shop.Now()), trace)
    ensures r.Ok? <==> fate == Replied && ReserveLines(old(shop.ledger.State()), c, lines, now + 60 * Ttl(None)).Ok?
    ensures r.Ok? ==> HeldFor(shop.ledger.State(), c, lines) && c in shop.carts && shop.carts[c] == lines
    ensures shop.ledger.State() == AfterAsk(old(shop.ledger.State()), c, lines, now, fate)
    ensures r.Err? && fate != ReplyLost ==> shop.Now() == old(shop.Now()) && Settled(shop.ledger.State().book, c)
    ensures fate != Replied ==> r == Err(ReservationUnavailable)
    ensures fate == Replied && r.Err? ==> r.error == ReserveLines(old(shop.ledger.State()), c, lines, now + 60 * Ttl(None)).error
  {
    NobodysRows(shop.ledger.State(), shop.ledger.opening, c);
    if fate == NeverSent {
      return Err(ReservationUnavailable), [];
    }
    RunWorldOne(shop.Now(), Place(c, lines, now + 60 * Ttl(None)));
    r := TakeHold(shop, c, lines, now);
    return if fate == ReplyLost then Err(ReservationUnavailable) else r, [Place(c, lines, now + 60 * Ttl(None))];
  }

  /** `except ReservationUnavailable: release, then raise`; every other refusal held nothing. */
  method SecureStock(shop: Shop, c: CheckoutId, lines: seq<Line>, now: int, reserving: Outcome, releasing: Outcome)
    returns (r: Result<(), StockError>, ghost trace: seq<Move>)
    requires shop.Valid() && c.Minted? && ReserveKey(c) !in shop.ledger.keys && DistinctVariants(lines)
    modifies shop.ledger, shop`carts
    ensures shop.Valid() && shop.Now() == RunWorld(old(shop.Now()), trace)
    ensures r.Ok? <==> reserving == Replied && ReserveLines(old(shop.ledger.State()), c, lines, now + 60 * Ttl(None)).Ok?
    ensures r.Ok? ==> HeldFor(shop.ledger.State(), c, lines) && c in shop.carts && shop.carts[c] == lines
    ensures r.Err? && (releasing == Replied || reserving != ReplyLost) ==> Settled(shop.ledger.State().book, c)
    ensures r.Err? && r.error != ReservationUnavailable ==> shop.Now() == old(shop.Now())
    ensures reserving != Replied ==> r == Err(ReservationUnavailable)
    ensures reserving == Replied && r.Err? ==>
              r.error == ReserveLines(old(shop.ledger.State()), c, lines, now + 60 * Ttl(None)).error
    ensures OnlyNew(old(shop.ledger.State()), shop.ledger.State(), c)
  {
    ghost var l := shop.ledger.State();
    NobodysRows(l, shop.ledger.opening, c);
    ReserveOnlyNew(l, shop.ledger.opening, c, lines, now + 60 * Ttl(None));
    r, trace := AskToHold(shop, c, lines, now, reserving);
    if r == Err(ReservationUnavailable) {
      ghost var mid, moves := shop.Now(), [];
      var ok;
      ok, moves := ReleaseQuietly(shop, c, releasing);
      assert RunWorld(mid, moves) == shop.Now();
      RunWorldAppend(old(shop.Now()), trace, moves);
      trace := trace + moves;
      BackOnlyNew(l, mid.ledger, shop.ledger.State(), c, releasing);
      if releasing != NeverSent || Settled(mid.ledger.book, c) {
        GivenBackSettled(mid.ledger, shop.ledger.State(), ReleasedBy(c, releasing), c);
      }
    }
  }

  // ------------------------------------------------------------ S2: the order

  /** What the database does to one attempt at the order's transaction. */
  datatype Fault = Fine | Deadlock | OtherFault

  function FaultAt(faults: seq<Fault>, k: nat): Fault { if k < |faults| then faults[k] else Fine }

  /** The Orders side of a shop, as one value. */
  datatype OrderRows = OrderRows(orders: map<OrderId, Order>, bills: map<OrderId, Bill>, last: map<int, nat>)

  /** The counters, orders and money one shop's checkouts write. */
  class Desk {
    const shop: Shop
    const numbers: OrderSequence
    var bills: map<OrderId, Bill>

    function Rows(): OrderRows
      reads this, shop, numbers
    {
      OrderRows(shop.orders, bills, numbers.last)
    }

    constructor (shop: Shop, numbers: OrderSequence)
      ensures this.shop == shop && this.numbers == numbers && bills == map[]
    {
      this.shop, this.numbers := shop, numbers;
      bills := map[];
    }
  }

  /** The year has a number left. */
  predicate Numberable(last: map<int, nat>, year: int) { FourDigitYear(year) && Last(last, year) < MAX_ORDER_SEQUENCE }

  lemma Builds(w: World, c: CheckoutId, o: OrderId, lines: seq<Line>)
    requires c in w.carts && w.carts[c] == lines && o !in w.orders
    ensures NextWorld(w, Build(c, o))
         == w.(carts := w.carts - {c}, orders := w.orders[o := Order(Pending, lines, [Receipt(c, Held)], NoSession)])
  {}

  /** `_build_order`: number, order, items and receipt in one transaction that a fault rolls back whole. */
  method BuildOrder(desk: Desk, c: CheckoutId, pk: OrderId, lines: seq<Line>, prices: map<int, int>, fee: int, year: int,
                    fault: Fault) returns (r: Result<(), Fault>)
    requires c in desk.shop.carts && desk.shop.carts[c] == lines && pk !in desk.shop.orders && Known(lines, prices)
    modifies desk`bills, desk.numbers, desk.shop`orders, desk.shop`carts
    ensures r == if !Numberable(old(desk.numbers.last), year) then Err(OtherFault)
                 else if fault == Fine then Ok(()) else Err(fault)
    ensures r.Ok? ==>
              && desk.shop.Now() == NextWorld(old(desk.shop.Now()), Build(c, pk))
              && desk.shop.orders == old(desk.shop.orders)[pk := Order(Pending, lines, [Receipt(c, Held)], NoSession)]
              && desk.numbers.last == old(desk.numbers.last)[year := Last(old(desk.numbers.last), year) + 1]
              && pk in desk.bills && BillOk(desk.bills[pk], lines, prices, fee)
              && desk.bills[pk].orderNo == OrderNo(year, Last(desk.numbers.last, year))
    ensures r.Err? ==>
              && desk.shop.Now() == old(desk.shop.Now())
              && desk.numbers.last == old(desk.numbers.last) && desk.bills == old(desk.bills)
  {
    var savedNumbers, savedOrders, savedBills := desk.numbers.last, desk.shop.orders, desk.bills;
    var number := desk.numbers.NextOrderNo(year);
    if number.Err? {
      assert number.error.InvalidOrderYear? || number.error.OrderNumberExhausted?;
      return Err(OtherFault);
    }
    var bill := MakeBill(number.value, lines, prices, fee);
    desk.bills := desk.bills[pk := bill];
    Builds(desk.shop.Now(), c, pk, lines);
    desk.shop.orders := desk.shop.orders[pk := Order(Pending, lines, [Receipt(c, Held)], NoSession)];
    if fault != Fine {
      desk.numbers.last, desk.shop.orders, desk.bills := savedNumbers, savedOrders, savedBills;
      return Err(fault);
    }
    desk.shop.carts := desk.shop.carts - {c};
    return Ok(());
  }

  /** Whether the order is built within the attempts a deadlock allows. */
  predicate BuiltIn(faults: seq<Fault>, attempts: nat)
    decreases attempts
  {
    attempts > 0
    && (FaultAt(faults, 0) == Fine
        || (FaultAt(faults, 0) == Deadlock && BuiltIn(if faults == [] then [] else faults[1..], attempts - 1)))
  }

  /** Built exactly when at most two deadlocks, and nothing else, come before an attempt that meets no fault. */
  lemma {:induction false} BuiltInExactly(faults: seq<Fault>, attempts: nat)
    ensures BuiltIn(faults, attempts) <==> exists k :: CleanAfter(faults, attempts, k)
    decreases attempts
  {
    if attempts > 0 {
      if faults == [] || faults[0] == Fine {
        assert CleanAfter(faults, attempts, 0);
      } else {
        var rest, left: nat := faults[1..], attempts - 1;
        BuiltInExactly(rest, left);
        if faults[0] == Deadlock && exists k :: CleanAfter(rest, left, k) {
          var k: nat :| CleanAfter(rest, left, k);
          CleanLater(faults, attempts, k);
        }
        if exists k :: CleanAfter(faults, attempts, k) {
          var k: nat :| CleanAfter(faults, attempts, k);
          assert k > 0 && CleanAfter(rest, left, k - 1);
        }
      }
    }
  }

  /** Attempt `k`, counted from 0, meets no fault, and every one before it is a deadlock victim. */
  ghost predicate CleanAfter(faults: seq<Fault>, attempts: nat, k: nat) {
    && k < attempts && k <= |faults| && (k < |faults| ==> faults[k] == Fine)
    && forall j :: 0 <= j < k ==> faults[j] == Deadlock
  }

  lemma CleanLater(faults: seq<Fault>, attempts: nat, k: nat)
    requires attempts > 0 && faults != [] && faults[0] == Deadlock && CleanAfter(faults[1..], attempts - 1, k)
    ensures CleanAfter(faults, attempts, k + 1)
  {
    forall j | 0 <= j < k + 1 ensures faults[j] == Deadlock {
      assert j > 0 ==> faults[1..][j - 1] == faults[j];
    }
  }

  lemma BuiltInLater(faults: seq<Fault>, attempts: nat)
    requires attempts > 0 && FaultAt(faults, 0) == Deadlock
    ensures BuiltIn(faults, attempts) <==> BuiltIn(faults[1..], attempts - 1)
  {}

  /** The retry loop: a deadlock victim is rebuilt, up to three attempts in all; any other fault ends it. */
  method BuildWithRetries(desk: Desk, c: CheckoutId, pk: OrderId, lines: seq<Line>, prices: map<int, int>, fee: int,
                          year: int, faults: seq<Fault>) returns (r: Result<(), Fault>)
    requires c in desk.shop.carts && desk.shop.carts[c] == lines && pk !in desk.shop.orders && Known(lines, prices)
    modifies desk`bills, desk.numbers, desk.shop`orders, desk.shop`carts
    ensures r.Ok? <==> BuiltIn(faults, DEADLOCK_ATTEMPTS) && Numberable(old(desk.numbers.last), year)
    ensures r.Ok? <==>
              && (exists k :: CleanAfter(faults, 3, k)) && 1000 <= year <= 9999
              && (year in old(desk.numbers.last) ==> old(desk.numbers.last)[year] < 99999)
    ensures r.Ok? ==>
              && desk.shop.Now() == NextWorld(old(desk.shop.Now()), Build(c, pk))
              && desk.shop.orders == old(desk.shop.orders)[pk := Order(Pending, lines, [Receipt(c, Held)], NoSession)]
              && desk.numbers.last == old(desk.numbers.last)[year := Last(old(desk.numbers.last), year) + 1]
              && pk in desk.bills && BillOk(desk.bills[pk], lines, prices, fee)
              && desk.bills[pk].orderNo == OrderNo(year, Last(desk.numbers.last, year))
    ensures r.Err? ==>
              && desk.shop.Now() == old(desk.shop.Now())
              && desk.numbers.last == old(desk.numbers.last) && desk.bills == old(desk.bills)
  {
    var rest := faults;
    r := Err(Deadlock);
    BuiltInExactly(faults, DEADLOCK_ATTEMPTS);
    for attempt := 1 to DEADLOCK_ATTEMPTS + 1
      invariant r == Err(Deadlock)
      invariant BuiltIn(faults, DEADLOCK_ATTEMPTS) <==> BuiltIn(rest, DEADLOCK_ATTEMPTS + 1 - attempt)
      invariant desk.shop.Now() == old(desk.shop.Now())
      invariant desk.numbers.last == old(desk.numbers.last) && desk.bills == old(desk.bills)
    {
      var fault := FaultAt(rest, 0);
      r := BuildOrder(desk, c, pk, lines, prices, fee, year, fault);
      if r.Ok? || r.error != Deadlock || attempt == DEADLOCK_ATTEMPTS {
        return;
      }
      BuiltInLater(rest, DEADLOCK_ATTEMPTS + 1 - attempt);
      rest := rest[1..];
    }
  }

  // ------------------------------------------------------------ S3: the payment session

  lemma OpensSession(w: World, o: OrderId)
    requires o in w.orders && w.orders[o].payment == NoSession
    ensures NextWorld(w, OpenSession(o)) == w.(orders := w.orders[o := w.orders[o].(payment := Recorded(PayPending))])
  {}

  /** The receipts of an order whose session failed. */
  function Compensated(receipts: seq<Receipt>, released: bool): seq<Receipt> {
    UpdateAll(receipts, if released then Freed else Unknown)
  }

  lemma FailsSession(w: World, o: OrderId, released: bool)
    requires o in w.orders && w.orders[o].payment == NoSession
    ensures NextWorld(w, FailSession(o, released))
         == w.(orders := w.orders[o := w.orders[o].(payment := SessionFailed,
                                                    receipts := Compensated(w.orders[o].receipts, released))])
  {}

  /** The order once its session failed and it was, if the write succeeded, cancelled. */
  function Unpayable(ord: Order, released: bool, cancels: bool): Order {
    ord.(payment := SessionFailed, receipts := Compensated(ord.receipts, released),
         status := if cancels then Cancelled else ord.status)
  }

  function FailingMoves(o: OrderId, released: bool, cancels: bool): seq<Move> {
    [FailSession(o, released)] + if cancels then [Transition(o, Cancelled)] else []
  }

  lemma FailingRun(w: World, o: OrderId, released: bool, cancels: bool)
    requires o in w.orders && w.jobs == map[] && w.orders[o].payment == NoSession && w.orders[o].status == Pending
    ensures RunWorld(w, FailingMoves(o, released, cancels))
         == w.(orders := w.orders[o := Unpayable(w.orders[o], released, cancels)])
  {
    FailsSession(w, o, released);
    RunWorldOne(w, FailSession(o, released));
    assert [FailSession(o, released)] + [] == [FailSession(o, released)];
    if cancels {
      TransitionIsMove(NextWorld(w, FailSession(o, released)), o, Cancelled);
      RunTwo(w, FailSession(o, released), Transition(o, Cancelled));
      assert FailingMoves(o, released, true) == [FailSession(o, released), Transition(o, Cancelled)];
    }
  }

  /** The receipts' update and the cancellation, whose failure is swallowed. */
  method MarkUnpayable(shop: Shop, o: OrderId, released: bool, cancels: bool)
    requires o in shop.orders && shop.orders[o].status == Pending
    modifies shop`orders
    ensures shop.orders == old(shop.orders)[o := Unpayable(old(shop.orders)[o], released, cancels)]
  {
    shop.orders := shop.orders[o := shop.orders[o].(payment := SessionFailed,
                                                    receipts := Compensated(shop.orders[o].receipts, released))];
    if cancels {
      var done := TransitionTo(shop, o, Cancelled);
    }
  }

  /** Gives the holds back, marks the receipts by whether the release answered, and cancels the order. */
  method CompensateSession(shop: Shop, o: OrderId, releasing: Outcome, cancels: bool) returns (ghost trace: seq<Move>)
    requires shop.Valid() && o in shop.orders && shop.orders[o].payment == NoSession && shop.orders[o].status == Pending
    modifies shop.ledger, shop`orders
    ensures shop.Now() == RunWorld(old(shop.Now()), trace)
    ensures GivenBack(old(shop.ledger.State()), shop.ledger.State(), ReleasedBy(Own(old(shop.orders)[o]), releasing))
    ensures shop.orders
         == old(shop.orders)[o := Unpayable(old(shop.orders)[o], releasing == Replied, cancels)]
    ensures var was, now := old(shop.orders)[o], shop.orders[o];
            && now.items == was.items && now.payment == SessionFailed && now.status == (if cancels then Cancelled else Pending)
            && |now.receipts| == |was.receipts|
            && forall i :: 0 <= i < |was.receipts| ==>
                 now.receipts[i] == Receipt(was.receipts[i].checkout, if releasing == Replied then Freed else Unknown)
  {
    ghost var w := shop.Now();
    var ok;
    ok, trace := ReleaseQuietly(shop, Own(shop.orders[o]), releasing);
    assert RunWorld(w, trace) == shop.Now();
    FailingRun(shop.Now(), o, ok, cancels);
    RunWorldAppend(w, trace, FailingMoves(o, ok, cancels));
    trace := trace + FailingMoves(o, ok, cancels);
    MarkUnpayable(shop, o, ok, cancels);
  }

  // ------------------------------------------------------------ the whole checkout

  /** The faults one checkout meets. */
  datatype Script = Script(reserve: Outcome, builds: seq<Fault>, session: bool, release: Outcome, cancel: bool)

  /** The client's and the catalog's side of one checkout. */
  datatype Request = Request(raw: seq<RawLine>, contact: bool, fee: Option<int>, prices: map<int, int>, year: int, now: int)

  /** Units of `v` the cart asks for. */
  function Wanted(raw: seq<RawLine>, v: int): int { Total(raw, RawUnits(v)) }

  /** The cart is well formed, its contact and zone are, and the catalog knows everything in it. */
  ghost predicate Screened(request: Request) {
    && Acceptable(request.raw) && request.contact && request.fee.Some?
    && forall v :: Wanted(request.raw, v) > 0 ==> v in request.prices
  }

  /** Everything in the cart is in stock, duplicates summed. */
  ghost predicate InStock(b: Book, raw: seq<RawLine>) {
    forall v :: Wanted(raw, v) > 0 ==> v in b.stock && Wanted(raw, v) <= b.stock[v].Available()
  }

  /** In a merged cart a variant is asked for exactly when it has a line. */
  lemma {:induction false} MergedUnits(lines: seq<Line>, v: int)
    requires forall i :: 0 <= i < |lines| ==> lines[i].qty >= 1
    ensures Units(lines, v) > 0 <==> exists i :: 0 <= i < |lines| && lines[i].variant == v
    ensures Units(lines, v) >= 0
  {
    if lines != [] {
      var n := |lines| - 1;
      MergedUnits(lines[..n], v);
      assert forall i :: 0 <= i < n ==> lines[..n][i] == lines[i];
      if exists i :: 0 <= i < |lines| && lines[i].variant == v {
        var i :| 0 <= i < |lines| && lines[i].variant == v;
        assert i < n ==> lines[..n][i].variant == v;
      }
    }
  }

  lemma KnownExactly(lines: seq<Line>, raw: seq<RawLine>, prices: map<int, int>)
    requires Merged(lines) && forall v :: Units(lines, v) == Wanted(raw, v)
    ensures Known(lines, prices) <==> forall v :: Wanted(raw, v) > 0 ==> v in prices
  {
    forall v ensures Wanted(raw, v) > 0 <==> exists i :: 0 <= i < |lines| && lines[i].variant == v {
      MergedUnits(lines, v);
    }
    forall i | 0 <= i < |lines| ensures Wanted(raw, lines[i].variant) > 0 {
      MergedUnits(lines, lines[i].variant);
    }
  }

  lemma FitsInStock(b: Book, lines: seq<Line>, raw: seq<RawLine>)
    requires Merged(lines) && (forall v :: Units(lines, v) == Wanted(raw, v)) && Fits(b, lines)
    ensures InStock(b, raw)
  {
    forall v | Wanted(raw, v) > 0 ensures v in b.stock && Wanted(raw, v) <= b.stock[v].Available() {
      MergedUnits(lines, v);
    }
  }

  lemma InStockFits(b: Book, lines: seq<Line>, raw: seq<RawLine>)
    requires Merged(lines) && (forall v :: Units(lines, v) == Wanted(raw, v)) && InStock(b, raw)
    requires forall v :: v in b.stock ==> b.stock[v].Available() >= 0
    ensures Fits(b, lines)
  {
    forall v | v in b.stock ensures Units(lines, v) <= b.stock[v].Available() {
      MergedUnits(lines, v);
    }
    forall i | 0 <= i < |lines| ensures lines[i].variant in b.stock {
      MergedUnits(lines, lines[i].variant);
      assert Wanted(raw, lines[i].variant) > 0;
    }
  }

  /** A fresh checkout's reserve succeeds exactly when everything in its cart is in stock. */
  lemma HoldExactly(l: Ledger, opening: map<int, int>, c: CheckoutId, lines: seq<Line>, raw: seq<RawLine>, e: int)
    requires LedgerOk(l, opening) && ReserveKey(c) !in l.keys && c.Minted?
    requires Merged(lines) && lines != [] && forall v :: Units(lines, v) == Wanted(raw, v)
    ensures ReserveLines(l, c, lines, e).Ok? <==> InStock(l.book, raw)
  {
    ReservationExact(l, opening, c, lines, e);
    if Fits(l.book, lines) {
      FitsInStock(l.book, lines, raw);
    }
    if InStock(l.book, raw) {
      NeverOverReserved(l.book, opening);
      InStockFits(l.book, lines, raw);
    }
  }

  /** The first check a cart fails. */
  predicate Misread(request: Request) {
    || |request.raw| == 0 || |request.raw| > 20
    || exists i :: 0 <= i < |request.raw| &&
         (request.raw[i].variant.None? || request.raw[i].qty.None? || request.raw[i].qty.value < 1 || request.raw[i].qty.value > 99)
  }

  function ScreenError(request: Request): CheckoutError {
    if Misread(request) then BadCart
    else if !request.contact then BadContact
    else if request.fee.None? then BadZone
    else UnknownItems
  }

  /** Checks that write nothing: cart, contact, zone, catalog. */
  method Screen(request: Request) returns (r: Result<seq<Line>, CheckoutError>)
    ensures r.Ok? <==> Screened(request)
    ensures r.Ok? ==> Acceptable(request.raw) && request.contact && request.fee.Some? && Merged(r.value) && r.value != []
                      && Known(r.value, request.prices) && forall v :: Units(r.value, v) == Total(request.raw, RawUnits(v))
    ensures r.Err? ==> !r.error.StockRefused?
    ensures r.Err? ==> r.error == ScreenError(request)
  {
    var parsed := ParseItems(request.raw);
    if parsed.Err? {
      return parsed;
    }
    if !request.contact {
      return Err(BadContact);
    }
    if request.fee.None? {
      return Err(BadZone);
    }
    KnownExactly(parsed.value, request.raw, request.prices);
    for i := 0 to |parsed.value|
      invariant forall k :: 0 <= k < i ==> parsed.value[k].variant in request.prices
    {
      if parsed.value[i].variant !in request.prices {
        return Err(UnknownItems);
      }
    }
    return parsed;
  }

  /** The pending order a checkout ends with: its stock held, its bill exact, its number the next of its year. */
  ghost predicate Placed(now: OrderRows, was: OrderRows, l: Ledger, request: Request, c: CheckoutId, pk: OrderId) {
    && pk in now.orders && pk in now.bills && request.fee.Some? && FourDigitYear(request.year)
    && var lines := now.orders[pk].items;
       && now.orders == was.orders[pk := Order(Pending, lines, [Receipt(c, Held)], Recorded(PayPending))]
       && Merged(lines) && (forall v :: Units(lines, v) == Total(request.raw, RawUnits(v)))
       && HeldFor(l, c, lines)
       && BillOk(now.bills[pk], lines, request.prices, request.fee.value)
       && now.last == was.last[request.year := Last(was.last, request.year) + 1]
       && now.bills[pk].orderNo == OrderNo(request.year, Last(was.last, request.year) + 1)
  }

  lemma PlacedOrder(was: OrderRows, bills: map<OrderId, Bill>, l: Ledger, request: Request, c: CheckoutId, pk: OrderId, lines: seq<Line>)
    requires request.fee.Some? && FourDigitYear(request.year) && Merged(lines) && HeldFor(l, c, lines)
    requires forall v :: Units(lines, v) == Total(request.raw, RawUnits(v))
    requires pk in bills && BillOk(bills[pk], lines, request.prices, request.fee.value)
    requires bills[pk].orderNo == OrderNo(request.year, Last(was.last, request.year) + 1)
    ensures var built := was.orders[pk := Order(Pending, lines, [Receipt(c, Held)], NoSession)];
            Placed(OrderRows(built[pk := built[pk].(payment := Recorded(PayPending))], bills,
                          was.last[request.year := Last(was.last, request.year) + 1]), was, l, request, c, pk)
  {
    var ord := Order(Pending, lines, [Receipt(c, Held)], NoSession);
    var paying := ord.(payment := Recorded(PayPending));
    assert was.orders[pk := ord][pk := paying] == was.orders[pk := paying];
  }

  /** The order a checkout leaves when no session could be opened: unpayable, its receipt saying whether its stock came back. */
  ghost predicate Unpaid(now: OrderRows, was: OrderRows, request: Request, c: CheckoutId, pk: OrderId, script: Script) {
    && pk in now.orders && pk in now.bills && request.fee.Some? && FourDigitYear(request.year)
    && var ord := now.orders[pk];
       && now.orders == was.orders[pk := ord]
       && ord == Order(if script.cancel then Cancelled else Pending, ord.items,
                       [Receipt(c, if script.release == Replied then Freed else Unknown)], SessionFailed)
       && Merged(ord.items) && (forall v :: Units(ord.items, v) == Total(request.raw, RawUnits(v)))
       && BillOk(now.bills[pk], ord.items, request.prices, request.fee.value)
       && now.last == was.last[request.year := Last(was.last, request.year) + 1]
       && now.bills[pk].orderNo == OrderNo(request.year, Last(was.last, request.year) + 1)
  }

  lemma UnpaidOrder(was: OrderRows, bills: map<OrderId, Bill>, request: Request, c: CheckoutId, pk: OrderId, lines: seq<Line>, script: Script)
    requires request.fee.Some? && FourDigitYear(request.year) && Merged(lines)
    requires forall v :: Units(lines, v) == Total(request.raw, RawUnits(v))
    requires pk in bills && BillOk(bills[pk], lines, request.prices, request.fee.value)
    requires bills[pk].orderNo == OrderNo(request.year, Last(was.last, request.year) + 1)
    ensures var built := was.orders[pk := Order(Pending, lines, [Receipt(c, Held)], NoSession)];
            Unpaid(OrderRows(built[pk := Unpayable(built[pk], script.release == Replied, script.cancel)], bills,
                          was.last[request.year := Last(was.last, request.year) + 1]), was, request, c, pk, script)
  {
    var ord := Order(Pending, lines, [Receipt(c, Held)], NoSession);
    var unpayable := Unpayable(ord, script.release == Replied, script.cancel);
    assert unpayable.receipts == [Receipt(c, if script.release == Replied then Freed else Unknown)];
    assert was.orders[pk := ord][pk := unpayable] == was.orders[pk := unpayable];
  }

  /** `create_checkout_session`, or the compensation its failure needs. */
  method OpenPayment(shop: Shop, o: OrderId, script: Script) returns (r: Result<(), CheckoutError>, ghost trace: seq<Move>)
    requires shop.Valid() && o in shop.orders && shop.orders[o].payment == NoSession && shop.orders[o].status == Pending
    modifies shop.ledger, shop`orders
    ensures shop.Now() == RunWorld(old(shop.Now()), trace)
    ensures var ord := old(shop.orders)[o];
            if script.session then
              && r.Ok? && shop.ledger.State() == old(shop.ledger.State())
              && shop.orders == old(shop.orders)[o := ord.(payment := Recorded(PayPending))]
            else
              && r == Err(PaymentSessionError)
              && shop.orders == old(shop.orders)[o := Unpayable(ord, script.release == Replied, script.cancel)]
              && GivenBack(old(shop.ledger.State()), shop.ledger.State(), ReleasedBy(Own(ord), script.release))
  {
    if !script.session {
      trace := CompensateSession(shop, o, script.release, script.cancel);
      return Err(PaymentSessionError), trace;
    }
    OpensSession(shop.Now(), o);
    RunWorldOne(shop.Now(), OpenSession(o));
    shop.orders := shop.orders[o := shop.orders[o].(payment := Recorded(PayPending))];
    return Ok(()), [OpenSession(o)];
  }

  /** After S2: the order's session, or the compensation its failure needs. */
  method PayOrder(desk: Desk, request: Request, c: CheckoutId, pk: OrderId, lines: seq<Line>, script: Script,
                  ghost w: World, ghost was: OrderRows)
    returns (r: Result<OrderId, CheckoutError>, ghost trace: seq<Move>)
    requires desk.shop.Valid() && request.fee.Some? && FourDigitYear(request.year)
    requires Merged(lines) && forall v :: Units(lines, v) == Total(request.raw, RawUnits(v))
    requires HeldFor(desk.shop.ledger.State(), c, lines) && desk.shop.Now() == NextWorld(w, Build(c, pk))
    requires desk.shop.orders == was.orders[pk := Order(Pending, lines, [Receipt(c, Held)], NoSession)]
    requires desk.numbers.last == was.last[request.year := Last(was.last, request.year) + 1]
    requires pk in desk.bills && BillOk(desk.bills[pk], lines, request.prices, request.fee.value)
    requires desk.bills[pk].orderNo == OrderNo(request.year, Last(was.last, request.year) + 1)
    modifies desk.shop`orders, desk.shop.ledger
    ensures desk.shop.Now() == RunWorld(w, trace)
    ensures if script.session then r == Ok(pk) else r == Err(PaymentSessionError)
    ensures r.Ok? ==> Placed(desk.Rows(), was, desk.shop.ledger.State(), request, c, pk)
    ensures r.Err? ==> Unpaid(desk.Rows(), was, request, c, pk, script)
    ensures GivenBack(old(desk.shop.ledger.State()), desk.shop.ledger.State(),
                      if r.Ok? then {} else ReleasedBy(c, script.release))
  {
    GivenBackNone(desk.shop.ledger.State());
    UnpaidOrder(was, desk.bills, request, c, pk, lines, script);
    RunWorldOne(w, Build(c, pk));
    var paid;
    paid, trace := OpenPayment(desk.shop, pk, script);
    RunWorldAppend(w, [Build(c, pk)], trace);
    trace := [Build(c, pk)] + trace;
    if paid.Err? {
      return Err(paid.error), trace;
    }
    PlacedOrder(was, desk.bills, desk.shop.ledger.State(), request, c, pk, lines);
    return Ok(pk), trace;
  }

  /** After S1: the order, its session, and the compensation either may need. */
  method FinishOrder(desk: Desk, request: Request, c: CheckoutId, pk: OrderId, lines: seq<Line>, script: Script)
    returns (r: Result<OrderId, CheckoutError>, ghost trace: seq<Move>)
    requires desk.shop.Valid() && request.fee.Some? && Known(lines, request.prices)
    requires Merged(lines) && forall v :: Units(lines, v) == Total(request.raw, RawUnits(v))
    requires HeldFor(desk.shop.ledger.State(), c, lines) && c in desk.shop.carts && desk.shop.carts[c] == lines
    requires pk !in desk.shop.orders
    modifies desk`bills, desk.numbers, desk.shop`orders, desk.shop`carts, desk.shop.ledger
    ensures desk.shop.Now() == RunWorld(old(desk.shop.Now()), trace)
    ensures r.Ok? <==> BuiltIn(script.builds, DEADLOCK_ATTEMPTS) && Numberable(old(desk.numbers.last), request.year) && script.session
    ensures r.Ok? ==> r.value == pk && Placed(desk.Rows(), old(desk.Rows()), desk.shop.ledger.State(), request, c, pk)
    ensures r.Err? ==>
              r.error == if BuiltIn(script.builds, DEADLOCK_ATTEMPTS) && Numberable(old(desk.numbers.last), request.year)
                         then PaymentSessionError else BuildFailed
    ensures r == Err(BuildFailed) ==> desk.Rows() == old(desk.Rows())
    ensures r == Err(PaymentSessionError) ==> Unpaid(desk.Rows(), old(desk.Rows()), request, c, pk, script)
    ensures GivenBack(old(desk.shop.ledger.State()), desk.shop.ledger.State(),
                      if r.Ok? then {} else ReleasedBy(c, script.release))
  {
    ghost var w, was := desk.shop.Now(), desk.Rows();
    var built := BuildWithRetries(desk, c, pk, lines, request.prices, request.fee.value, request.year, script.builds);
    if built.Err? {
      var ok;
      ok, trace := ReleaseQuietly(desk.shop, c, script.release);
      assert RunWorld(w, trace) == desk.shop.Now();
      return Err(BuildFailed), trace;
    }
    r, trace := PayOrder(desk, request, c, pk, lines, script, w, was);
  }

  /** What the rest of the checkout does to the ledger stays within the group it added. */
  lemma FinishedFrame(l: Ledger, held: Ledger, l': Ledger, c: CheckoutId, fate: Outcome)
    requires OnlyNew(l, held, c) && GivenBack(held, l', ReleasedBy(c, fate))
    requires forall i :: 0 <= i < |l.book.holds| ==> l.book.holds[i].checkout != c
    ensures OnlyNew(l, l', c) && (fate != NeverSent ==> Settled(l'.book, c))
  {
    BackOnlyNew(l, held, l', c, fate);
  }

  /** A fresh merged cart is refused only for want of stock. */
  lemma CartRefused(l: Ledger, opening: map<int, int>, c: CheckoutId, lines: seq<Line>, e: int)
    requires LedgerOk(l, opening) && ReserveKey(c) !in l.keys && c.Minted? && Merged(lines) && lines != []
    ensures var r := ReserveLines(l, c, lines, e); r.Err? ==> r.error in {UnknownVariant, InsufficientStock}
  {
    if ReserveLines(l, c, lines, e).Err? {
      var k := ReserveRefused(l, opening, c, lines, e);
      SortMultiset(lines);
      assert SortLines(lines)[k] in multiset(SortLines(lines));
    }
  }

  /** S1 for a screened cart: it is held exactly when everything in it is in stock and the answer is heard. */
  method HoldCart(shop: Shop, request: Request, c: CheckoutId, lines: seq<Line>, script: Script)
    returns (r: Result<(), StockError>, ghost trace: seq<Move>)
    requires shop.Valid() && c.Minted? && ReserveKey(c) !in shop.ledger.keys
    requires Merged(lines) && lines != [] && forall v :: Units(lines, v) == Wanted(request.raw, v)
    modifies shop.ledger, shop`carts
    ensures shop.Valid() && shop.Now() == RunWorld(old(shop.Now()), trace)
    ensures r.Ok? <==> script.reserve == Replied && InStock(old(shop.ledger.State()).book, request.raw)
    ensures r.Ok? ==> HeldFor(shop.ledger.State(), c, lines) && c in shop.carts && shop.carts[c] == lines
    ensures r.Err? && script.release == Replied ==> Settled(shop.ledger.State().book, c)
    ensures r.Err? && r.error != ReservationUnavailable ==> shop.Now() == old(shop.Now())
    ensures r.Err? ==> r.error in if script.reserve == Replied then {UnknownVariant, InsufficientStock} else {ReservationUnavailable}
    ensures OnlyNew(old(shop.ledger.State()), shop.ledger.State(), c)
  {
    CartRefused(shop.ledger.State(), shop.ledger.opening, c, lines, request.now + 60 * Ttl(None));
    HoldExactly(shop.ledger.State(), shop.ledger.opening, c, lines, request.raw, request.now + 60 * Ttl(None));
    r, trace := SecureStock(shop, c, lines, request.now, script.reserve, script.release);
  }

  lemma NothingNew(l: Ledger, c: CheckoutId)
    ensures OnlyNew(l, l, c)
  {}

  /** What a checkout may be refused with before its order is built. */
  ghost function Refusals(request: Request, script: Script, stocked: bool): set<CheckoutError> {
    if !Screened(request) then {ScreenError(request)}
    else if script.reserve != Replied then {StockRefused(ReservationUnavailable)}
    else if !stocked then {StockRefused(UnknownVariant), StockRefused(InsufficientStock)}
    else {}
  }

  /** Everything before the order row: the screened cart, its stock held under the id. */
  method SecureCart(shop: Shop, request: Request, c: CheckoutId, script: Script)
    returns (r: Result<seq<Line>, CheckoutError>, ghost trace: seq<Move>)
    requires shop.Valid() && c.Minted? && ReserveKey(c) !in shop.ledger.keys
    modifies shop.ledger, shop`carts
    ensures shop.Valid() && shop.Now() == RunWorld(old(shop.Now()), trace)
    ensures r.Ok? <==> Screened(request) && script.reserve == Replied && InStock(old(shop.ledger.State()).book, request.raw)
    ensures r.Ok? ==>
              && request.fee.Some? && Known(r.value, request.prices) && Merged(r.value)
              && (forall v :: Units(r.value, v) == Total(request.raw, RawUnits(v)))
              && HeldFor(shop.ledger.State(), c, r.value) && c in shop.carts && shop.carts[c] == r.value
    ensures r.Err? && script.release == Replied ==> Settled(shop.ledger.State().book, c)
    ensures r.Err? && r.error != StockRefused(ReservationUnavailable) ==> shop.Now() == old(shop.Now())
    ensures r.Err? ==> r.error in Refusals(request, script, InStock(old(shop.ledger.State()).book, request.raw))
    ensures OnlyNew(old(shop.ledger.State()), shop.ledger.State(), c)
  {
    NobodysRows(shop.ledger.State(), shop.ledger.opening, c);
    NothingNew(shop.ledger.State(), c);
    r := Screen(request);
    if r.Err? {
      return r, [];
    }
    var held;
    held, trace := HoldCart(shop, request, c, r.value, script);
    if held.Err? {
      r := Err(StockRefused(held.error));
    }
  }

  /**
   * `place_order`, with a fresh checkout id and a fresh primary key. Every exit is a
   * pending order whose group holds exactly its lines, or leaves no active hold under
   * the id whenever the release was answered, deadlock retries included. No exit touches
   * any other hold.
   */
  method PlaceOrder(desk: Desk, request: Request, c: CheckoutId, pk: OrderId, script: Script)
    returns (r: Result<OrderId, CheckoutError>, ghost trace: seq<Move>)
    requires desk.shop.Valid() && c.Minted? && ReserveKey(c) !in desk.shop.ledger.keys && pk !in desk.shop.orders
    modifies desk`bills, desk.numbers, desk.shop`orders, desk.shop`carts, desk.shop.ledger
    ensures desk.shop.Now() == RunWorld(old(desk.shop.Now()), trace)
    ensures r.Ok? <==>
              && Screened(request) && script.reserve == Replied && InStock(old(desk.shop.ledger.State()).book, request.raw)
              && BuiltIn(script.builds, DEADLOCK_ATTEMPTS) && Numberable(old(desk.numbers.last), request.year) && script.session
    ensures r.Ok? ==> r.value == pk && Placed(desk.Rows(), old(desk.Rows()), desk.shop.ledger.State(), request, c, pk)
    ensures OnlyNew(old(desk.shop.ledger.State()), desk.shop.ledger.State(), c)
    ensures r == Err(PaymentSessionError) ==> Unpaid(desk.Rows(), old(desk.Rows()), request, c, pk, script)
    ensures r.Err? && r.error != PaymentSessionError ==> desk.Rows() == old(desk.Rows())
    ensures r.Err? ==>
              var refusals := Refusals(request, script, InStock(old(desk.shop.ledger.State()).book, request.raw));
              if refusals != {} then r.error in refusals
              else r.error == if BuiltIn(script.builds, DEADLOCK_ATTEMPTS) && Numberable(old(desk.numbers.last), request.year)
                              then PaymentSessionError else BuildFailed
    ensures r.Err? && script.release == Replied ==> Settled(desk.shop.ledger.State().book, c)
    ensures r.Err? && r.error !in {StockRefused(ReservationUnavailable), BuildFailed, PaymentSessionError} ==>
              desk.shop.Now() == old(desk.shop.Now())
  {
    ghost var l := desk.shop.ledger.State();
    NobodysRows(l, desk.shop.ledger.opening, c);
    var lines;
    lines, trace := SecureCart(desk.shop, request, c, script);
    if lines.Err? {
      return Err(lines.error), trace;
    }
    ghost var more;
    ghost var held := desk.shop.ledger.State();
    r, more := FinishOrder(desk, request, c, pk, lines.value, script);
    RunWorldAppend(old(desk.shop.Now()), trace, more);
    trace := trace + more;
    FinishedFrame(l, held, desk.shop.ledger.State(), c, if r.Ok? then NeverSent else script.release);
  }
}
