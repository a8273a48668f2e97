/**
 * The stock ledger's tables and the row-level mutations both implementations of
 * the ledger share (apps/inventory/models.py, apps/inventory/providers/local.py,
 * services/inventory/models.py, services/inventory/api.py).
 */
module Books {
  import opened Wrappers
  import opened Totals
  import opened Lines

  type OrderId = int

  /**
   * The identity a hold group goes by. `uuid4` values are fresh tokens and
   * `shortfall-<order>-<variant>` is injective in its two numbers; the two forms
   * never meet.
   */
  datatype CheckoutId = Blank | Minted(token: nat) | Shortfall(order: OrderId, variant: int)

  datatype Counters = Counters(onHand: int, reserved: int) {
    function Available(): int { onHand - reserved }
  }

  datatype HoldStatus = Active | Committed | Released | Expired

  /** A Reservation row; its primary key is its position in the table. */
  datatype Hold = Hold(variant: int, qty: int, status: HoldStatus, checkout: CheckoutId,
                       order: Option<OrderId>, expiresAt: int)

  datatype Reason = Sale | Restock | Adjustment | Return

  datatype Movement = Movement(variant: int, delta: int, reason: Reason, order: Option<OrderId>)

  datatype Book = Book(stock: map<int, Counters>, holds: seq<Hold>, moves: seq<Movement>)

  datatype StockError =
    | BadValue
    | UnknownVariant
    | InsufficientStock
    | InvalidReservationState
    | InvalidStockAdjustment
    | ReservationUnavailable

  // ---------------------------------------------------------------- mutations

  function PlaceHold(b: Book, c: CheckoutId, x: Line, expiresAt: int): Result<Book, StockError> {
    if x.qty < 1 then Err(BadValue)
    else if x.variant !in b.stock then Err(UnknownVariant)
    else if b.stock[x.variant].Available() < x.qty then Err(InsufficientStock)
    else
      var was := b.stock[x.variant];
      Ok(b.(stock := b.stock[x.variant := was.(reserved := was.reserved + x.qty)],
            holds := b.holds + [Hold(x.variant, x.qty, Active, c, None, expiresAt)]))
  }

  function CommitHold(b: Book, pk: nat, order: Option<OrderId>): Result<Book, StockError>
    requires pk < |b.holds|
  {
    var h := b.holds[pk];
    if h.status != Active then Err(InvalidReservationState)
    else if h.variant !in b.stock then Err(UnknownVariant)
    else
      var was := b.stock[h.variant];
      if was.onHand < h.qty || was.reserved < h.qty then Err(InvalidReservationState)
      else
        Ok(Book(b.stock[h.variant := Counters(was.onHand - h.qty, was.reserved - h.qty)],
                b.holds[pk := h.(status := Committed, order := order)],
                b.moves + [Movement(h.variant, -h.qty, Sale, order)]))
  }

  /** `_end_active_reservation`: gives an active hold's units back. */
  function EndHold(b: Book, pk: nat, terminal: HoldStatus): Result<Book, StockError>
    requires pk < |b.holds|
  {
    var h := b.holds[pk];
    if h.variant !in b.stock then Err(UnknownVariant)
    else
      var was := b.stock[h.variant];
      if was.reserved < h.qty then Err(InvalidReservationState)
      else
        Ok(b.(stock := b.stock[h.variant := was.(reserved := was.reserved - h.qty)],
              holds := b.holds[pk := h.(status := terminal)]))
  }

  function ReleaseHold(b: Book, pk: nat): Result<Book, StockError>
    requires pk < |b.holds|
  {
    match b.holds[pk].status
    case Released => Ok(b)
    case Expired => Ok(b)
    case Committed => Err(InvalidReservationState)
    case Active => EndHold(b, pk, Released)
  }

  /** One row of the sweep: re-checked under the lock, then expired. */
  function ExpireHold(b: Book, pk: nat, now: int): Result<Book, StockError>
    requires pk < |b.holds|
  {
    if b.holds[pk].status != Active || b.holds[pk].expiresAt > now then Ok(b)
    else EndHold(b, pk, Expired)
  }

  function AdjustStock(b: Book, v: int, delta: int, reason: Reason, order: Option<OrderId>): Result<Book, StockError> {
    if delta == 0 then Err(InvalidStockAdjustment)
    else if reason == Sale then Err(InvalidStockAdjustment)
    else if (reason == Restock || reason == Return) && delta < 0 then Err(InvalidStockAdjustment)
    else if v !in b.stock then Err(UnknownVariant)
    else
      var was := b.stock[v];
      if was.onHand + delta < was.reserved then Err(InvalidStockAdjustment)
      else
        Ok(b.(stock := b.stock[v := was.(onHand := was.onHand + delta)],
              moves := b.moves + [Movement(v, delta, reason, order)]))
  }

  // ----------------------------------------------------------------- measures

  function ActiveOf(v: int): Hold -> int {
    (h: Hold) => if h.status == Active && h.variant == v then h.qty else 0
  }

  function DeltaOf(v: int): Movement -> int {
    (m: Movement) => if m.variant == v then m.delta else 0
  }

  /** One for each committed hold of exactly this shape. */
  function CommittedAs(v: int, q: int, o: Option<OrderId>): Hold -> int {
    (h: Hold) => if h.status == Committed && h.variant == v && h.qty == q && h.order == o then 1 else 0
  }

  /** One for each sale movement of exactly this shape. */
  function SaleAs(v: int, q: int, o: Option<OrderId>): Movement -> int {
    (m: Movement) => if m.reason == Sale && m.variant == v && m.delta == -q && m.order == o then 1 else 0
  }

  function CommittedFor(o: Option<OrderId>, v: int): Hold -> int {
    (h: Hold) => if h.status == Committed && h.order == o && h.variant == v then h.qty else 0
  }

  function SoldFor(o: Option<OrderId>, v: int): Movement -> int {
    (m: Movement) => if m.reason == Sale && m.order == o && m.variant == v then -m.delta else 0
  }

  function ReturnedFor(o: Option<OrderId>, v: int): Movement -> int {
    (m: Movement) => if m.reason == Return && m.order == o && m.variant == v then m.delta else 0
  }

  /** Committed units of one checkout group and variant. */
  function CommittedOf(c: CheckoutId, v: int): Hold -> int {
    (h: Hold) => if h.status == Committed && h.checkout == c && h.variant == v then h.qty else 0
  }

  /** Units of `v` sold to order `o`, read off the audit trail. */
  function SoldUnits(b: Book, o: OrderId, v: int): int { Total(b.moves, SoldFor(Some(o), v)) }

  /** Units of `v` returned for order `o`, read off the audit trail. */
  function ReturnedUnits(b: Book, o: OrderId, v: int): int { Total(b.moves, ReturnedFor(Some(o), v)) }

  /** Units of `v` committed under checkout `c`. */
  function CommittedIn(b: Book, c: CheckoutId, v: int): int { Total(b.holds, CommittedOf(c, v)) }

  /** No hold of the group is still active. */
  predicate Settled(b: Book, c: CheckoutId) {
    forall i :: 0 <= i < |b.holds| && b.holds[i].checkout == c ==> b.holds[i].status != Active
  }

  // ------------------------------------------------------------- selecting rows

  const RESERVATION_TTL_MINUTES := 15

  /** `ttl_minutes or settings.RESERVATION_TTL_MINUTES` */
  function Ttl(minutes: Option<nat>): nat {
    match minutes
    case None => RESERVATION_TTL_MINUTES
    case Some(t) => if t == 0 then RESERVATION_TTL_MINUTES else t
  }

  /** The rows of one hold group. */
  function InGroup(c: CheckoutId): Hold -> bool { (h: Hold) => h.checkout == c }

  /** The rows whose time is up. */
  function Overdue(now: int): Hold -> bool { (h: Hold) => h.expiresAt <= now }

  // --------------------------------------------------------------- invariants

  /** The counters equal what they cache: active holds, and opening balance plus movements. */
  ghost predicate Counted(b: Book, opening: map<int, int>) {
    && b.stock.Keys == opening.Keys
    && forall v :: v in b.stock ==>
         && 0 <= b.stock[v].reserved <= b.stock[v].onHand
         && b.stock[v].reserved == Total(b.holds, ActiveOf(v))
         && b.stock[v].onHand == opening[v] + Total(b.moves, DeltaOf(v))
  }

  predicate SignAgrees(m: Movement) {
    match m.reason
    case Sale => m.delta < 0
    case Restock => m.delta > 0
    case Return => m.delta > 0
    case Adjustment => m.delta != 0
  }

  predicate HoldOk(b: Book, h: Hold) {
    h.qty >= 1 && h.variant in b.stock && (h.status != Committed ==> h.order == None)
  }

  ghost predicate WellFormed(b: Book) {
    && (forall i :: 0 <= i < |b.holds| ==> HoldOk(b, b.holds[i]))
    && (forall i :: 0 <= i < |b.moves| ==> b.moves[i].variant in b.stock && SignAgrees(b.moves[i]))
  }

  /** Committed holds and sale movements match one to one. */
  ghost predicate Matched(b: Book) {
    forall v, q, o :: Total(b.holds, CommittedAs(v, q, o)) == Total(b.moves, SaleAs(v, q, o))
  }

  /** What was committed for an order is what its sale movements say. */
  ghost predicate SalesAgree(b: Book) {
    forall o, v :: Total(b.holds, CommittedFor(o, v)) == Total(b.moves, SoldFor(o, v))
  }

  ghost predicate BookOk(b: Book, opening: map<int, int>) {
    Counted(b, opening) && WellFormed(b) && Matched(b) && SalesAgree(b)
  }

  /**
   * What never changes once written: a hold's identity, an ended hold, and every
   * recorded movement.
   */
  ghost predicate Extends(b: Book, later: Book) {
    && |b.holds| <= |later.holds|
    && (forall i :: 0 <= i < |b.holds| ==>
          && later.holds[i].variant == b.holds[i].variant
          && later.holds[i].qty == b.holds[i].qty
          && later.holds[i].checkout == b.holds[i].checkout
          && later.holds[i].expiresAt == b.holds[i].expiresAt
          && (b.holds[i].status != Active ==> later.holds[i] == b.holds[i]))
    && b.moves <= later.moves
    && b.stock.Keys == later.stock.Keys
  }

  lemma ExtendsTransitive(a: Book, b: Book, c: Book)
    requires Extends(a, b) && Extends(b, c)
    ensures Extends(a, c)
  {
    forall i | 0 <= i < |a.moves| ensures a.moves[i] == c.moves[i] {
      assert a.moves[i] == b.moves[i];
    }
  }

  // --------------------------------------------------- each mutation keeps them

  lemma PlaceHoldKeeps(b: Book, opening: map<int, int>, c: CheckoutId, x: Line, expiresAt: int)
    requires BookOk(b, opening) && PlaceHold(b, c, x, expiresAt).Ok?
    ensures BookOk(PlaceHold(b, c, x, expiresAt).value, opening)
    ensures Extends(b, PlaceHold(b, c, x, expiresAt).value)
  {
    var after := PlaceHold(b, c, x, expiresAt).value;
    var h := Hold(x.variant, x.qty, Active, c, None, expiresAt);
    forall v ensures Total(after.holds, ActiveOf(v)) == Total(b.holds, ActiveOf(v)) + ActiveOf(v)(h) {
      TotalSnoc(b.holds, h, ActiveOf(v));
    }
    forall v, q, o ensures Total(after.holds, CommittedAs(v, q, o)) == Total(b.holds, CommittedAs(v, q, o)) {
      TotalSnoc(b.holds, h, CommittedAs(v, q, o));
    }
    forall v, o ensures Total(after.holds, CommittedFor(o, v)) == Total(b.holds, CommittedFor(o, v)) {
      TotalSnoc(b.holds, h, CommittedFor(o, v));
    }
  }

  /** A sale moves its row from one side of each match to both. */
  lemma CommitHoldSums(b: Book, pk: nat, order: Option<OrderId>)
    requires pk < |b.holds| && CommitHold(b, pk, order).Ok? && HoldOk(b, b.holds[pk]) && Matched(b) && SalesAgree(b)
    ensures Matched(CommitHold(b, pk, order).value) && SalesAgree(CommitHold(b, pk, order).value)
  {
    var after := CommitHold(b, pk, order).value;
    var h, h' := b.holds[pk], after.holds[pk];
    var m := Movement(h.variant, -h.qty, Sale, order);
    forall v, q, o ensures Total(after.holds, CommittedAs(v, q, o)) == Total(after.moves, SaleAs(v, q, o)) {
      TotalUpdate(b.holds, pk, h', CommittedAs(v, q, o));
      TotalSnoc(b.moves, m, SaleAs(v, q, o));
    }
    forall o, v ensures Total(after.holds, CommittedFor(o, v)) == Total(after.moves, SoldFor(o, v)) {
      TotalUpdate(b.holds, pk, h', CommittedFor(o, v));
      TotalSnoc(b.moves, m, SoldFor(o, v));
    }
  }

  lemma CommitHoldKeeps(b: Book, opening: map<int, int>, pk: nat, order: Option<OrderId>)
    requires BookOk(b, opening) && pk < |b.holds| && CommitHold(b, pk, order).Ok?
    ensures BookOk(CommitHold(b, pk, order).value, opening)
    ensures Extends(b, CommitHold(b, pk, order).value)
  {
    var after := CommitHold(b, pk, order).value;
    var h, h' := b.holds[pk], after.holds[pk];
    var m := Movement(h.variant, -h.qty, Sale, order);
    assert HoldOk(b, h);
    CommitHoldSums(b, pk, order);
    forall v
      ensures Total(after.holds, ActiveOf(v)) == Total(b.holds, ActiveOf(v)) - ActiveOf(v)(h)
      ensures Total(after.moves, DeltaOf(v)) == Total(b.moves, DeltaOf(v)) + DeltaOf(v)(m)
    {
      TotalUpdate(b.holds, pk, h', ActiveOf(v));
      TotalSnoc(b.moves, m, DeltaOf(v));
    }
    forall i | 0 <= i < |after.holds| ensures HoldOk(after, after.holds[i]) {
      assert HoldOk(b, b.holds[i]);
    }
  }

  lemma EndHoldKeeps(b: Book, opening: map<int, int>, pk: nat, terminal: HoldStatus)
    requires BookOk(b, opening) && pk < |b.holds| && b.holds[pk].status == Active
    requires terminal == Released || terminal == Expired
    requires EndHold(b, pk, terminal).Ok?
    ensures BookOk(EndHold(b, pk, terminal).value, opening)
    ensures Extends(b, EndHold(b, pk, terminal).value)
  {
    var after := EndHold(b, pk, terminal).value;
    var h, h' := b.holds[pk], after.holds[pk];
    assert HoldOk(b, h);
    forall v ensures Total(after.holds, ActiveOf(v)) == Total(b.holds, ActiveOf(v)) - ActiveOf(v)(h) {
      TotalUpdate(b.holds, pk, h', ActiveOf(v));
    }
    forall v, q, o ensures Total(after.holds, CommittedAs(v, q, o)) == Total(b.holds, CommittedAs(v, q, o)) {
      TotalUpdate(b.holds, pk, h', CommittedAs(v, q, o));
    }
    forall o, v ensures Total(after.holds, CommittedFor(o, v)) == Total(b.holds, CommittedFor(o, v)) {
      TotalUpdate(b.holds, pk, h', CommittedFor(o, v));
    }
    forall i | 0 <= i < |after.holds| ensures HoldOk(after, after.holds[i]) {
      assert HoldOk(b, b.holds[i]);
    }
  }

  lemma AdjustStockKeeps(b: Book, opening: map<int, int>, v: int, delta: int, reason: Reason, order: Option<OrderId>)
    requires BookOk(b, opening) && AdjustStock(b, v, delta, reason, order).Ok?
    ensures BookOk(AdjustStock(b, v, delta, reason, order).value, opening)
    ensures Extends(b, AdjustStock(b, v, delta, reason, order).value)
  {
    var after := AdjustStock(b, v, delta, reason, order).value;
    var m := Movement(v, delta, reason, order);
    forall w ensures Total(after.moves, DeltaOf(w)) == Total(b.moves, DeltaOf(w)) + DeltaOf(w)(m) {
      TotalSnoc(b.moves, m, DeltaOf(w));
    }
    forall w, q, o ensures Total(after.moves, SaleAs(w, q, o)) == Total(b.moves, SaleAs(w, q, o)) {
      TotalSnoc(b.moves, m, SaleAs(w, q, o));
    }
    forall o, w ensures Total(after.moves, SoldFor(o, w)) == Total(b.moves, SoldFor(o, w)) {
      TotalSnoc(b.moves, m, SoldFor(o, w));
    }
    forall i | 0 <= i < |after.holds| ensures HoldOk(after, after.holds[i]) {
      assert HoldOk(b, b.holds[i]);
    }
  }

  // ----------------------------------------------------- what the invariants buy

  /** The underflow guards never fire: an active hold can always be sold or given back. */
  lemma GuardsNeverFire(b: Book, opening: map<int, int>, pk: nat, order: Option<OrderId>, terminal: HoldStatus)
    requires BookOk(b, opening) && pk < |b.holds| && b.holds[pk].status == Active
    ensures CommitHold(b, pk, order).Ok?
    ensures EndHold(b, pk, terminal).Ok?
  {
    var h := b.holds[pk];
    forall j | 0 <= j < |b.holds| ensures ActiveOf(h.variant)(b.holds[j]) >= 0 {
      assert HoldOk(b, b.holds[j]);
    }
    assert HoldOk(b, h);
    TotalAtLeast(b.holds, pk, ActiveOf(h.variant));
  }

  /** Units of `v` that entered stock other than by a sale. */
  function NonSaleOf(v: int): Movement -> int {
    (m: Movement) => if m.variant == v && m.reason != Sale then m.delta else 0
  }

  function SaleOf(v: int): Movement -> int {
    (m: Movement) => if m.variant == v && m.reason == Sale then m.delta else 0
  }

  /** What one more movement adds to each account of a variant. */
  lemma MovementCounts(b: Book, m: Movement, v: int)
    ensures var sale, other := if m.variant == v && m.reason == Sale then m.delta else 0,
                               if m.variant == v && m.reason != Sale then m.delta else 0;
            && Total(b.moves + [m], SaleOf(v)) == Total(b.moves, SaleOf(v)) + sale
            && Total(b.moves + [m], NonSaleOf(v)) == Total(b.moves, NonSaleOf(v)) + other
            && Total(b.moves + [m], DeltaOf(v)) == Total(b.moves, DeltaOf(v)) + sale + other
  {
    TotalSnoc(b.moves, m, SaleOf(v));
    TotalSnoc(b.moves, m, NonSaleOf(v));
    TotalSnoc(b.moves, m, DeltaOf(v));
  }

  /** No oversell: units sold plus units held never exceed what was ever stocked. */
  lemma NoOversell(b: Book, opening: map<int, int>, v: int)
    requires BookOk(b, opening) && v in b.stock
    ensures -Total(b.moves, SaleOf(v)) + Total(b.holds, ActiveOf(v))
         <= opening[v] + Total(b.moves, NonSaleOf(v))
  {
    TotalSplit(b.moves, DeltaOf(v), NonSaleOf(v), SaleOf(v));
  }

  /** In a sound book nothing is over-reserved. */
  lemma NeverOverReserved(b: Book, opening: map<int, int>)
    requires BookOk(b, opening)
    ensures forall u :: u in b.stock ==> b.stock[u].Available() >= 0
  {}
}
