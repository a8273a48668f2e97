/**
 * The remote ledger (services/inventory/api.py, services/inventory/idempotency.py):
 * every mutation claims an idempotency key in its own transaction and stores its
 * answer under it. Hashes are taken to be injective, so a key is its route and token
 * and a fingerprint is the body itself.
 */
module Services {
  import opened Wrappers
  import opened Lines
  import opened Books
  import opened Ledgers

  // ------------------------------------------------------------ the wire

  datatype Body =
    | ReserveBody(checkout: CheckoutId, lines: seq<Line>, ttl: Option<nat>)
    | CommitBody(order: Option<OrderId>)
    | ReleaseBody
    | AdjustBody(variant: int, delta: int, reason: Option<Reason>, order: Option<OrderId>)

  /** The strings keys are made of; `<id>:commit` and `<id>:release` are distinct from every id. */
  datatype Token = OfCheckout(checkout: CheckoutId) | OfCommit(checkout: CheckoutId) | OfRelease(checkout: CheckoutId)
                 | OfBody(body: Body) | Custom(n: nat)

  /** `path` is the checkout id in the URL of a commit or a release. */
  datatype Request = Request(path: CheckoutId, header: Option<Token>, body: Body)

  datatype Problem = KeyRequired | KeyReuse | InProgress | Invalid | NoSuchVariant | Insufficient | CannotCover | Underflow | WouldBreak

  datatype Reply =
    | HeldRows(pks: seq<nat>)
    | SoldRows(lines: seq<Line>)
    | ReleasedRows(count: nat)
    | StockNow(counters: Counters)
    | Refusal(problem: Problem)

  datatype Answer = Answer(status: nat, reply: Reply)

  datatype Route = ReserveRoute | CommitRoute | ReleaseRoute | AdjustRoute

  /** `hash_key`: namespaced by route, so one id can guard a reserve and a commit. */
  datatype HashKey = HashKey(route: Route, token: Token)

  /** Status 0 is a claim whose transaction has not committed. */
  datatype Record = Record(fingerprint: Body, status: nat, reply: Reply)

  datatype Service = Service(book: Book, records: map<HashKey, Record>)

  function RouteOf(body: Body): Route {
    match body
    case ReserveBody(_, _, _) => ReserveRoute
    case CommitBody(_) => CommitRoute
    case ReleaseBody => ReleaseRoute
    case AdjustBody(_, _, _, _) => AdjustRoute
  }

  function StatusOf(body: Body): nat { if body.ReserveBody? then 201 else 200 }

  /** The header, or the handler's own default; adjustments have none. */
  function TokenOf(r: Request): Option<Token> {
    if r.header.Some? then r.header
    else
      match r.body
      case ReserveBody(c, _, _) => Some(OfCheckout(c))
      case CommitBody(_) => Some(OfCommit(r.path))
      case ReleaseBody => Some(OfRelease(r.path))
      case AdjustBody(_, _, _, _) => None
  }

  /** What the contract's schema lets through to a handler. */
  predicate Validated(body: Body) {
    body.ReserveBody? ==>
      body.checkout != Blank && body.lines != [] && forall i :: 0 <= i < |body.lines| ==> body.lines[i].qty >= 1
  }

  // ------------------------------------------------------------ the mutations

  function Deny(status: nat, problem: Problem): Answer { Answer(status, Refusal(problem)) }

  function Rows(first: nat, n: nat): seq<nat> { seq(n, i => first + i) }

  /** The rows `select` picks among the active ones, by primary key. */
  function ActiveRows(holds: seq<Hold>, select: Hold -> bool): (pks: seq<nat>)
    ensures forall k :: 0 <= k < |pks| ==> pks[k] < |holds|
  {
    if holds == [] then []
    else
      var n := |holds| - 1;
      ActiveRows(holds[..n], select) + if holds[n].status == Active && select(holds[n]) then [n] else []
  }

  function InsertRow(holds: seq<Hold>, sorted: seq<nat>, pk: nat): (pks: seq<nat>)
    requires pk < |holds| && forall k :: 0 <= k < |sorted| ==> sorted[k] < |holds|
    ensures forall k :: 0 <= k < |pks| ==> pks[k] < |holds|
  {
    if sorted == [] || holds[sorted[|sorted| - 1]].variant <= holds[pk].variant then sorted + [pk]
    else InsertRow(holds, sorted[..|sorted| - 1], pk) + [sorted[|sorted| - 1]]
  }

  /** `ORDER BY variant_id` */
  function ByVariant(holds: seq<Hold>, pks: seq<nat>): (r: seq<nat>)
    requires forall k :: 0 <= k < |pks| ==> pks[k] < |holds|
    ensures forall k :: 0 <= k < |r| ==> r[k] < |holds|
  {
    if pks == [] then [] else InsertRow(holds, ByVariant(holds, pks[..|pks| - 1]), pks[|pks| - 1])
  }

  function Selected(holds: seq<Hold>, select: Hold -> bool): (pks: seq<nat>)
    ensures forall k :: 0 <= k < |pks| ==> pks[k] < |holds|
  {
    ByVariant(holds, ActiveRows(holds, select))
  }

  /** One sale: only the shelf count is checked. */
  function SellRow(b: Book, pk: nat, order: Option<OrderId>): Result<Book, Answer>
    requires pk < |b.holds|
  {
    var h := b.holds[pk];
    if h.variant !in b.stock || b.stock[h.variant].onHand < h.qty then Err(Deny(409, CannotCover))
    else
      var was := b.stock[h.variant];
      Ok(Book(b.stock[h.variant := Counters(was.onHand - h.qty, was.reserved - h.qty)],
              b.holds[pk := h.(status := Committed, order := order)],
              b.moves + [Movement(h.variant, -h.qty, Sale, order)]))
  }

  function SellRows(b: Book, pks: seq<nat>, order: Option<OrderId>): (r: Result<Book, Answer>)
    requires forall k :: 0 <= k < |pks| ==> pks[k] < |b.holds|
    ensures r.Ok? ==> |r.value.holds| == |b.holds|
  {
    if pks == [] then Ok(b)
    else
      match SellRows(b, pks[..|pks| - 1], order)
      case Err(a) => Err(a)
      case Ok(b') => SellRow(b', pks[|pks| - 1], order)
  }

  /** `_release_all` */
  function EndRows(b: Book, pks: seq<nat>, terminal: HoldStatus): (r: Result<Book, Answer>)
    requires forall k :: 0 <= k < |pks| ==> pks[k] < |b.holds|
    ensures r.Ok? ==> |r.value.holds| == |b.holds|
  {
    if pks == [] then Ok(b)
    else
      match EndRows(b, pks[..|pks| - 1], terminal)
      case Err(a) => Err(a)
      case Ok(b') =>
        match EndHold(b', pks[|pks| - 1], terminal)
        case Err(_) => Err(Deny(409, Underflow))
        case Ok(b'') => Ok(b'')
  }

  function RowLines(holds: seq<Hold>, pks: seq<nat>): seq<Line>
    requires forall k :: 0 <= k < |pks| ==> pks[k] < |holds|
  {
    seq(|pks|, k requires 0 <= k < |pks| => Line(holds[pks[k]].variant, holds[pks[k]].qty))
  }

  function ServeReserve(b: Book, c: CheckoutId, lines: seq<Line>, expiresAt: int): Result<(Book, Reply), Answer> {
    match HoldAll(b, c, SortLines(lines), expiresAt)
    case Err(e) => Err(if e == InsufficientStock then Deny(409, Insufficient) else Deny(404, NoSuchVariant))
    case Ok(b') => Ok((b', HeldRows(Rows(|b.holds|, |lines|))))
  }

  function ServeCommit(b: Book, c: CheckoutId, order: Option<OrderId>): Result<(Book, Reply), Answer> {
    var pks := Selected(b.holds, InGroup(c));
    match SellRows(b, pks, order)
    case Err(a) => Err(a)
    case Ok(b') => Ok((b', SoldRows(RowLines(b.holds, pks))))
  }

  function ServeRelease(b: Book, c: CheckoutId): Result<(Book, Reply), Answer> {
    var pks := Selected(b.holds, InGroup(c));
    match EndRows(b, pks, Released)
    case Err(a) => Err(a)
    case Ok(b') => Ok((b', ReleasedRows(|pks|)))
  }

  /** A return that names an order is cut to what of it is still out. */
  function Clamped(b: Book, v: int, delta: int, reason: Reason, order: Option<OrderId>): int {
    if reason == Return && order.Some? then
      Min(delta, Max(0, SoldUnits(b, order.value, v) - ReturnedUnits(b, order.value, v)))
    else delta
  }

  function ServeAdjust(b: Book, v: int, delta: int, reason: Option<Reason>, order: Option<OrderId>): Result<(Book, Reply), Answer> {
    if delta == 0 || reason == Some(Sale) || reason.None? then Err(Deny(400, Invalid))
    else if (reason.value == Restock || reason.value == Return) && delta < 0 then Err(Deny(400, Invalid))
    else if v !in b.stock then Err(Deny(404, NoSuchVariant))
    else
      var d := Clamped(b, v, delta, reason.value, order);
      var was := b.stock[v];
      if was.onHand + d < was.reserved then Err(Deny(409, WouldBreak))
      else
        var now := was.(onHand := was.onHand + d);
        Ok((b.(stock := b.stock[v := now], moves := if d == 0 then b.moves else b.moves + [Movement(v, d, reason.value, order)]),
            StockNow(now)))
  }

  function Serve(b: Book, r: Request, now: int): Result<(Book, Reply), Answer> {
    match r.body
    case ReserveBody(c, lines, ttl) => ServeReserve(b, c, lines, now + 60 * Ttl(ttl))
    case CommitBody(order) => ServeCommit(b, r.path, order)
    case ReleaseBody => ServeRelease(b, r.path)
    case AdjustBody(v, d, reason, order) => ServeAdjust(b, v, d, reason, order)
  }

  // ------------------------------------------------------------ claim, serve, record

  /** The claim of a request: nothing to claim, an answer already due, or a key to record under. */
  datatype Claim = Answered(answer: Answer) | Claimed(key: HashKey)

  function ClaimOf(s: Service, r: Request): Claim {
    match TokenOf(r)
    case None => Answered(Deny(400, KeyRequired))
    case Some(token) =>
      var key := HashKey(RouteOf(r.body), token);
      if key !in s.records then Claimed(key)
      else if s.records[key].fingerprint != r.body then Answered(Deny(422, KeyReuse))
      else if s.records[key].status == 0 then Answered(Deny(409, InProgress))
      else Answered(Answer(s.records[key].status, s.records[key].reply))
  }

  /** One request, in one transaction. */
  function Handle(s: Service, r: Request, now: int): (Service, Answer) {
    if !Validated(r.body) then (s, Deny(422, Invalid))
    else
      match ClaimOf(s, r)
      case Answered(a) => (s, a)
      case Claimed(key) =>
        match Serve(s.book, r, now)
        case Err(a) => (s, a)
        case Ok((b, reply)) =>
          (Service(b, s.records[key := Record(r.body, StatusOf(r.body), reply)]), Answer(StatusOf(r.body), reply))
  }

  /** The sweep carries no key: a hold can only leave ACTIVE once. */
  function Sweep(s: Service, now: int): Service {
    match EndRows(s.book, Selected(s.book.holds, Overdue(now)), Expired)
    case Err(_) => s
    case Ok(b) => s.(book := b)
  }

  // ------------------------------------------------------------ any traffic

  datatype Event = Ask(request: Request, now: int) | Tick(now: int)

  function Next(s: Service, e: Event): Service {
    match e
    case Ask(r, now) => Handle(s, r, now).0
    case Tick(now) => Sweep(s, now)
  }

  function Run(s: Service, events: seq<Event>): Service {
    if events == [] then s else Next(Run(s, events[..|events| - 1]), events[|events| - 1])
  }

  /** The request applies its mutation, under this key. */
  predicate Applies(s: Service, e: Event, key: HashKey) {
    e.Ask? && Validated(e.request.body) && ClaimOf(s, e.request) == Claimed(key) && Serve(s.book, e.request, e.now).Ok?
  }

  /** How many of the events applied a mutation under the key. */
  function Applied(s: Service, events: seq<Event>, key: HashKey): nat {
    if events == [] then 0
    else
      var n := |events| - 1;
      Applied(s, events[..n], key) + if Applies(Run(s, events[..n]), events[n], key) then 1 else 0
  }

  /** A key gains its record exactly in the event that applies under it, and keeps it. */
  lemma RecordsOnce(s: Service, e: Event, key: HashKey)
    ensures key in s.records ==> !Applies(s, e, key) && key in Next(s, e).records && Next(s, e).records[key] == s.records[key]
    ensures key !in s.records ==> (key in Next(s, e).records <==> Applies(s, e, key))
  {
    if e.Ask? {
      HandleRecords(s, e.request, e.now);
    }
  }

  lemma HandleRecords(s: Service, r: Request, now: int)
    ensures Handle(s, r, now).0.records
         == if Validated(r.body) && ClaimOf(s, r).Claimed? && Serve(s.book, r, now).Ok?
            then s.records[ClaimOf(s, r).key := Record(r.body, StatusOf(r.body), Serve(s.book, r, now).value.1)] else s.records
  {}

  /**
   * Over any traffic, however requests are repeated, reordered or lost, a key applies
   * at most one mutation, and has a record exactly when it did.
   */
  lemma {:induction false} AtMostOncePerKey(s: Service, events: seq<Event>, key: HashKey)
    ensures Applied(s, events, key)
         == if key !in s.records && key in Run(s, events).records then 1 else 0
    ensures key in s.records ==> key in Run(s, events).records && Run(s, events).records[key] == s.records[key]
  {
    if events != [] {
      AtMostOncePerKey(s, events[..|events| - 1], key);
      RecordsOnce(Run(s, events[..|events| - 1]), events[|events| - 1], key);
    }
  }

  /**
   * Once a key is recorded, any later request under it changes nothing: the same body
   * gets the answer stored when it was applied, a different body gets 422.
   */
  lemma RecordedKeyReplays(s: Service, events: seq<Event>, key: HashKey, r: Request, now: int)
    requires key in s.records && s.records[key].status != 0
    requires Validated(r.body) && TokenOf(r) == Some(key.token) && RouteOf(r.body) == key.route
    ensures var s' := Run(s, events);
            Handle(s', r, now)
            == (s', if r.body == s.records[key].fingerprint then Answer(s.records[key].status, s.records[key].reply)
                    else Deny(422, KeyReuse))
  {
    AtMostOncePerKey(s, events, key);
  }

  /** An application stores its own answer, and that answer is what every success carries. */
  lemma SuccessIsStored(s: Service, r: Request, now: int)
    ensures var (s', a) := Handle(s, r, now);
            a.status < 400 ==>
              && TokenOf(r).Some? && HashKey(RouteOf(r.body), TokenOf(r).value) in s'.records
              && s'.records[HashKey(RouteOf(r.body), TokenOf(r).value)] == Record(r.body, a.status, a.reply)
    ensures Handle(s, r, now).1.status >= 400 ==> Handle(s, r, now).0 == s
  {
    RefusalsRefuse(s.book, r, now);
  }

  lemma RefusalsRefuse(b: Book, r: Request, now: int)
    ensures Serve(b, r, now).Err? ==> 400 <= Serve(b, r, now).error.status < 500
  {
    match r.body
    case CommitBody(order) => SellRowsRefuse(b, Selected(b.holds, InGroup(r.path)), order);
    case ReleaseBody => EndRowsRefuse(b, Selected(b.holds, InGroup(r.path)), Released);
    case _ =>
  }

  lemma {:induction false} SellRowsRefuse(b: Book, pks: seq<nat>, order: Option<OrderId>)
    requires forall k :: 0 <= k < |pks| ==> pks[k] < |b.holds|
    ensures SellRows(b, pks, order).Err? ==> SellRows(b, pks, order).error == Answer(409, Refusal(CannotCover))
  {
    if pks != [] {
      SellRowsRefuse(b, pks[..|pks| - 1], order);
    }
  }

  lemma {:induction false} EndRowsRefuse(b: Book, pks: seq<nat>, terminal: HoldStatus)
    requires forall k :: 0 <= k < |pks| ==> pks[k] < |b.holds|
    ensures EndRows(b, pks, terminal).Err? ==> EndRows(b, pks, terminal).error == Answer(409, Refusal(Underflow))
  {
    if pks != [] {
      EndRowsRefuse(b, pks[..|pks| - 1], terminal);
    }
  }

  // ------------------------------------------------------------ keys burnt early

  function ReleaseRequest(c: CheckoutId): Request { Request(c, Some(OfRelease(c)), ReleaseBody) }

  function CommitRequest(c: CheckoutId, order: OrderId): Request { Request(c, Some(OfCommit(c)), CommitBody(Some(order))) }

  /** The group has no active row: it was never reserved, or all its rows have ended. */
  predicate NoneActive(b: Book, c: CheckoutId) { ActiveRows(b.holds, InGroup(c)) == [] }

  /**
   * A release or a commit that finds nothing active still records its key, so no
   * later release, or commit, of that id by its usual key does anything, even once
   * the id has been reserved.
   */
  lemma EarlyCallBurnsKey(s: Service, c: CheckoutId, order: OrderId, early: int, events: seq<Event>, now: int)
    requires NoneActive(s.book, c)
    ensures HashKey(ReleaseRoute, OfRelease(c)) !in s.records ==>
              var s' := Run(Handle(s, ReleaseRequest(c), early).0, events);
              Handle(s', ReleaseRequest(c), now) == (s', Answer(200, ReleasedRows(0)))
    ensures HashKey(CommitRoute, OfCommit(c)) !in s.records ==>
              var s' := Run(Handle(s, CommitRequest(c, order), early).0, events);
              Handle(s', CommitRequest(c, order), now) == (s', Answer(200, SoldRows([])))
  {
    var release, commit := Handle(s, ReleaseRequest(c), early).0, Handle(s, CommitRequest(c, order), early).0;
    if HashKey(ReleaseRoute, OfRelease(c)) !in s.records {
      assert release.records[HashKey(ReleaseRoute, OfRelease(c))] == Record(ReleaseBody, 200, ReleasedRows(0));
      RecordedKeyReplays(release, events, HashKey(ReleaseRoute, OfRelease(c)), ReleaseRequest(c), now);
    }
    if HashKey(CommitRoute, OfCommit(c)) !in s.records {
      assert RowLines(s.book.holds, []) == [];
      assert commit.records[HashKey(CommitRoute, OfCommit(c))] == Record(CommitBody(Some(order)), 200, SoldRows([]));
      RecordedKeyReplays(commit, events, HashKey(CommitRoute, OfCommit(c)), CommitRequest(c, order), now);
    }
  }
}
