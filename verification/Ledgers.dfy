/**
 * The in-process ledger as a state machine (apps/inventory/providers/local.py):
 * every `transaction.atomic` block is one step that either completes or leaves the
 * state as it was. LocalProvider.dfy proves the provider's loops equal to it.
 */
module Ledgers {
  import opened Wrappers
  import opened Totals
  import opened Lines
  import opened Books

  /** `_idempotency_key`: namespaced by route, hashed injectively. */
  datatype Key = ReserveKey(checkout: CheckoutId) | RefundKey(order: OrderId)

  datatype Ledger = Ledger(book: Book, keys: map<Key, seq<Line>>)

  // ------------------------------------------------------------------- reserve

  function HoldAll(b: Book, c: CheckoutId, lines: seq<Line>, expiresAt: int): Result<Book, StockError> {
    if lines == [] then Ok(b)
    else
      match HoldAll(b, c, lines[..|lines| - 1], expiresAt)
      case Err(e) => Err(e)
      case Ok(b') => PlaceHold(b', c, lines[|lines| - 1], expiresAt)
  }

  function ReserveLines(l: Ledger, c: CheckoutId, lines: seq<Line>, expiresAt: int): Result<Ledger, StockError> {
    if c == Blank || lines == [] then Err(BadValue)
    else
      var ordered := SortLines(lines);
      if ReserveKey(c) in l.keys then
        if l.keys[ReserveKey(c)] == ordered then Ok(l) else Err(ReservationUnavailable)
      else
        match HoldAll(l.book, c, ordered, expiresAt)
        case Err(e) => Err(e)
        case Ok(b) => Ok(Ledger(b, l.keys[ReserveKey(c) := ordered]))
  }

  // -------------------------------------------------------------------- commit

  function Get(m: map<int, int>, v: int): int { if v in m then m[v] else 0 }

  function Plus(m: map<int, int>, v: int, q: int): map<int, int> { m[v := Get(m, v) + q] }

  /** The commit loop over the first `n` rows, in primary-key order. */
  function CommitUpTo(b: Book, c: CheckoutId, order: Option<OrderId>, n: nat)
    : (r: Result<(Book, map<int, int>), StockError>)
    requires n <= |b.holds|
    ensures r.Ok? ==> |r.value.0.holds| == |b.holds|
    ensures r.Ok? ==> forall i :: n <= i < |b.holds| ==> r.value.0.holds[i] == b.holds[i]
  {
    if n == 0 then Ok((b, map[]))
    else
      match CommitUpTo(b, c, order, n - 1)
      case Err(e) => Err(e)
      case Ok((b', m)) =>
        var h := b.holds[n - 1];
        if h.checkout != c then Ok((b', m))
        else if h.status == Committed then
          if h.order != order then Err(InvalidReservationState)
          else Ok((b', Plus(m, h.variant, h.qty)))
        else if h.status == Active then
          match CommitHold(b', n - 1, order)
          case Err(e) => Err(e)
          case Ok(b'') => Ok((b'', Plus(m, h.variant, h.qty)))
        else Ok((b', m))
  }

  function CommitHolds(l: Ledger, c: CheckoutId, order: Option<OrderId>): Result<(Ledger, map<int, int>), StockError> {
    match CommitUpTo(l.book, c, order, |l.book.holds|)
    case Err(e) => Err(e)
    case Ok((b, m)) => Ok((l.(book := b), m))
  }

  // -------------------------------------------------------------------- refund

  function Min(x: int, y: int): int { if x <= y then x else y }

  function Max(x: int, y: int): int { if x >= y then x else y }

  /** `min(line.qty, max(0, sold - returned))` */
  function Outstanding(b: Book, order: OrderId, x: Line): int {
    Min(x.qty, Max(0, SoldUnits(b, order, x.variant) - ReturnedUnits(b, order, x.variant)))
  }

  function RestoreLine(b: Book, order: OrderId, x: Line): Result<Book, StockError> {
    if x.variant !in b.stock then Err(UnknownVariant)
    else
      var quantity := Outstanding(b, order, x);
      if quantity == 0 then Ok(b) else AdjustStock(b, x.variant, quantity, Return, Some(order))
  }

  function RestoreAll(b: Book, order: OrderId, lines: seq<Line>): Result<Book, StockError> {
    if lines == [] then Ok(b)
    else
      match RestoreAll(b, order, lines[..|lines| - 1])
      case Err(e) => Err(e)
      case Ok(b') => RestoreLine(b', order, lines[|lines| - 1])
  }

  function RestoreOrderStock(l: Ledger, order: OrderId, lines: seq<Line>): Result<Ledger, StockError> {
    var ordered := SortLines(lines);
    if RefundKey(order) in l.keys then
      if l.keys[RefundKey(order)] == SortLines(ordered) then Ok(l) else Err(InvalidStockAdjustment)
    else
      match RestoreAll(l.book, order, ordered)
      case Err(e) => Err(e)
      case Ok(b) => Ok(Ledger(b, l.keys[RefundKey(order) := SortLines(ordered)]))
  }

  // --------------------------------------------------------------------- steps

  /** One ledger transaction. Releases and the sweep are one transaction per row. */
  datatype Step =
    | Reserve(checkout: CheckoutId, lines: seq<Line>, expiresAt: int)
    | Commit(checkout: CheckoutId, order: Option<OrderId>)
    | Release(pk: nat)
    | Expire(pk: nat, now: int)
    | Adjust(variant: int, delta: int, reason: Reason, ref: Option<OrderId>)
    | Restore(refunded: OrderId, lines: seq<Line>)

  function OnBook(l: Ledger, r: Result<Book, StockError>): Result<Ledger, StockError> {
    match r
    case Err(e) => Err(e)
    case Ok(b) => Ok(l.(book := b))
  }

  function Attempt(l: Ledger, s: Step): Result<Ledger, StockError> {
    match s
    case Reserve(c, lines, e) => ReserveLines(l, c, lines, e)
    case Commit(c, o) =>
      (match CommitHolds(l, c, o)
       case Err(e) => Err(e)
       case Ok((l', _)) => Ok(l'))
    case Release(pk) => if pk < |l.book.holds| then OnBook(l, ReleaseHold(l.book, pk)) else Err(BadValue)
    case Expire(pk, now) => if pk < |l.book.holds| then OnBook(l, ExpireHold(l.book, pk, now)) else Err(BadValue)
    case Adjust(v, d, r, o) => OnBook(l, AdjustStock(l.book, v, d, r, o))
    case Restore(o, lines) => RestoreOrderStock(l, o, lines)
  }

  /** A transaction that raises rolls back. */
  function Next(l: Ledger, s: Step): Ledger {
    match Attempt(l, s)
    case Ok(l') => l'
    case Err(_) => l
  }

  function Run(l: Ledger, steps: seq<Step>): Ledger {
    if steps == [] then l else Next(Run(l, steps[..|steps| - 1]), steps[|steps| - 1])
  }

  // ---------------------------------------------------------------- invariants

  /** The lines of one hold group, in primary-key order. */
  function GroupLines(holds: seq<Hold>, c: CheckoutId): seq<Line> {
    if holds == [] then []
    else
      var h := holds[|holds| - 1];
      GroupLines(holds[..|holds| - 1], c) + if h.checkout == c then [Line(h.variant, h.qty)] else []
  }

  /** A claimed id has exactly the rows its recorded fingerprint names; an unclaimed one has none. */
  ghost predicate GroupOk(l: Ledger, c: CheckoutId) {
    if ReserveKey(c) in l.keys then
      GroupLines(l.book.holds, c) == l.keys[ReserveKey(c)] && Ascending(l.keys[ReserveKey(c)])
    else GroupLines(l.book.holds, c) == []
  }

  ghost predicate LedgerOk(l: Ledger, opening: map<int, int>) {
    BookOk(l.book, opening) && forall c :: GroupOk(l, c)
  }

  /** A ledger with nothing recorded yet and these balances on the shelf. */
  function Opened(opening: map<int, int>): Ledger {
    Ledger(Book(map v | v in opening :: Counters(opening[v], 0), [], []), map[])
  }

  /** Later in time: rows, movements and keys only accumulate, and claimed groups stay closed. */
  ghost predicate Later(l: Ledger, l': Ledger) {
    && Extends(l.book, l'.book)
    && (forall k :: k in l.keys ==> k in l'.keys && l'.keys[k] == l.keys[k])
    && (forall i :: |l.book.holds| <= i < |l'.book.holds| ==> ReserveKey(l'.book.holds[i].checkout) !in l.keys)
  }

  lemma LaterTransitive(a: Ledger, b: Ledger, c: Ledger)
    requires Later(a, b) && Later(b, c)
    ensures Later(a, c)
  {
    ExtendsTransitive(a.book, b.book, c.book);
    forall i | |a.book.holds| <= i < |c.book.holds| ensures ReserveKey(c.book.holds[i].checkout) !in a.keys {
      if i < |b.book.holds| {
        assert c.book.holds[i].checkout == b.book.holds[i].checkout;
      }
    }
  }

  // -------------------------------------------------------- reserving, in closed form

  /** The rows a successful reserve adds. */
  function Fresh(c: CheckoutId, lines: seq<Line>, expiresAt: int): seq<Hold> {
    if lines == [] then []
    else
      var x := lines[|lines| - 1];
      Fresh(c, lines[..|lines| - 1], expiresAt) + [Hold(x.variant, x.qty, Active, c, None, expiresAt)]
  }

  /** A reserve that fails on a prefix fails as a whole, with the same error. */
  lemma {:induction false} HoldAllStops(b: Book, c: CheckoutId, lines: seq<Line>, e: int, n: nat)
    requires n <= |lines|
    ensures HoldAll(b, c, lines[..n], e).Err? ==> HoldAll(b, c, lines, e) == HoldAll(b, c, lines[..n], e)
    decreases |lines| - n
  {
    if n == |lines| {
      assert lines[..n] == lines;
    } else {
      HoldAllStops(b, c, lines, e, n + 1);
      assert lines[..n + 1][..n] == lines[..n];
    }
  }

  /** Summed demand, duplicate lines included, fits what is available of every variant. */
  ghost predicate Fits(b: Book, lines: seq<Line>) {
    && (forall i :: 0 <= i < |lines| ==> lines[i].qty >= 1 && lines[i].variant in b.stock)
    && (forall v :: v in b.stock ==> Units(lines, v) <= b.stock[v].Available())
  }

  /** `b` with the demand of `lines` added to the reserved counters. */
  ghost predicate ReservedMore(b: Book, lines: seq<Line>, after: Book) {
    && after.stock.Keys == b.stock.Keys
    && forall v :: v in b.stock ==>
         after.stock[v] == Counters(b.stock[v].onHand, b.stock[v].reserved + Units(lines, v))
  }

  lemma {:induction false} FitsPrefix(b: Book, init: seq<Line>, x: Line)
    requires Fits(b, init + [x])
    ensures Fits(b, init)
    ensures x.qty >= 1 && x.variant in b.stock
    ensures Units(init, x.variant) + x.qty <= b.stock[x.variant].Available()
  {
    var lines := init + [x];
    assert lines[|init|] == x;
    forall i | 0 <= i < |init| ensures init[i].qty >= 1 && init[i].variant in b.stock {
      assert lines[i] == init[i];
    }
    forall v | v in b.stock ensures Units(init, v) <= b.stock[v].Available() {
      TotalSnoc(init, x, UnitsOf(v));
    }
    TotalSnoc(init, x, UnitsOf(x.variant));
  }

  lemma {:induction false} FitsSnoc(b: Book, init: seq<Line>, x: Line)
    requires Fits(b, init) && x.qty >= 1 && x.variant in b.stock
    requires Units(init, x.variant) + x.qty <= b.stock[x.variant].Available()
    ensures Fits(b, init + [x])
  {
    forall v | v in b.stock ensures Units(init + [x], v) <= b.stock[v].Available() {
      TotalSnoc(init, x, UnitsOf(v));
    }
  }

  /** `after` is `b` with these lines held under `c` and nothing else changed. */
  ghost predicate HeldAs(b: Book, c: CheckoutId, lines: seq<Line>, expiresAt: int, after: Book) {
    after.holds == b.holds + Fresh(c, lines, expiresAt) && after.moves == b.moves && ReservedMore(b, lines, after)
  }

  lemma HeldNone(b: Book, opening: map<int, int>, c: CheckoutId, expiresAt: int)
    requires Counted(b, opening)
    ensures Fits(b, []) && HeldAs(b, c, [], expiresAt, b)
  {
    assert b.holds + [] == b.holds;
    forall v | v in b.stock ensures Units([], v) <= b.stock[v].Available() {
      assert 0 <= b.stock[v].reserved <= b.stock[v].onHand;
    }
  }

  lemma FreshSnoc(c: CheckoutId, init: seq<Line>, x: Line, expiresAt: int)
    ensures Fresh(c, init + [x], expiresAt) == Fresh(c, init, expiresAt) + [Hold(x.variant, x.qty, Active, c, None, expiresAt)]
  {
    assert (init + [x])[..|init|] == init;
  }

  /** One more line fits exactly when its hold can be placed. */
  lemma HeldOneFits(b: Book, c: CheckoutId, init: seq<Line>, x: Line, expiresAt: int, mid: Book)
    requires Fits(b, init) && HeldAs(b, c, init, expiresAt, mid)
    ensures PlaceHold(mid, c, x, expiresAt).Ok? <==> Fits(b, init + [x])
  {
    if Fits(b, init + [x]) {
      FitsPrefix(b, init, x);
    }
    if PlaceHold(mid, c, x, expiresAt).Ok? {
      FitsSnoc(b, init, x);
    }
  }

  lemma HeldOneMore(b: Book, c: CheckoutId, init: seq<Line>, x: Line, expiresAt: int, mid: Book)
    requires HeldAs(b, c, init, expiresAt, mid) && PlaceHold(mid, c, x, expiresAt).Ok?
    ensures HeldAs(b, c, init + [x], expiresAt, PlaceHold(mid, c, x, expiresAt).value)
  {
    FreshSnoc(c, init, x, expiresAt);
    forall v ensures Units(init + [x], v) == Units(init, v) + UnitsOf(v)(x) {
      TotalSnoc(init, x, UnitsOf(v));
    }
    assert (b.holds + Fresh(c, init, expiresAt)) + [Hold(x.variant, x.qty, Active, c, None, expiresAt)]
        == b.holds + Fresh(c, init + [x], expiresAt);
  }

  lemma {:induction false} HoldAllHeld(b: Book, opening: map<int, int>, c: CheckoutId, lines: seq<Line>, expiresAt: int)
    requires Counted(b, opening)
    ensures HoldAll(b, c, lines, expiresAt).Ok? <==> Fits(b, lines)
    ensures HoldAll(b, c, lines, expiresAt).Ok? ==> HeldAs(b, c, lines, expiresAt, HoldAll(b, c, lines, expiresAt).value)
  {
    if lines == [] {
      HeldNone(b, opening, c, expiresAt);
    } else {
      var init, x := lines[..|lines| - 1], lines[|lines| - 1];
      assert lines == init + [x];
      HoldAllHeld(b, opening, c, init, expiresAt);
      match HoldAll(b, c, init, expiresAt)
      case Err(_) =>
        if Fits(b, init + [x]) {
          FitsPrefix(b, init, x);
        }
      case Ok(mid) =>
        HeldOneFits(b, c, init, x, expiresAt, mid);
        if PlaceHold(mid, c, x, expiresAt).Ok? {
          HeldOneMore(b, c, init, x, expiresAt, mid);
        }
    }
  }

  /** A refused reserve names the first line, in the order given, whose hold the book could not take, and why. */
  lemma {:induction false} HoldAllRefused(b: Book, opening: map<int, int>, c: CheckoutId, lines: seq<Line>, expiresAt: int)
    returns (k: nat)
    requires Counted(b, opening) && HoldAll(b, c, lines, expiresAt).Err?
    ensures k < |lines| && Fits(b, lines[..k]) && !Fits(b, lines[..k + 1])
    ensures HoldAll(b, c, lines, expiresAt).error
         == if lines[k].qty < 1 then BadValue else if lines[k].variant !in b.stock then UnknownVariant else InsufficientStock
  {
    var n := |lines| - 1;
    HoldAllHeld(b, opening, c, lines[..n], expiresAt);
    if HoldAll(b, c, lines[..n], expiresAt).Err? {
      k := HoldAllRefused(b, opening, c, lines[..n], expiresAt);
      assert lines[..n][..k] == lines[..k] && lines[..n][..k + 1] == lines[..k + 1];
    } else {
      k := n;
      HoldAllHeld(b, opening, c, lines, expiresAt);
      assert lines[..n + 1] == lines;
    }
  }

  /** A reserve of an unclaimed id is refused at the first line in variant order that does not fit. */
  lemma ReserveRefused(l: Ledger, opening: map<int, int>, c: CheckoutId, lines: seq<Line>, expiresAt: int) returns (k: nat)
    requires LedgerOk(l, opening) && ReserveKey(c) !in l.keys && c != Blank && lines != []
    requires ReserveLines(l, c, lines, expiresAt).Err?
    ensures var sorted := SortLines(lines);
            && k < |sorted| && Fits(l.book, sorted[..k]) && !Fits(l.book, sorted[..k + 1])
            && ReserveLines(l, c, lines, expiresAt).error
               == if sorted[k].qty < 1 then BadValue
                  else if sorted[k].variant !in l.book.stock then UnknownVariant else InsufficientStock
  {
    k := HoldAllRefused(l.book, opening, c, SortLines(lines), expiresAt);
  }

  lemma {:induction false} HoldAllKeeps(b: Book, opening: map<int, int>, c: CheckoutId, lines: seq<Line>, expiresAt: int)
    requires BookOk(b, opening) && HoldAll(b, c, lines, expiresAt).Ok?
    ensures BookOk(HoldAll(b, c, lines, expiresAt).value, opening)
  {
    if lines != [] {
      HoldAllKeeps(b, opening, c, lines[..|lines| - 1], expiresAt);
      var mid := HoldAll(b, c, lines[..|lines| - 1], expiresAt).value;
      PlaceHoldKeeps(mid, opening, c, lines[|lines| - 1], expiresAt);
    }
  }

  lemma HoldAllFacts(b: Book, opening: map<int, int>, c: CheckoutId, lines: seq<Line>, expiresAt: int)
    requires BookOk(b, opening)
    ensures HoldAll(b, c, lines, expiresAt).Ok? <==> Fits(b, lines)
    ensures HoldAll(b, c, lines, expiresAt).Ok? ==>
              var after := HoldAll(b, c, lines, expiresAt).value;
              && BookOk(after, opening)
              && after.holds == b.holds + Fresh(c, lines, expiresAt)
              && after.moves == b.moves
              && ReservedMore(b, lines, after)
  {
    HoldAllHeld(b, opening, c, lines, expiresAt);
    if HoldAll(b, c, lines, expiresAt).Ok? {
      HoldAllKeeps(b, opening, c, lines, expiresAt);
    }
  }

  lemma {:induction false} FreshFacts(c: CheckoutId, lines: seq<Line>, expiresAt: int, d: CheckoutId)
    ensures var f := Fresh(c, lines, expiresAt);
            && |f| == |lines|
            && (forall i :: 0 <= i < |f| ==> f[i].checkout == c && f[i].status == Active)
            && GroupLines(f, d) == if d == c then lines else []
  {
    if lines != [] {
      var init := lines[..|lines| - 1];
      FreshFacts(c, init, expiresAt, d);
      var f := Fresh(c, lines, expiresAt);
      assert f[..|f| - 1] == Fresh(c, init, expiresAt);
    }
  }

  lemma {:induction false} GroupLinesAppend(s: seq<Hold>, t: seq<Hold>, c: CheckoutId)
    ensures GroupLines(s + t, c) == GroupLines(s, c) + GroupLines(t, c)
  {
    if t == [] {
      assert s + t == s;
    } else {
      var init := t[..|t| - 1];
      assert (s + t)[..|s + t| - 1] == s + init;
      GroupLinesAppend(s, init, c);
    }
  }

  /** Ending or committing rows leaves every group's lines as they were. */
  lemma {:induction false} GroupLinesStable(s: seq<Hold>, t: seq<Hold>, c: CheckoutId)
    requires |s| == |t|
    requires forall i :: 0 <= i < |s| ==>
               s[i].checkout == t[i].checkout && s[i].variant == t[i].variant && s[i].qty == t[i].qty
    ensures GroupLines(s, c) == GroupLines(t, c)
  {
    if s != [] {
      GroupLinesStable(s[..|s| - 1], t[..|t| - 1], c);
    }
  }

  /** A group with no lines has no rows. */
  lemma {:induction false} EmptyGroup(holds: seq<Hold>, c: CheckoutId)
    ensures GroupLines(holds, c) == [] <==> forall i :: 0 <= i < |holds| ==> holds[i].checkout != c
  {
    if holds != [] {
      var n := |holds| - 1;
      EmptyGroup(holds[..n], c);
      assert forall i :: 0 <= i < n ==> holds[..n][i] == holds[i];
    }
  }

  /** In an ascending list, earlier lines have no larger variant. */
  lemma {:induction false} AscendingAt(lines: seq<Line>, i: nat, j: nat)
    requires Ascending(lines) && i < j < |lines|
    ensures lines[i].variant <= lines[j].variant
  {
    if j == |lines| - 1 {
      if i < j - 1 {
        AscendingAt(lines[..j], i, j - 1);
      }
    } else {
      AscendingAt(lines[..|lines| - 1], i, j);
    }
  }

  /** A group's row has its place among the group's lines. */
  lemma {:induction false} PlaceInGroup(holds: seq<Hold>, c: CheckoutId, i: nat, j: nat) returns (m: nat, n: nat)
    requires i < j < |holds| && holds[i].checkout == c && holds[j].checkout == c
    ensures var g := GroupLines(holds, c);
            m < n < |g| && g[m].variant == holds[i].variant && g[n].variant == holds[j].variant
  {
    var last := |holds| - 1;
    var before := GroupLines(holds[..last], c);
    if j == last {
      n := |before|;
      m := OnePlace(holds[..last], c, i);
    } else {
      m, n := PlaceInGroup(holds[..last], c, i, j);
    }
  }

  lemma {:induction false} OnePlace(holds: seq<Hold>, c: CheckoutId, i: nat) returns (m: nat)
    requires i < |holds| && holds[i].checkout == c
    ensures m < |GroupLines(holds, c)| && GroupLines(holds, c)[m].variant == holds[i].variant
  {
    var last := |holds| - 1;
    if i == last {
      m := |GroupLines(holds[..last], c)|;
    } else {
      m := OnePlace(holds[..last], c, i);
    }
  }

  /** Primary-key order and variant order agree inside a group that a reserve wrote. */
  lemma PkOrderIsVariantOrder(l: Ledger, c: CheckoutId, i: nat, j: nat)
    requires GroupOk(l, c) && i < j < |l.book.holds| && l.book.holds[i].checkout == c && l.book.holds[j].checkout == c
    ensures l.book.holds[i].variant <= l.book.holds[j].variant
  {
    var m, n := PlaceInGroup(l.book.holds, c, i, j);
    AscendingAt(GroupLines(l.book.holds, c), m, n);
  }

  lemma AddedGroup(l: Ledger, l': Ledger, c: CheckoutId, ordered: seq<Line>, expiresAt: int)
    requires forall d :: GroupOk(l, d)
    requires ReserveKey(c) !in l.keys && Ascending(ordered)
    requires l'.keys == l.keys[ReserveKey(c) := ordered]
    requires l'.book.holds == l.book.holds + Fresh(c, ordered, expiresAt)
    ensures forall d :: GroupOk(l', d)
  {
    forall d ensures GroupOk(l', d) {
      assert GroupOk(l, d);
      FreshFacts(c, ordered, expiresAt, d);
      GroupLinesAppend(l.book.holds, Fresh(c, ordered, expiresAt), d);
      assert [] + ordered == ordered;
    }
  }

  lemma AddedLater(l: Ledger, l': Ledger, c: CheckoutId, ordered: seq<Line>, expiresAt: int)
    requires ReserveKey(c) !in l.keys && l'.keys == l.keys[ReserveKey(c) := ordered]
    requires l'.book.holds == l.book.holds + Fresh(c, ordered, expiresAt)
    requires l'.book.moves == l.book.moves && l'.book.stock.Keys == l.book.stock.Keys
    ensures Later(l, l')
  {
    FreshFacts(c, ordered, expiresAt, c);
  }

  /** A successful first reserve: what it adds and what it leaves alone. */
  lemma ReserveFacts(l: Ledger, opening: map<int, int>, c: CheckoutId, lines: seq<Line>, expiresAt: int)
    requires LedgerOk(l, opening) && ReserveKey(c) !in l.keys && ReserveLines(l, c, lines, expiresAt).Ok?
    ensures var l' := ReserveLines(l, c, lines, expiresAt).value;
            && LedgerOk(l', opening) && Later(l, l')
            && l'.book.holds == l.book.holds + Fresh(c, SortLines(lines), expiresAt)
            && l'.book.moves == l.book.moves
            && ReservedMore(l.book, SortLines(lines), l'.book)
  {
    var ordered := SortLines(lines);
    var l' := ReserveLines(l, c, lines, expiresAt).value;
    HoldAllFacts(l.book, opening, c, ordered, expiresAt);
    SortAscending(lines);
    AddedGroup(l, l', c, ordered, expiresAt);
    AddedLater(l, l', c, ordered, expiresAt);
  }

  // ------------------------------------------------------ committing, in closed form

  function Sold(h: Hold, c: CheckoutId, order: Option<OrderId>): Hold {
    if h.checkout == c && h.status == Active then h.(status := Committed, order := order) else h
  }

  /** No row of the group was already sold to somebody else. */
  ghost predicate Unclaimed(holds: seq<Hold>, c: CheckoutId, order: Option<OrderId>) {
    forall i :: 0 <= i < |holds| && holds[i].checkout == c && holds[i].status == Committed ==> holds[i].order == order
  }

  /** Committed units per variant of a group, accumulated as the commit loop does. */
  function CommittedMap(holds: seq<Hold>, c: CheckoutId): map<int, int> {
    if holds == [] then map[]
    else
      var h, m := holds[|holds| - 1], CommittedMap(holds[..|holds| - 1], c);
      if h.checkout == c && h.status == Committed then Plus(m, h.variant, h.qty) else m
  }

  lemma {:induction false} CommittedMapTotals(holds: seq<Hold>, c: CheckoutId, v: int)
    ensures Get(CommittedMap(holds, c), v) == Total(holds, CommittedOf(c, v))
  {
    if holds != [] {
      CommittedMapTotals(holds[..|holds| - 1], c, v);
    }
  }

  lemma {:induction false} CommitUpToRows(b: Book, c: CheckoutId, order: Option<OrderId>, n: nat)
    requires n <= |b.holds| && CommitUpTo(b, c, order, n).Ok?
    ensures forall i :: 0 <= i < n ==> CommitUpTo(b, c, order, n).value.0.holds[i] == Sold(b.holds[i], c, order)
  {
    if n > 0 {
      CommitUpToRows(b, c, order, n - 1);
      var mid := CommitUpTo(b, c, order, n - 1).value.0;
      assert mid.holds[n - 1] == b.holds[n - 1];
    }
  }

  /** One more row of the commit loop, in closed form. */
  lemma CommitUpToNext(b: Book, c: CheckoutId, order: Option<OrderId>, n: nat)
    requires 0 < n <= |b.holds| && CommitUpTo(b, c, order, n).Ok?
    ensures CommitUpTo(b, c, order, n - 1).Ok?
    ensures var h, m := Sold(b.holds[n - 1], c, order), CommitUpTo(b, c, order, n - 1).value.1;
            CommitUpTo(b, c, order, n).value.1
            == if h.checkout == c && h.status == Committed then Plus(m, h.variant, h.qty) else m
  {}

  lemma CommittedMapSnoc(holds: seq<Hold>, h: Hold, c: CheckoutId)
    ensures CommittedMap(holds + [h], c)
         == if h.checkout == c && h.status == Committed then Plus(CommittedMap(holds, c), h.variant, h.qty) else CommittedMap(holds, c)
  {
    assert (holds + [h])[..|holds|] == holds;
  }

  lemma {:induction false} CommitUpToTotals(b: Book, c: CheckoutId, order: Option<OrderId>, n: nat)
    requires n <= |b.holds| && CommitUpTo(b, c, order, n).Ok?
    ensures CommitUpTo(b, c, order, n).value.1 == CommittedMap(CommitUpTo(b, c, order, n).value.0.holds[..n], c)
  {
    if n > 0 {
      CommitUpToNext(b, c, order, n);
      CommitUpToTotals(b, c, order, n - 1);
      CommitUpToRows(b, c, order, n);
      CommitUpToRows(b, c, order, n - 1);
      var mid, after := CommitUpTo(b, c, order, n - 1).value.0, CommitUpTo(b, c, order, n).value.0;
      assert after.holds[..n] == mid.holds[..n - 1] + [Sold(b.holds[n - 1], c, order)];
      CommittedMapSnoc(mid.holds[..n - 1], Sold(b.holds[n - 1], c, order), c);
    }
  }

  lemma {:induction false} CommitUpToKeeps(b: Book, opening: map<int, int>, c: CheckoutId, order: Option<OrderId>, n: nat)
    requires BookOk(b, opening) && n <= |b.holds| && CommitUpTo(b, c, order, n).Ok?
    ensures BookOk(CommitUpTo(b, c, order, n).value.0, opening)
    ensures Extends(b, CommitUpTo(b, c, order, n).value.0)
  {
    if n > 0 {
      CommitUpToKeeps(b, opening, c, order, n - 1);
      var mid, h := CommitUpTo(b, c, order, n - 1).value.0, b.holds[n - 1];
      if h.checkout == c && h.status == Active {
        CommitHoldKeeps(mid, opening, n - 1, order);
        ExtendsTransitive(b, mid, CommitHold(mid, n - 1, order).value);
      }
    }
  }

  lemma UnclaimedSnoc(holds: seq<Hold>, c: CheckoutId, order: Option<OrderId>, n: nat)
    requires 0 < n <= |holds|
    ensures Unclaimed(holds[..n], c, order) <==>
              && Unclaimed(holds[..n - 1], c, order)
              && (holds[n - 1].checkout == c && holds[n - 1].status == Committed ==> holds[n - 1].order == order)
  {
    assert holds[..n] == holds[..n - 1] + [holds[n - 1]];
    assert holds[..n][n - 1] == holds[n - 1];
    assert forall i :: 0 <= i < n - 1 ==> holds[..n][i] == holds[..n - 1][i];
  }

  /** One more row raises only if it is another order's sale, or an active hold that cannot be sold. */
  lemma CommitUpToStep(b: Book, c: CheckoutId, order: Option<OrderId>, n: nat)
    requires 0 < n <= |b.holds|
    ensures var h := b.holds[n - 1];
            CommitUpTo(b, c, order, n).Ok? <==>
              && CommitUpTo(b, c, order, n - 1).Ok?
              && (h.checkout == c && h.status == Committed ==> h.order == order)
              && (h.checkout == c && h.status == Active ==> CommitHold(CommitUpTo(b, c, order, n - 1).value.0, n - 1, order).Ok?)
  {}

  /** In a sound book every active hold can be sold. */
  lemma ActiveCommits(b: Book, opening: map<int, int>, pk: nat, order: Option<OrderId>)
    requires BookOk(b, opening) && pk < |b.holds| && b.holds[pk].status == Active
    ensures CommitHold(b, pk, order).Ok?
  {
    GuardsNeverFire(b, opening, pk, order, Released);
  }

  /** The commit loop raises exactly when the group has another order's sale. */
  lemma {:induction false} CommitUpToSucceeds(b: Book, opening: map<int, int>, c: CheckoutId, order: Option<OrderId>, n: nat)
    requires BookOk(b, opening) && n <= |b.holds|
    ensures CommitUpTo(b, c, order, n).Ok? <==> Unclaimed(b.holds[..n], c, order)
  {
    if n > 0 {
      CommitUpToSucceeds(b, opening, c, order, n - 1);
      UnclaimedSnoc(b.holds, c, order, n);
      CommitUpToStep(b, c, order, n);
      if CommitUpTo(b, c, order, n - 1).Ok? && b.holds[n - 1].status == Active {
        CommitUpToKeeps(b, opening, c, order, n - 1);
        ActiveCommits(CommitUpTo(b, c, order, n - 1).value.0, opening, n - 1, order);
      }
    }
  }

  lemma CommitReturnsStep(b: Book, c: CheckoutId, order: Option<OrderId>, n: nat, o: OrderId, v: int)
    requires 0 < n <= |b.holds| && CommitUpTo(b, c, order, n).Ok?
    ensures CommitUpTo(b, c, order, n - 1).Ok?
    ensures ReturnedUnits(CommitUpTo(b, c, order, n).value.0, o, v) == ReturnedUnits(CommitUpTo(b, c, order, n - 1).value.0, o, v)
  {
    var mid, h := CommitUpTo(b, c, order, n - 1).value.0, b.holds[n - 1];
    if h.checkout == c && h.status == Active {
      TotalSnoc(mid.moves, Movement(h.variant, -h.qty, Sale, order), ReturnedFor(Some(o), v));
    }
  }

  lemma {:induction false} CommitReturns(b: Book, c: CheckoutId, order: Option<OrderId>, n: nat, o: OrderId, v: int)
    requires n <= |b.holds| && CommitUpTo(b, c, order, n).Ok?
    ensures ReturnedUnits(CommitUpTo(b, c, order, n).value.0, o, v) == ReturnedUnits(b, o, v)
  {
    if n > 0 {
      CommitReturnsStep(b, c, order, n, o, v);
      CommitReturns(b, c, order, n - 1, o, v);
    }
  }

  /** Committing a group in closed form: what it writes and the totals it returns. */
  lemma CommitShape(l: Ledger, c: CheckoutId, order: Option<OrderId>)
    requires CommitHolds(l, c, order).Ok?
    ensures var (l', m) := CommitHolds(l, c, order).value;
            && l'.keys == l.keys
            && |l'.book.holds| == |l.book.holds|
            && (forall i :: 0 <= i < |l.book.holds| ==> l'.book.holds[i] == Sold(l.book.holds[i], c, order))
            && Settled(l'.book, c)
            && m == CommittedMap(l'.book.holds, c)
  {
    var l' := CommitHolds(l, c, order).value.0;
    CommitUpToRows(l.book, c, order, |l.book.holds|);
    CommitUpToTotals(l.book, c, order, |l.book.holds|);
    assert l'.book.holds[..|l.book.holds|] == l'.book.holds;
  }

  lemma CommitSucceeds(l: Ledger, opening: map<int, int>, c: CheckoutId, order: Option<OrderId>)
    requires LedgerOk(l, opening)
    ensures CommitHolds(l, c, order).Ok? <==> Unclaimed(l.book.holds, c, order)
  {
    assert l.book.holds[..|l.book.holds|] == l.book.holds;
    CommitUpToSucceeds(l.book, opening, c, order, |l.book.holds|);
  }

  lemma CommitKeeps(l: Ledger, opening: map<int, int>, c: CheckoutId, order: Option<OrderId>)
    requires LedgerOk(l, opening) && CommitHolds(l, c, order).Ok?
    ensures var l' := CommitHolds(l, c, order).value.0;
            LedgerOk(l', opening) && Later(l, l')
  {
    CommitUpToKeeps(l.book, opening, c, order, |l.book.holds|);
    SameHoldsKeepGroups(l, CommitHolds(l, c, order).value.0);
  }

  // ------------------------------------------------------ refunding, in closed form

  lemma {:induction false} RestoreAllKeeps(b: Book, opening: map<int, int>, order: OrderId, lines: seq<Line>)
    requires BookOk(b, opening) && RestoreAll(b, order, lines).Ok?
    ensures var after := RestoreAll(b, order, lines).value;
            BookOk(after, opening) && Extends(b, after) && after.holds == b.holds
  {
    if lines != [] {
      var init, x := lines[..|lines| - 1], lines[|lines| - 1];
      RestoreAllKeeps(b, opening, order, init);
      var mid := RestoreAll(b, order, init).value;
      var after := RestoreLine(mid, order, x).value;
      if after != mid {
        AdjustStockKeeps(mid, opening, x.variant, Outstanding(mid, order, x), Return, Some(order));
        ExtendsTransitive(b, mid, after);
      }
    }
  }

  /** What restoring one line returns: never more than what is still out. */
  lemma RestoreLineUnits(b: Book, order: OrderId, x: Line, o: OrderId, v: int)
    requires RestoreLine(b, order, x).Ok?
    ensures var after := RestoreLine(b, order, x).value;
            && SoldUnits(after, o, v) == SoldUnits(b, o, v)
            && ReturnedUnits(after, o, v)
               == ReturnedUnits(b, o, v) + if o == order && v == x.variant then Outstanding(b, order, x) else 0
  {
    var m := Movement(x.variant, Outstanding(b, order, x), Return, Some(order));
    TotalSnoc(b.moves, m, SoldFor(Some(o), v));
    TotalSnoc(b.moves, m, ReturnedFor(Some(o), v));
  }

  // ------------------------------------------------------------- every step, every run

  lemma SameHoldsKeepGroups(l: Ledger, l': Ledger)
    requires forall c :: GroupOk(l, c)
    requires Extends(l.book, l'.book) && |l'.book.holds| == |l.book.holds|
    requires forall c :: ReserveKey(c) in l'.keys <==> ReserveKey(c) in l.keys
    requires forall k :: k in l.keys ==> k in l'.keys && l'.keys[k] == l.keys[k]
    ensures (forall c :: GroupOk(l', c)) && Later(l, l')
  {
    forall c ensures GroupOk(l', c) {
      assert GroupOk(l, c);
      GroupLinesStable(l.book.holds, l'.book.holds, c);
    }
  }

  /** Every ledger transaction keeps every invariant, and only adds to history. */
  lemma StepKeeps(l: Ledger, opening: map<int, int>, s: Step)
    requires LedgerOk(l, opening)
    ensures LedgerOk(Next(l, s), opening) && Later(l, Next(l, s))
  {
    var l' := Next(l, s);
    if l' != l {
      match s
      case Reserve(c, lines, e) => ReserveFacts(l, opening, c, lines, e);
      case Commit(c, o) => CommitKeeps(l, opening, c, o);
      case Release(pk) =>
        EndHoldKeeps(l.book, opening, pk, Released);
        SameHoldsKeepGroups(l, l');
      case Expire(pk, now) =>
        EndHoldKeeps(l.book, opening, pk, Expired);
        SameHoldsKeepGroups(l, l');
      case Adjust(v, d, r, o) =>
        AdjustStockKeeps(l.book, opening, v, d, r, o);
        SameHoldsKeepGroups(l, l');
      case Restore(o, lines) =>
        RestoreAllKeeps(l.book, opening, o, SortLines(lines));
        SameHoldsKeepGroups(l, l');
    }
  }

  lemma {:induction false} RunKeeps(l: Ledger, opening: map<int, int>, steps: seq<Step>)
    requires LedgerOk(l, opening)
    ensures LedgerOk(Run(l, steps), opening) && Later(l, Run(l, steps))
  {
    if steps != [] {
      var mid := Run(l, steps[..|steps| - 1]);
      RunKeeps(l, opening, steps[..|steps| - 1]);
      StepKeeps(mid, opening, steps[|steps| - 1]);
      LaterTransitive(l, mid, Run(l, steps));
    }
  }

  lemma OpenedOk(opening: map<int, int>)
    requires forall v :: v in opening ==> opening[v] >= 0
    ensures LedgerOk(Opened(opening), opening)
  {
    var b := Opened(opening).book;
    forall v ensures Total(b.holds, ActiveOf(v)) == 0 && Total(b.moves, DeltaOf(v)) == 0 {}
    forall v, q, o ensures Total(b.holds, CommittedAs(v, q, o)) == Total(b.moves, SaleAs(v, q, o)) {}
    forall v, o ensures Total(b.holds, CommittedFor(o, v)) == Total(b.moves, SoldFor(o, v)) {}
  }

  ghost predicate NeverOversold(b: Book, opening: map<int, int>)
    requires b.stock.Keys == opening.Keys
  {
    forall v :: v in b.stock ==>
      -Total(b.moves, SaleOf(v)) + Total(b.holds, ActiveOf(v)) <= opening[v] + Total(b.moves, NonSaleOf(v))
  }

  /** The counters can cover every active hold, so no underflow guard can fire on it. */
  ghost predicate HoldsCovered(b: Book) {
    forall i :: 0 <= i < |b.holds| && b.holds[i].status == Active ==>
      && b.holds[i].variant in b.stock
      && b.holds[i].qty <= b.stock[b.holds[i].variant].reserved
      && b.holds[i].qty <= b.stock[b.holds[i].variant].onHand
  }

  /**
   * Over every interleaving of ledger transactions: the counters agree with what
   * they cache, committed holds match sale movements one to one, nothing is
   * oversold, and no underflow guard can fire.
   */
  lemma EveryRunIsSound(opening: map<int, int>, steps: seq<Step>)
    requires forall v :: v in opening ==> opening[v] >= 0
    ensures var b := Run(Opened(opening), steps).book;
            Counted(b, opening) && Matched(b) && NeverOversold(b, opening) && HoldsCovered(b)
  {
    OpenedOk(opening);
    RunKeeps(Opened(opening), opening, steps);
    SoundBook(Run(Opened(opening), steps).book, opening);
  }

  lemma SoundBook(b: Book, opening: map<int, int>)
    requires BookOk(b, opening)
    ensures NeverOversold(b, opening) && HoldsCovered(b)
  {
    forall v | v in b.stock
      ensures -Total(b.moves, SaleOf(v)) + Total(b.holds, ActiveOf(v)) <= opening[v] + Total(b.moves, NonSaleOf(v))
    {
      NoOversell(b, opening, v);
    }
    forall i | 0 <= i < |b.holds| && b.holds[i].status == Active
      ensures b.holds[i].variant in b.stock
      ensures b.holds[i].qty <= b.stock[b.holds[i].variant].reserved
      ensures b.holds[i].qty <= b.stock[b.holds[i].variant].onHand
    {
      GuardsNeverFire(b, opening, i, None, Released);
    }
  }

  /** Each hold leaves ACTIVE at most once, in every continuation of every run. */
  lemma EachHoldEndsOnce(opening: map<int, int>, before: seq<Step>, after: seq<Step>, pk: nat)
    requires forall v :: v in opening ==> opening[v] >= 0
    requires pk < |Run(Opened(opening), before).book.holds|
    requires Run(Opened(opening), before).book.holds[pk].status != Active
    ensures pk < |Run(Run(Opened(opening), before), after).book.holds|
    ensures Run(Run(Opened(opening), before), after).book.holds[pk] == Run(Opened(opening), before).book.holds[pk]
  {
    OpenedOk(opening);
    RunKeeps(Opened(opening), opening, before);
    RunKeeps(Run(Opened(opening), before), opening, after);
  }

  // ----------------------------------------------------- reservation, exactly

  lemma {:induction false} SortedFits(b: Book, lines: seq<Line>)
    ensures Fits(b, SortLines(lines)) <==> Fits(b, lines)
  {
    var s := SortLines(lines);
    SortMultiset(lines);
    forall v ensures Units(s, v) == Units(lines, v) {
      SortKeeps(lines, v);
    }
    forall i | 0 <= i < |lines| ensures lines[i] in s {
      assert lines[i] in multiset(lines);
    }
    forall i | 0 <= i < |s| ensures s[i] in lines {
      assert s[i] in multiset(s);
    }
  }

  lemma SameReservedMore(b: Book, lines: seq<Line>, after: Book)
    requires ReservedMore(b, SortLines(lines), after)
    ensures ReservedMore(b, lines, after)
  {
    forall v ensures Units(SortLines(lines), v) == Units(lines, v) {
      SortKeeps(lines, v);
    }
  }

  lemma ReservationEffect(l: Ledger, opening: map<int, int>, c: CheckoutId, lines: seq<Line>, expiresAt: int)
    requires LedgerOk(l, opening) && ReserveKey(c) !in l.keys && ReserveLines(l, c, lines, expiresAt).Ok?
    ensures var l' := ReserveLines(l, c, lines, expiresAt).value;
            && ReservedMore(l.book, lines, l'.book)
            && GroupLines(l'.book.holds, c) == SortLines(lines)
            && l'.book.moves == l.book.moves
  {
    ReserveFacts(l, opening, c, lines, expiresAt);
    assert GroupOk(ReserveLines(l, c, lines, expiresAt).value, c);
    SameReservedMore(l.book, lines, ReserveLines(l, c, lines, expiresAt).value.book);
  }

  /** Reserving an unclaimed id is all or nothing, with an exact condition and an exact effect. */
  lemma ReservationExact(l: Ledger, opening: map<int, int>, c: CheckoutId, lines: seq<Line>, expiresAt: int)
    requires LedgerOk(l, opening) && ReserveKey(c) !in l.keys
    ensures Attempt(l, Reserve(c, lines, expiresAt)).Ok? <==> c != Blank && lines != [] && Fits(l.book, lines)
    ensures var l' := Next(l, Reserve(c, lines, expiresAt));
            if Attempt(l, Reserve(c, lines, expiresAt)).Ok? then
              && ReservedMore(l.book, lines, l'.book)
              && GroupLines(l'.book.holds, c) == SortLines(lines)
              && l'.book.moves == l.book.moves
            else l' == l
  {
    SortedFits(l.book, lines);
    HoldAllHeld(l.book, opening, c, SortLines(lines), expiresAt);
    if ReserveLines(l, c, lines, expiresAt).Ok? {
      ReservationEffect(l, opening, c, lines, expiresAt);
    }
  }

  // ------------------------------------------------------------- replays

  /**
   * Once a reserve succeeded, any later reserve of the same id changes nothing, and
   * is accepted exactly when its payload has the recorded fingerprint.
   */
  lemma ReserveReplay(l: Ledger, opening: map<int, int>, c: CheckoutId, lines: seq<Line>, e: int,
                      steps: seq<Step>, again: seq<Line>, e': int)
    requires LedgerOk(l, opening) && Attempt(l, Reserve(c, lines, e)).Ok?
    ensures var l' := Run(Next(l, Reserve(c, lines, e)), steps);
            && Next(l', Reserve(c, again, e')) == l'
            && (again != [] ==> (Attempt(l', Reserve(c, again, e')).Ok? <==> SameAsks(lines, again)))
  {
    StepKeeps(l, opening, Reserve(c, lines, e));
    RunKeeps(Next(l, Reserve(c, lines, e)), opening, steps);
    FingerprintExact(lines, again);
  }

  lemma RecordedRefund(l: Ledger, o: OrderId, lines: seq<Line>)
    requires RefundKey(o) in l.keys
    ensures Next(l, Restore(o, lines)) == l
    ensures Attempt(l, Restore(o, lines)).Ok? <==> l.keys[RefundKey(o)] == SortLines(SortLines(lines))
  {}

  /** A completed refund is never repeated, and a changed refund payload is refused. */
  lemma RestoreReplay(l: Ledger, opening: map<int, int>, o: OrderId, lines: seq<Line>, steps: seq<Step>, again: seq<Line>)
    requires LedgerOk(l, opening) && Attempt(l, Restore(o, lines)).Ok?
    ensures var l' := Run(Next(l, Restore(o, lines)), steps);
            && Next(l', Restore(o, again)) == l'
            && (Attempt(l', Restore(o, again)).Ok? <==> SameAsks(lines, again))
  {
    RefundKeyStays(l, opening, o, lines, steps);
    RecordedRefund(Run(Next(l, Restore(o, lines)), steps), o, again);
    SortTwice(lines);
    SortTwice(again);
    FingerprintExact(lines, again);
  }

  lemma RefundKeyStays(l: Ledger, opening: map<int, int>, o: OrderId, lines: seq<Line>, steps: seq<Step>)
    requires LedgerOk(l, opening) && Attempt(l, Restore(o, lines)).Ok?
    ensures var l' := Run(Next(l, Restore(o, lines)), steps);
            RefundKey(o) in l'.keys && l'.keys[RefundKey(o)] == SortLines(SortLines(lines))
  {
    StepKeeps(l, opening, Restore(o, lines));
    RunKeeps(Next(l, Restore(o, lines)), opening, steps);
  }

  lemma SortTwice(lines: seq<Line>)
    ensures SortLines(SortLines(lines)) == SortLines(lines)
  {
    SortAscending(lines);
    SortAscending(SortLines(lines));
    forall v ensures OfVariant(SortLines(SortLines(lines)), v) == OfVariant(SortLines(lines), v) {
      SortKeeps(SortLines(lines), v);
    }
    AscendingDetermined(SortLines(SortLines(lines)), SortLines(lines));
  }

  /** A settled, claimed group is frozen: same rows, same totals, at any later time. */
  lemma {:induction false} FrozenRows(s: seq<Hold>, t: seq<Hold>, c: CheckoutId)
    requires |s| <= |t|
    requires forall i :: 0 <= i < |s| ==>
               s[i].checkout == t[i].checkout && (s[i].checkout == c ==> s[i] == t[i])
    requires forall i :: |s| <= i < |t| ==> t[i].checkout != c
    ensures CommittedMap(t, c) == CommittedMap(s, c)
    ensures forall v :: Total(t, CommittedOf(c, v)) == Total(s, CommittedOf(c, v))
  {
    if t != [] {
      var n := |t| - 1;
      if |s| == |t| {
        FrozenRows(s[..n], t[..n], c);
      } else {
        assert t[n].checkout != c;
        FrozenRows(s, t[..n], c);
      }
    }
  }

  lemma Frozen(l: Ledger, l': Ledger, c: CheckoutId)
    requires Later(l, l') && ReserveKey(c) in l.keys && Settled(l.book, c)
    ensures Settled(l'.book, c)
    ensures CommittedMap(l'.book.holds, c) == CommittedMap(l.book.holds, c)
    ensures forall v :: CommittedIn(l'.book, c, v) == CommittedIn(l.book, c, v)
  {
    forall i | 0 <= i < |l.book.holds| && l.book.holds[i].checkout == c
      ensures l'.book.holds[i] == l.book.holds[i]
    {}
    forall i | |l.book.holds| <= i < |l'.book.holds| ensures l'.book.holds[i].checkout != c {
      assert ReserveKey(l'.book.holds[i].checkout) !in l.keys;
    }
    FrozenRows(l.book.holds, l'.book.holds, c);
  }

  /** The loop over a settled group of one order writes nothing. */
  lemma {:induction false} SettledCommitIsIdle(b: Book, c: CheckoutId, order: Option<OrderId>, n: nat)
    requires n <= |b.holds| && Settled(b, c) && CommitUpTo(b, c, order, n).Ok?
    ensures CommitUpTo(b, c, order, n).value.0 == b
  {
    if n > 0 {
      SettledCommitIsIdle(b, c, order, n - 1);
    }
  }

  /**
   * Once the holds of a reserved id are committed for an order, committing them
   * again at any later time changes nothing and returns the same totals.
   */
  lemma CommitReplay(l: Ledger, opening: map<int, int>, c: CheckoutId, o: Option<OrderId>, steps: seq<Step>)
    requires LedgerOk(l, opening) && ReserveKey(c) in l.keys && CommitHolds(l, c, o).Ok?
    ensures var (first, m) := CommitHolds(l, c, o).value;
            CommitHolds(Run(first, steps), c, o) == Ok((Run(first, steps), m))
  {
    var (first, m) := CommitHolds(l, c, o).value;
    var l' := Run(first, steps);
    CommitShape(l, c, o);
    CommitSucceeds(l, opening, c, o);
    CommitKeeps(l, opening, c, o);
    RunKeeps(first, opening, steps);
    Frozen(first, l', c);
    StillUnclaimed(first, l', c, o);
    CommitSucceeds(l', opening, c, o);
    CommitShape(l', c, o);
    SettledCommitIsIdle(l'.book, c, o, |l'.book.holds|);
  }

  lemma StillUnclaimed(l: Ledger, l': Ledger, c: CheckoutId, o: Option<OrderId>)
    requires Later(l, l') && ReserveKey(c) in l.keys
    requires Settled(l.book, c) && Unclaimed(l.book.holds, c, o)
    ensures Unclaimed(l'.book.holds, c, o)
  {
    forall i | 0 <= i < |l'.book.holds| && l'.book.holds[i].checkout == c
      ensures l'.book.holds[i].status == Committed ==> l'.book.holds[i].order == o
    {
      if i < |l.book.holds| {
        assert l'.book.holds[i] == l.book.holds[i];
      }
    }
  }

  /** A group with no rows commits nothing. */
  lemma {:induction false} NoRowsCommitted(holds: seq<Hold>, c: CheckoutId)
    requires forall i :: 0 <= i < |holds| ==> holds[i].checkout != c
    ensures CommittedMap(holds, c) == map[]
  {
    if holds != [] {
      NoRowsCommitted(holds[..|holds| - 1], c);
    }
  }

  /** A group whose rows are all sold has sold what its lines ask. */
  lemma {:induction false} WhollyCommitted(holds: seq<Hold>, c: CheckoutId, v: int)
    requires forall i :: 0 <= i < |holds| && holds[i].checkout == c ==> holds[i].status == Committed
    ensures Total(holds, CommittedOf(c, v)) == Units(GroupLines(holds, c), v)
  {
    if holds != [] {
      var h, rest := holds[|holds| - 1], holds[..|holds| - 1];
      WhollyCommitted(rest, c, v);
      if h.checkout == c {
        TotalSnoc(GroupLines(rest, c), Line(h.variant, h.qty), UnitsOf(v));
      } else {
        assert GroupLines(rest, c) + [] == GroupLines(rest, c);
      }
    }
  }

  /** Committing an id nobody reserved succeeds, sells nothing and changes nothing. */
  lemma EarlyCommit(l: Ledger, opening: map<int, int>, c: CheckoutId, o: Option<OrderId>)
    requires LedgerOk(l, opening) && ReserveKey(c) !in l.keys
    ensures CommitHolds(l, c, o) == Ok((l, map[]))
  {
    assert GroupOk(l, c);
    EmptyGroup(l.book.holds, c);
    CommitSucceeds(l, opening, c, o);
    CommitShape(l, c, o);
    NoRowsCommitted(CommitHolds(l, c, o).value.0.book.holds, c);
    SettledCommitIsIdle(l.book, c, o, |l.book.holds|);
  }

  /** The group a first reserve wrote: all of it active. */
  lemma ReservedActive(l: Ledger, opening: map<int, int>, c: CheckoutId, lines: seq<Line>, e: int)
    requires LedgerOk(l, opening) && ReserveKey(c) !in l.keys && ReserveLines(l, c, lines, e).Ok?
    ensures var holds := ReserveLines(l, c, lines, e).value.book.holds;
            && LedgerOk(ReserveLines(l, c, lines, e).value, opening) && GroupLines(holds, c) == SortLines(lines)
            && forall i :: 0 <= i < |holds| && holds[i].checkout == c ==> holds[i].status == Active
  {
    assert GroupOk(l, c);
    EmptyGroup(l.book.holds, c);
    ReserveFacts(l, opening, c, lines, e);
    ReservationEffect(l, opening, c, lines, e);
    FreshFacts(c, SortLines(lines), e, c);
  }

  /** Committing a group that is all active sells all of its lines. */
  lemma ActiveGroupSold(l: Ledger, opening: map<int, int>, c: CheckoutId, o: Option<OrderId>, v: int)
    requires LedgerOk(l, opening)
    requires forall i :: 0 <= i < |l.book.holds| && l.book.holds[i].checkout == c ==> l.book.holds[i].status == Active
    ensures CommitHolds(l, c, o).Ok? && Get(CommitHolds(l, c, o).value.1, v) == Units(GroupLines(l.book.holds, c), v)
  {
    CommitSucceeds(l, opening, c, o);
    CommitShape(l, c, o);
    var sold := CommitHolds(l, c, o).value.0.book.holds;
    GroupLinesStable(l.book.holds, sold, c);
    CommittedMapTotals(sold, c, v);
    WhollyCommitted(sold, c, v);
  }

  /** A first commit after a reserve sells everything reserved. */
  lemma FirstCommit(l: Ledger, opening: map<int, int>, c: CheckoutId, lines: seq<Line>, e: int, o: Option<OrderId>, v: int)
    requires LedgerOk(l, opening) && ReserveKey(c) !in l.keys && ReserveLines(l, c, lines, e).Ok?
    ensures var reserved := ReserveLines(l, c, lines, e).value;
            CommitHolds(reserved, c, o).Ok? && Get(CommitHolds(reserved, c, o).value.1, v) == Units(lines, v)
  {
    ReservedActive(l, opening, c, lines, e);
    ActiveGroupSold(ReserveLines(l, c, lines, e).value, opening, c, o, v);
    SortKeeps(lines, v);
  }

  /**
   * Committing an id before it is reserved is not final: it succeeds with nothing, and the
   * commit after any reserve that fits sells everything reserved.
   */
  lemma CommitBeforeReserveIsNotFinal(l: Ledger, opening: map<int, int>, c: CheckoutId, lines: seq<Line>, e: int,
                                      o: Option<OrderId>, v: int)
    requires LedgerOk(l, opening) && ReserveKey(c) !in l.keys && c != Blank && lines != [] && Fits(l.book, lines)
    ensures CommitHolds(l, c, o) == Ok((l, map[]))
    ensures var reserved := Next(l, Reserve(c, lines, e));
            CommitHolds(reserved, c, o).Ok? && Get(CommitHolds(reserved, c, o).value.1, v) == Units(lines, v)
  {
    EarlyCommit(l, opening, c, o);
    ReservationExact(l, opening, c, lines, e);
    FirstCommit(l, opening, c, lines, e, o, v);
  }

  // ------------------------------------------------------- releases and the sweep, interleaved

  lemma {:induction false} RunAppend(l: Ledger, a: seq<Step>, b: seq<Step>)
    ensures Run(l, a + b) == Run(Run(l, a), b)
  {
    if b == [] {
      assert a + b == a;
    } else {
      var n := |b| - 1;
      assert (a + b)[..|a| + n] == a + b[..n];
      RunAppend(l, a, b[..n]);
    }
  }

  /** A release transaction raises exactly when its row is no row, or was sold, whatever ran before it. */
  lemma ReleaseRaisesExactly(l: Ledger, opening: map<int, int>, pk: nat)
    requires LedgerOk(l, opening)
    ensures Attempt(l, Release(pk)).Ok? <==> pk < |l.book.holds| && l.book.holds[pk].status != Committed
  {
    if pk < |l.book.holds| && l.book.holds[pk].status == Active {
      GuardsNeverFire(l.book, opening, pk, None, Released);
    }
  }

  /** In a sound ledger a release gives back its row if it is active, and changes no other row. */
  lemma ReleaseExactly(l: Ledger, opening: map<int, int>, pk: nat)
    requires LedgerOk(l, opening) && pk < |l.book.holds|
    ensures var h := l.book.holds[pk];
            Next(l, Release(pk)).book.holds
            == if h.status == Active then l.book.holds[pk := h.(status := Released)] else l.book.holds
  {
    if l.book.holds[pk].status == Active {
      GuardsNeverFire(l.book, opening, pk, None, Released);
    }
  }

  /** An expiry ends its row exactly when it is active and its time is up, and changes no other row. */
  lemma ExpireExactly(l: Ledger, opening: map<int, int>, pk: nat, now: int)
    requires LedgerOk(l, opening) && pk < |l.book.holds|
    ensures var h := l.book.holds[pk];
            Next(l, Expire(pk, now)).book.holds
            == if h.status == Active && h.expiresAt <= now then l.book.holds[pk := h.(status := Expired)] else l.book.holds
  {
    if l.book.holds[pk].status == Active {
      GuardsNeverFire(l.book, opening, pk, None, Expired);
    }
  }

  /** Whether it raises or not, its row is not active after it; nor is an overdue row after its expiry. */
  lemma RowEnds(l: Ledger, opening: map<int, int>, pk: nat, s: Step)
    requires LedgerOk(l, opening) && pk < |l.book.holds|
    requires s == Release(pk) || (s.Expire? && s.pk == pk && l.book.holds[pk].expiresAt <= s.now)
    ensures |Next(l, s).book.holds| == |l.book.holds| && Next(l, s).book.holds[pk].status != Active
  {
    if l.book.holds[pk].status == Active {
      GuardsNeverFire(l.book, opening, pk, None, Released);
      GuardsNeverFire(l.book, opening, pk, None, Expired);
    }
  }

  /** In any run that contains the row's own transaction, whatever runs before, between and after. */
  lemma RowEndsInRun(l: Ledger, opening: map<int, int>, pk: nat, steps: seq<Step>, k: nat)
    requires LedgerOk(l, opening) && pk < |l.book.holds| && k < |steps|
    requires steps[k] == Release(pk) || (steps[k].Expire? && steps[k].pk == pk && l.book.holds[pk].expiresAt <= steps[k].now)
    ensures pk < |Run(l, steps).book.holds| && Run(l, steps).book.holds[pk].status != Active
  {
    var before, after := steps[..k], steps[k + 1..];
    assert steps == before + [steps[k]] + after;
    RunAppend(l, before + [steps[k]], after);
    RunAppend(l, before, [steps[k]]);
    assert [steps[k]][..0] == [];
    RunKeeps(l, opening, before);
    RowEnds(Run(l, before), opening, pk, steps[k]);
    StepKeeps(Run(l, before), opening, steps[k]);
    RunKeeps(Run(l, before + [steps[k]]), opening, after);
  }

  /** A claimed group gains no rows. */
  lemma NoRowsAdded(l: Ledger, l': Ledger, c: CheckoutId, i: nat)
    requires Later(l, l') && ReserveKey(c) in l.keys && i < |l'.book.holds| && l'.book.holds[i].checkout == c
    ensures i < |l.book.holds|
  {}

  /**
   * A group's release lists its active rows and then runs one transaction a row, among
   * any others. Once each listed row's transaction has run, no row of the group is active.
   */
  lemma ReleasesInterleaved(l: Ledger, opening: map<int, int>, c: CheckoutId, steps: seq<Step>)
    requires LedgerOk(l, opening) && ReserveKey(c) in l.keys
    requires forall pk :: 0 <= pk < |l.book.holds| && l.book.holds[pk].checkout == c && l.book.holds[pk].status == Active ==>
               Release(pk) in steps
    ensures Settled(Run(l, steps).book, c)
  {
    RunKeeps(l, opening, steps);
    var holds := Run(l, steps).book.holds;
    forall i | 0 <= i < |holds| && holds[i].checkout == c ensures holds[i].status != Active {
      NoRowsAdded(l, Run(l, steps), c, i);
      if l.book.holds[i].status == Active {
        assert Release(i) in steps;
        var k :| 0 <= k < |steps| && steps[k] == Release(i);
        RowEndsInRun(l, opening, i, steps, k);
      }
    }
  }

  /** The sweep likewise: once each overdue row's transaction has run, none of them is active. */
  lemma SweepInterleaved(l: Ledger, opening: map<int, int>, now: int, steps: seq<Step>)
    requires LedgerOk(l, opening)
    requires forall pk :: 0 <= pk < |l.book.holds| && l.book.holds[pk].status == Active && l.book.holds[pk].expiresAt <= now ==>
               Expire(pk, now) in steps
    ensures |l.book.holds| <= |Run(l, steps).book.holds|
    ensures forall pk :: 0 <= pk < |l.book.holds| && l.book.holds[pk].expiresAt <= now ==>
              Run(l, steps).book.holds[pk].status != Active
  {
    RunKeeps(l, opening, steps);
    forall pk | 0 <= pk < |l.book.holds| && l.book.holds[pk].expiresAt <= now
      ensures Run(l, steps).book.holds[pk].status != Active
    {
      if l.book.holds[pk].status == Active {
        assert Expire(pk, now) in steps;
        var k :| 0 <= k < |steps| && steps[k] == Expire(pk, now);
        RowEndsInRun(l, opening, pk, steps, k);
      }
    }
  }
}
