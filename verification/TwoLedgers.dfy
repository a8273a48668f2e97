/**
 * Two ledgers, one meaning: the in-process provider (apps/inventory/providers/local.py)
 * and the remote one behind its client's keys (apps/inventory/providers/service.py,
 * services/inventory/api.py) keep the same tables and report the same totals.
 */
module TwoLedgers {
  import opened Wrappers
  import opened Totals
  import opened Lines
  import opened Books
  import opened Ledgers
  import opened LocalProvider
  import S = Services

  /** What callers ask of either ledger. */
  datatype Op =
    | Secure(checkout: CheckoutId, lines: seq<Line>, ttl: Option<nat>, now: int)
    | Sell(checkout: CheckoutId, order: OrderId)
    | GiveBack(checkout: CheckoutId)
    | Lapse(now: int)
    | Correct(variant: int, delta: int, reason: Reason, ref: Option<OrderId>)

  // ------------------------------------------------------------ the two sides

  function ExpiryOf(op: Op): int
    requires op.Secure?
  {
    op.now + 60 * Ttl(op.ttl)
  }

  /** The in-process provider's transactions for one call. */
  function Local(l: Ledger, op: Op): Ledger {
    match op
    case Secure(_, _, _, _) => Next(l, Reserve(op.checkout, op.lines, ExpiryOf(op)))
    case Sell(c, o) => Next(l, Commit(c, Some(o)))
    case GiveBack(c) => Run(l, Releases(S.ActiveRows(l.book.holds, InGroup(c))))
    case Lapse(now) => Run(l, Expiries(S.ActiveRows(l.book.holds, Overdue(now)), now))
    case Correct(v, d, r, o) => Next(l, Adjust(v, d, r, o))
  }

  function AdjustmentOf(v: int, d: int, r: Reason, o: Option<OrderId>): S.Body { S.AdjustBody(v, d, Some(r), o) }

  /** The request the client builds, with the key it chooses. */
  function RequestFor(op: Op): S.Request
    requires !op.Lapse?
  {
    match op
    case Secure(c, lines, ttl, _) => S.Request(c, Some(S.OfCheckout(c)), S.ReserveBody(c, lines, ttl))
    case Sell(c, o) => S.CommitRequest(c, o)
    case GiveBack(c) => S.ReleaseRequest(c)
    case Correct(v, d, r, o) => S.Request(Blank, Some(S.OfBody(AdjustmentOf(v, d, r, o))), AdjustmentOf(v, d, r, o))
  }

  function NowOf(op: Op): int { if op.Secure? || op.Lapse? then op.now else 0 }

  function EventFor(op: Op): S.Event {
    if op.Lapse? then S.Tick(op.now) else S.Ask(RequestFor(op), NowOf(op))
  }

  function Remote(s: S.Service, op: Op): S.Service { S.Next(s, EventFor(op)) }

  // ------------------------------------------------------------ tables that must coincide

  /** A sound book is determined by its holds and its movements. */
  lemma BooksAgree(a: Book, b: Book, opening: map<int, int>)
    requires BookOk(a, opening) && BookOk(b, opening) && a.holds == b.holds && a.moves == b.moves
    ensures a == b
  {
    forall v | v in a.stock ensures a.stock[v] == b.stock[v] {
      assert v in b.stock;
    }
    assert a.stock == b.stock;
  }

  // ------------------------------------------------------------ row selection

  lemma {:induction false} ActiveRowsPicked(holds: seq<Hold>, select: Hold -> bool)
    ensures Picked(holds, select, S.ActiveRows(holds, select))
  {
    if holds != [] {
      var n := |holds| - 1;
      ActiveRowsPicked(holds[..n], select);
      var before := S.ActiveRows(holds[..n], select);
      forall pk | 0 <= pk < |holds| && holds[pk].status == Active && select(holds[pk])
        ensures pk in S.ActiveRows(holds, select)
      {
        if pk < n {
          assert holds[..n][pk] == holds[pk];
          assert pk in before;
        }
      }
      forall k | 0 <= k < |before| ensures holds[before[k]] == holds[..n][before[k]] {}
    }
  }

  /** No row twice. */
  ghost predicate Distinct(pks: seq<nat>) { forall j, k :: 0 <= j < k < |pks| ==> pks[j] != pks[k] }

  lemma {:induction false} InsertRowKeeps(holds: seq<Hold>, sorted: seq<nat>, pk: nat)
    requires pk < |holds| && (forall k :: 0 <= k < |sorted| ==> sorted[k] < |holds|) && Distinct(sorted) && pk !in sorted
    ensures Distinct(S.InsertRow(holds, sorted, pk))
    ensures forall q :: q in S.InsertRow(holds, sorted, pk) <==> q in sorted || q == pk
  {
    var n := |sorted| - 1;
    if !(sorted == [] || holds[sorted[n]].variant <= holds[pk].variant) {
      assert sorted == sorted[..n] + [sorted[n]] && sorted[n] !in sorted[..n] && sorted[n] in sorted;
      InsertRowKeeps(holds, sorted[..n], pk);
      assert sorted[n] !in S.InsertRow(holds, sorted[..n], pk);
    }
  }

  /** Ordering rows by variant neither loses nor repeats one. */
  lemma {:induction false} ByVariantKeeps(holds: seq<Hold>, pks: seq<nat>)
    requires (forall k :: 0 <= k < |pks| ==> pks[k] < |holds|) && Distinct(pks)
    ensures Distinct(S.ByVariant(holds, pks))
    ensures forall q :: q in S.ByVariant(holds, pks) <==> q in pks
  {
    if pks != [] {
      var n := |pks| - 1;
      assert pks == pks[..n] + [pks[n]];
      ByVariantKeeps(holds, pks[..n]);
      InsertRowKeeps(holds, S.ByVariant(holds, pks[..n]), pks[n]);
    }
  }

  /** Rows already in variant order stay in the order they were. */
  lemma {:induction false} ByVariantIdle(holds: seq<Hold>, pks: seq<nat>)
    requires forall k :: 0 <= k < |pks| ==> pks[k] < |holds|
    requires forall j, k :: 0 <= j < k < |pks| ==> holds[pks[j]].variant <= holds[pks[k]].variant
    ensures S.ByVariant(holds, pks) == pks
  {
    if pks != [] {
      var n := |pks| - 1;
      assert pks == pks[..n] + [pks[n]];
      ByVariantIdle(holds, pks[..n]);
    }
  }

  lemma SelectedGroup(l: Ledger, c: CheckoutId)
    requires GroupOk(l, c)
    ensures S.Selected(l.book.holds, InGroup(c)) == S.ActiveRows(l.book.holds, InGroup(c))
  {
    var pks := S.ActiveRows(l.book.holds, InGroup(c));
    ActiveRowsPicked(l.book.holds, InGroup(c));
    forall j, k | 0 <= j < k < |pks| ensures l.book.holds[pks[j]].variant <= l.book.holds[pks[k]].variant {
      PkOrderIsVariantOrder(l, c, pks[j], pks[k]);
    }
    ByVariantIdle(l.book.holds, pks);
  }

  // ------------------------------------------------------------ ending rows

  /** These rows were given `terminal`, and no other row changed. */
  ghost predicate RowsEnded(was: seq<Hold>, now: seq<Hold>, pks: seq<nat>, terminal: HoldStatus) {
    |now| == |was| && forall i :: 0 <= i < |was| ==> now[i] == if i in pks then was[i].(status := terminal) else was[i]
  }

  /** One more active row ends. */
  lemma EndsOneMore(b: Book, mid: Book, opening: map<int, int>, pks: seq<nat>, pk: nat, terminal: HoldStatus)
    requires BookOk(mid, opening) && RowsEnded(b.holds, mid.holds, pks, terminal) && mid.moves == b.moves
    requires pk < |b.holds| && pk !in pks && b.holds[pk].status == Active && (terminal == Released || terminal == Expired)
    ensures EndHold(mid, pk, terminal).Ok?
    ensures var after := EndHold(mid, pk, terminal).value;
            BookOk(after, opening) && RowsEnded(b.holds, after.holds, pks + [pk], terminal) && after.moves == b.moves
  {
    assert mid.holds[pk] == b.holds[pk];
    GuardsNeverFire(mid, opening, pk, None, terminal);
    EndHoldKeeps(mid, opening, pk, terminal);
  }

  /** Ending any distinct active rows succeeds, keeps the book sound, and ends exactly them. */
  lemma {:induction false} EndRowsEnds(b: Book, opening: map<int, int>, pks: seq<nat>, terminal: HoldStatus)
    requires BookOk(b, opening) && Distinct(pks) && (terminal == Released || terminal == Expired)
    requires forall k :: 0 <= k < |pks| ==> pks[k] < |b.holds| && b.holds[pks[k]].status == Active
    ensures S.EndRows(b, pks, terminal).Ok?
    ensures var after := S.EndRows(b, pks, terminal).value;
            BookOk(after, opening) && after.moves == b.moves && RowsEnded(b.holds, after.holds, pks, terminal)
  {
    if pks != [] {
      var n := |pks| - 1;
      assert pks == pks[..n] + [pks[n]];
      EndRowsEnds(b, opening, pks[..n], terminal);
      EndsOneMore(b, S.EndRows(b, pks[..n], terminal).value, opening, pks[..n], pks[n], terminal);
    }
  }

  /** The service's one transaction ends what the provider's row transactions end. */
  lemma SelectedEnds(b: Book, opening: map<int, int>, select: Hold -> bool, terminal: HoldStatus)
    requires BookOk(b, opening) && (terminal == Released || terminal == Expired)
    ensures S.EndRows(b, S.Selected(b.holds, select), terminal).Ok?
    ensures var after := S.EndRows(b, S.Selected(b.holds, select), terminal).value;
            BookOk(after, opening) && after.moves == b.moves && Ended(b.holds, after.holds, select, terminal)
  {
    var pks := S.ActiveRows(b.holds, select);
    ActiveRowsPicked(b.holds, select);
    ByVariantKeeps(b.holds, pks);
    var rows := S.Selected(b.holds, select);
    forall k | 0 <= k < |rows| ensures b.holds[rows[k]].status == Active {
      assert rows[k] in pks;
    }
    EndRowsEnds(b, opening, rows, terminal);
    forall i | 0 <= i < |b.holds| ensures i in rows <==> b.holds[i].status == Active && select(b.holds[i]) {
      if i in pks {
        var k :| 0 <= k < |pks| && pks[k] == i;
      }
    }
  }

  // ------------------------------------------------------------ selling rows

  lemma ActiveRowsSnoc(holds: seq<Hold>, select: Hold -> bool, n: nat)
    requires n < |holds|
    ensures S.ActiveRows(holds[..n + 1], select)
         == S.ActiveRows(holds[..n], select) + if holds[n].status == Active && select(holds[n]) then [n] else []
  {
    assert holds[..n + 1][..n] == holds[..n];
  }

  lemma SellRowsSnoc(b: Book, pks: seq<nat>, pk: nat, o: Option<OrderId>)
    requires (forall k :: 0 <= k < |pks| ==> pks[k] < |b.holds|) && pk < |b.holds| && S.SellRows(b, pks, o).Ok?
    ensures S.SellRows(b, pks + [pk], o) == S.SellRow(S.SellRows(b, pks, o).value, pk, o)
  {
    assert (pks + [pk])[..|pks|] == pks;
  }

  /** A commit the provider accepts is the service's sale of the row. */
  lemma SameSale(b: Book, pk: nat, o: Option<OrderId>)
    requires pk < |b.holds| && CommitHold(b, pk, o).Ok?
    ensures S.SellRow(b, pk, o) == Ok(CommitHold(b, pk, o).value)
  {}

  /** One more row of the provider's commit loop. */
  lemma CommitNext(b: Book, c: CheckoutId, o: Option<OrderId>, n: nat)
    requires n < |b.holds| && CommitUpTo(b, c, o, n + 1).Ok?
    ensures CommitUpTo(b, c, o, n).Ok?
    ensures var mid, after := CommitUpTo(b, c, o, n).value.0, CommitUpTo(b, c, o, n + 1).value.0;
            if b.holds[n].checkout == c && b.holds[n].status == Active then CommitHold(mid, n, o) == Ok(after) else after == mid
  {}

  /** One more row of either loop, from books that agree so far. */
  lemma SellsOneMore(b: Book, c: CheckoutId, o: Option<OrderId>, n: nat, mid: Book, after: Book)
    requires n < |b.holds| == |mid.holds|
    requires S.SellRows(b, S.ActiveRows(b.holds[..n], InGroup(c)), o) == Ok(mid)
    requires if b.holds[n].checkout == c && b.holds[n].status == Active then CommitHold(mid, n, o) == Ok(after) else after == mid
    ensures S.SellRows(b, S.ActiveRows(b.holds[..n + 1], InGroup(c)), o) == Ok(after)
  {
    var before := S.ActiveRows(b.holds[..n], InGroup(c));
    ActiveRowsSnoc(b.holds, InGroup(c), n);
    if b.holds[n].checkout == c && b.holds[n].status == Active {
      SellRowsSnoc(b, before, n, o);
      SameSale(mid, n, o);
    } else {
      assert before + [] == before;
    }
  }

  /** Over the first `n` rows, the service sells exactly what the provider's commit loop sells. */
  lemma {:induction false} SellsTheSame(b: Book, c: CheckoutId, o: Option<OrderId>, n: nat)
    requires n <= |b.holds| && CommitUpTo(b, c, o, n).Ok?
    ensures S.SellRows(b, S.ActiveRows(b.holds[..n], InGroup(c)), o) == Ok(CommitUpTo(b, c, o, n).value.0)
  {
    if n == 0 {
      assert b.holds[..0] == [];
    } else {
      CommitNext(b, c, o, n - 1);
      SellsTheSame(b, c, o, n - 1);
      var mid, after := CommitUpTo(b, c, o, n - 1).value.0, CommitUpTo(b, c, o, n).value.0;
      SellsOneMore(b, c, o, n - 1, mid, after);
    }
  }

  lemma SoldHoldsSnoc(holds: seq<Hold>, h: Hold, c: CheckoutId, o: Option<OrderId>, v: int)
    ensures Total(SoldHolds(holds + [h], c, o), CommittedOf(c, v))
         == Total(SoldHolds(holds, c, o), CommittedOf(c, v)) + CommittedOf(c, v)(Sold(h, c, o))
  {
    assert SoldHolds(holds + [h], c, o) == SoldHolds(holds, c, o) + [Sold(h, c, o)];
    TotalSnoc(SoldHolds(holds, c, o), Sold(h, c, o), CommittedOf(c, v));
  }

  /** Listing the row just added reports its line besides. */
  lemma RowLinesSnoc(holds: seq<Hold>, pks: seq<nat>, h: Hold, v: int)
    requires forall k :: 0 <= k < |pks| ==> pks[k] < |holds|
    ensures forall k :: 0 <= k < |pks| ==> pks[k] < |holds + [h]|
    ensures S.RowLines(holds + [h], pks) == S.RowLines(holds, pks)
    ensures var more := pks + [|holds|];
            && (forall k :: 0 <= k < |more| ==> more[k] < |holds + [h]|)
            && Units(S.RowLines(holds + [h], more), v) == Units(S.RowLines(holds, pks), v) + UnitsOf(v)(Line(h.variant, h.qty))
  {
    var all, x := holds + [h], Line(h.variant, h.qty);
    assert S.RowLines(all, pks) == S.RowLines(holds, pks);
    assert S.RowLines(all, pks + [|holds|]) == S.RowLines(all, pks) + [x];
    TotalSnoc(S.RowLines(all, pks), x, UnitsOf(v));
  }

  /** One more row, reported and sold alike. */
  lemma ReportsOneMore(holds: seq<Hold>, pks: seq<nat>, h: Hold, c: CheckoutId, o: Option<OrderId>, v: int)
    requires (forall k :: 0 <= k < |pks| ==> pks[k] < |holds|) && (h.checkout == c ==> h.status != Committed)
    requires Units(S.RowLines(holds, pks), v) == Total(SoldHolds(holds, c, o), CommittedOf(c, v))
    ensures var more := pks + if h.status == Active && h.checkout == c then [|holds|] else [];
            && (forall k :: 0 <= k < |more| ==> more[k] < |holds + [h]|)
            && Units(S.RowLines(holds + [h], more), v) == Total(SoldHolds(holds + [h], c, o), CommittedOf(c, v))
  {
    SoldHoldsSnoc(holds, h, c, o, v);
    RowLinesSnoc(holds, pks, h, v);
    assert pks + [] == pks;
  }

  /** What is reported of these rows is what the provider returns. */
  ghost predicate ReportedAlike(holds: seq<Hold>, c: CheckoutId, o: Option<OrderId>, v: int) {
    Units(S.RowLines(holds, S.ActiveRows(holds, InGroup(c))), v) == Total(SoldHolds(holds, c, o), CommittedOf(c, v))
  }

  lemma ActiveRowsOf(holds: seq<Hold>, h: Hold, c: CheckoutId)
    ensures S.ActiveRows(holds + [h], InGroup(c))
         == S.ActiveRows(holds, InGroup(c)) + if h.status == Active && h.checkout == c then [|holds|] else []
  {
    assert (holds + [h])[..|holds|] == holds;
  }

  lemma ReportsNext(holds: seq<Hold>, h: Hold, c: CheckoutId, o: Option<OrderId>, v: int)
    requires ReportedAlike(holds, c, o, v) && (h.checkout == c ==> h.status != Committed)
    ensures ReportedAlike(holds + [h], c, o, v)
  {
    ActiveRowsOf(holds, h, c);
    ReportsOneMore(holds, S.ActiveRows(holds, InGroup(c)), h, c, o, v);
  }

  /** With nothing of the group sold before, what is reported is what the provider returns. */
  lemma {:induction false} ReportsTheSame(holds: seq<Hold>, c: CheckoutId, o: Option<OrderId>, v: int)
    requires forall i :: 0 <= i < |holds| && holds[i].checkout == c ==> holds[i].status != Committed
    ensures ReportedAlike(holds, c, o, v)
  {
    if holds == [] {
      assert S.RowLines(holds, []) == [] && SoldHolds(holds, c, o) == [];
    } else {
      var n := |holds| - 1;
      ReportsTheSame(holds[..n], c, o, v);
      ReportsNext(holds[..n], holds[n], c, o, v);
      assert holds == holds[..n] + [holds[n]];
    }
  }

  function SoldHolds(holds: seq<Hold>, c: CheckoutId, o: Option<OrderId>): seq<Hold> {
    seq(|holds|, i requires 0 <= i < |holds| => Sold(holds[i], c, o))
  }

  // ------------------------------------------------------------ what relates the two

  function ReserveHash(c: CheckoutId): S.HashKey { S.HashKey(S.ReserveRoute, S.OfCheckout(c)) }

  function CommitHash(c: CheckoutId): S.HashKey { S.HashKey(S.CommitRoute, S.OfCommit(c)) }

  function ReleaseHash(c: CheckoutId): S.HashKey { S.HashKey(S.ReleaseRoute, S.OfRelease(c)) }

  /** Both sides claimed the id, for the same lines up to order, or neither did. */
  ghost predicate ReservedAlike(l: Ledger, s: S.Service, c: CheckoutId) {
    if ReserveHash(c) in s.records then
      var record := s.records[ReserveHash(c)];
      && ReserveKey(c) in l.keys
      && record.fingerprint.ReserveBody? && SortLines(record.fingerprint.lines) == l.keys[ReserveKey(c)]
    else ReserveKey(c) !in l.keys
  }

  /** Row `i` of the group is a sale. */
  predicate SoldRow(b: Book, c: CheckoutId, i: nat) {
    i < |b.holds| && b.holds[i].checkout == c && b.holds[i].status == Committed
  }

  /** The service recorded the group's commit, for good and with these totals, or the group sold nothing. */
  ghost predicate SoldAlike(l: Ledger, s: S.Service, c: CheckoutId, o: OrderId) {
    if CommitHash(c) in s.records then
      var record := s.records[CommitHash(c)];
      && ReserveKey(c) in l.keys && Settled(l.book, c) && Unclaimed(l.book.holds, c, Some(o))
      && record.fingerprint == S.CommitBody(Some(o)) && record.status == 200 && record.reply.SoldRows?
      && forall v :: Units(record.reply.lines, v) == CommittedIn(l.book, c, v)
    else forall i :: !SoldRow(l.book, c, i)
  }

  /** The service recorded the group's release, and the group has nothing left to release. */
  ghost predicate ReleasedAlike(l: Ledger, s: S.Service, c: CheckoutId) {
    ReleaseHash(c) in s.records ==>
      && ReserveKey(c) in l.keys && Settled(l.book, c)
      && s.records[ReleaseHash(c)].fingerprint == S.ReleaseBody && s.records[ReleaseHash(c)].status == 200
  }

  /** The two ledgers tell the same story; `owner` names the one order each id is ever sold to. */
  ghost predicate Alike(l: Ledger, s: S.Service, owner: CheckoutId -> OrderId) {
    && s.book == l.book
    && forall c :: ReservedAlike(l, s, c) && SoldAlike(l, s, c, owner(c)) && ReleasedAlike(l, s, c)
  }

  /** The calls the claim is about, beyond adjustments with distinct bodies. */
  predicate Tame(l: Ledger, op: Op, owner: CheckoutId -> OrderId) {
    match op
    case Secure(_, _, _, _) => true
    case Sell(c, o) => ReserveKey(c) in l.keys && o == owner(c)
    case GiveBack(c) => ReserveKey(c) in l.keys
    case Lapse(_) => true
    case Correct(_, _, r, ref) => !(r == Return && ref.Some?)
  }

  /** What was recorded about a group stays true at a later time that sold nothing of it. */
  lemma GroupKeeps(l: Ledger, l': Ledger, s: S.Service, s': S.Service, c: CheckoutId, o: OrderId)
    requires Later(l, l') && SoldAlike(l, s, c, o) && ReleasedAlike(l, s, c)
    requires CommitHash(c) in s'.records <==> CommitHash(c) in s.records
    requires CommitHash(c) in s.records ==> s'.records[CommitHash(c)] == s.records[CommitHash(c)]
    requires ReleaseHash(c) in s'.records ==> ReleaseHash(c) in s.records && s'.records[ReleaseHash(c)] == s.records[ReleaseHash(c)]
    requires forall i :: SoldRow(l'.book, c, i) ==> SoldRow(l.book, c, i)
    ensures SoldAlike(l', s', c, o) && ReleasedAlike(l', s', c)
  {
    if CommitHash(c) in s.records {
      Frozen(l, l', c);
      StillUnclaimed(l, l', c, Some(o));
    }
    if ReleaseHash(c) in s'.records {
      Frozen(l, l', c);
    }
  }

  // ------------------------------------------------------------ reserving

  /** The provider's side of a reserve. */
  lemma SecureLocally(l: Ledger, op: Op)
    requires op.Secure?
    ensures Local(l, op)
         == match ReserveLines(l, op.checkout, op.lines, ExpiryOf(op))
            case Err(_) => l
            case Ok(l') => l'
  {
    LocalIsStep(l, op);
    ReserveStep(l, op.checkout, op.lines, ExpiryOf(op));
  }

  lemma LocalIsStep(l: Ledger, op: Op)
    requires op.Secure?
    ensures Local(l, op) == Next(l, Reserve(op.checkout, op.lines, ExpiryOf(op)))
  {}

  lemma ReserveStep(l: Ledger, c: CheckoutId, lines: seq<Line>, e: int)
    ensures Next(l, Reserve(c, lines, e))
         == match ReserveLines(l, c, lines, e)
            case Err(_) => l
            case Ok(l') => l'
  {}

  /** The provider's reserve of an unclaimed id. */
  lemma FreshLocally(l: Ledger, op: Op)
    requires op.Secure? && op.checkout != Blank && op.lines != [] && ReserveKey(op.checkout) !in l.keys
    ensures ReserveLines(l, op.checkout, op.lines, ExpiryOf(op))
         == match HoldAll(l.book, op.checkout, SortLines(op.lines), ExpiryOf(op))
            case Err(e) => Err(e)
            case Ok(b) => Ok(Ledger(b, l.keys[ReserveKey(op.checkout) := SortLines(op.lines)]))
  {}

  /** What the service records of a fresh reserve. */
  function Reservation(op: Op, first: nat): S.Record
    requires op.Secure?
  {
    S.Record(S.ReserveBody(op.checkout, op.lines, op.ttl), 201, S.HeldRows(S.Rows(first, |op.lines|)))
  }

  /** The service's side of a fresh reserve. */
  lemma FreshRemotely(s: S.Service, op: Op)
    requires op.Secure? && S.Validated(RequestFor(op).body) && ReserveHash(op.checkout) !in s.records
    ensures match HoldAll(s.book, op.checkout, SortLines(op.lines), ExpiryOf(op))
            case Err(_) => Remote(s, op) == s && S.Handle(s, RequestFor(op), op.now).1.status >= 400
            case Ok(b) =>
              && S.Handle(s, RequestFor(op), op.now).1.status == 201
              && Remote(s, op) == S.Service(b, s.records[ReserveHash(op.checkout) := Reservation(op, |s.book.holds|)])
  {}

  /** A fresh reserve on either side: the same loop over the same table. */
  lemma SecureEffects(l: Ledger, s: S.Service, op: Op)
    requires s.book == l.book && op.Secure? && S.Validated(RequestFor(op).body)
    requires ReserveHash(op.checkout) !in s.records && ReserveKey(op.checkout) !in l.keys
    ensures var c := op.checkout;
            match HoldAll(l.book, c, SortLines(op.lines), ExpiryOf(op))
            case Err(_) =>
              && Local(l, op) == l && Remote(s, op) == s
              && ReserveLines(l, c, op.lines, ExpiryOf(op)).Err? && S.Handle(s, RequestFor(op), op.now).1.status >= 400
            case Ok(b) =>
              && ReserveLines(l, c, op.lines, ExpiryOf(op)) == Ok(Local(l, op))
              && S.Handle(s, RequestFor(op), op.now).1.status == 201
              && Local(l, op) == Ledger(b, l.keys[ReserveKey(c) := SortLines(op.lines)])
              && Remote(s, op) == S.Service(b, s.records[ReserveHash(c) := Reservation(op, |l.book.holds|)])
  {
    SecureLocally(l, op);
    FreshLocally(l, op);
    FreshRemotely(s, op);
  }

  /** Rows just added are not sold. */
  lemma AddedNotSold(b: Book, b': Book, c: CheckoutId, lines: seq<Line>, e: int, d: CheckoutId)
    requires b'.holds == b.holds + Fresh(c, lines, e)
    ensures forall i :: SoldRow(b', d, i) ==> SoldRow(b, d, i)
  {
    FreshFacts(c, lines, e, c);
  }

  /** A fresh reserve sells nothing of any group. */
  lemma SecureSellsNothing(l: Ledger, opening: map<int, int>, op: Op, l': Ledger, d: CheckoutId)
    requires LedgerOk(l, opening) && op.Secure? && ReserveKey(op.checkout) !in l.keys
    requires ReserveLines(l, op.checkout, op.lines, ExpiryOf(op)) == Ok(l')
    ensures Later(l, l') && forall i :: SoldRow(l'.book, d, i) ==> SoldRow(l.book, d, i)
  {
    ReserveFacts(l, opening, op.checkout, op.lines, ExpiryOf(op));
    AddedNotSold(l.book, l'.book, op.checkout, SortLines(op.lines), ExpiryOf(op), d);
  }

  lemma SecureFresh(l: Ledger, s: S.Service, opening: map<int, int>, owner: CheckoutId -> OrderId, op: Op)
    requires LedgerOk(l, opening) && Alike(l, s, owner) && op.Secure? && S.Validated(RequestFor(op).body)
    requires ReserveKey(op.checkout) !in l.keys
    ensures Alike(Local(l, op), Remote(s, op), owner)
    ensures ReserveLines(l, op.checkout, op.lines, ExpiryOf(op)).Ok?
       <==> S.Handle(s, RequestFor(op), op.now).1.status < 400
  {
    var l', s' := Local(l, op), Remote(s, op);
    assert ReservedAlike(l, s, op.checkout);
    SecureEffects(l, s, op);
    if HoldAll(l.book, op.checkout, SortLines(op.lines), ExpiryOf(op)).Ok? {
      forall d ensures ReservedAlike(l', s', d) && SoldAlike(l', s', d, owner(d)) && ReleasedAlike(l', s', d) {
        assert ReservedAlike(l, s, d) && SoldAlike(l, s, d, owner(d)) && ReleasedAlike(l, s, d);
        SecureSellsNothing(l, opening, op, l', d);
        GroupKeeps(l, l', s, s', d, owner(d));
      }
    }
  }

  /** A malformed reserve is refused by the provider too. */
  lemma MalformedRefused(l: Ledger, opening: map<int, int>, op: Op)
    requires LedgerOk(l, opening) && op.Secure? && ReserveKey(op.checkout) !in l.keys
    requires !S.Validated(RequestFor(op).body)
    ensures Local(l, op) == l
  {
    SecureLocally(l, op);
    RefusedExactly(l, opening, op.checkout, op.lines, ExpiryOf(op));
  }

  lemma RefusedExactly(l: Ledger, opening: map<int, int>, c: CheckoutId, lines: seq<Line>, e: int)
    requires LedgerOk(l, opening) && ReserveKey(c) !in l.keys
    requires c == Blank || lines == [] || exists i :: 0 <= i < |lines| && lines[i].qty < 1
    ensures ReserveLines(l, c, lines, e).Err?
  {
    ReservationExact(l, opening, c, lines, e);
  }

  lemma ClaimedReserveIdle(l: Ledger, op: Op)
    requires op.Secure? && ReserveKey(op.checkout) in l.keys
    ensures Local(l, op) == l
  {}

  lemma RecordedReserveIdle(s: S.Service, op: Op)
    requires op.Secure? && (ReserveHash(op.checkout) in s.records || !S.Validated(RequestFor(op).body))
    ensures Remote(s, op) == s
  {}

  /** A reserve that is malformed, or replays a claimed id, changes neither side. */
  lemma SecureIdle(l: Ledger, s: S.Service, opening: map<int, int>, owner: CheckoutId -> OrderId, op: Op)
    requires LedgerOk(l, opening) && Alike(l, s, owner) && op.Secure?
    requires !S.Validated(RequestFor(op).body) || ReserveKey(op.checkout) in l.keys
    ensures Local(l, op) == l && Remote(s, op) == s
  {
    assert ReservedAlike(l, s, op.checkout);
    RecordedReserveIdle(s, op);
    if ReserveKey(op.checkout) in l.keys {
      ClaimedReserveIdle(l, op);
    } else {
      MalformedRefused(l, opening, op);
    }
  }

  // ------------------------------------------------------------ selling

  /** A commit whose key is recorded is a replay on both sides, with the same totals. */
  lemma SellReplay(l: Ledger, s: S.Service, opening: map<int, int>, owner: CheckoutId -> OrderId, c: CheckoutId)
    requires LedgerOk(l, opening) && SoldAlike(l, s, c, owner(c)) && CommitHash(c) in s.records
    ensures Local(l, Sell(c, owner(c))) == l && Remote(s, Sell(c, owner(c))) == s
    ensures SellsAlike(l, s, c, owner(c))
  {
    var o := Some(owner(c));
    CommitSucceeds(l, opening, c, o);
    SettledCommitIsIdle(l.book, c, o, |l.book.holds|);
    CommitShape(l, c, o);
    forall v ensures Get(CommitHolds(l, c, o).value.1, v) == CommittedIn(l.book, c, v) {
      CommittedMapTotals(l.book.holds, c, v);
    }
  }

  /** Both sides accept the commit and report the same units of every variant. */
  ghost predicate SellsAlike(l: Ledger, s: S.Service, c: CheckoutId, o: OrderId) {
    && CommitHolds(l, c, Some(o)).Ok?
    && var a := S.Handle(s, S.CommitRequest(c, o), 0).1;
       a.status == 200 && a.reply.SoldRows?
       && forall v :: Units(a.reply.lines, v) == Get(CommitHolds(l, c, Some(o)).value.1, v)
  }

  /** A first commit: the same rows sold in the same order. */
  lemma SellEffects(l: Ledger, s: S.Service, opening: map<int, int>, c: CheckoutId, o: OrderId)
    requires LedgerOk(l, opening) && s.book == l.book && CommitHash(c) !in s.records
    requires forall i :: !SoldRow(l.book, c, i)
    ensures CommitHolds(l, c, Some(o)).Ok? && Local(l, Sell(c, o)) == CommitHolds(l, c, Some(o)).value.0
    ensures var rows := S.SoldRows(S.RowLines(l.book.holds, S.ActiveRows(l.book.holds, InGroup(c))));
            && S.Handle(s, S.CommitRequest(c, o), 0).1 == S.Answer(200, rows)
            && Remote(s, Sell(c, o))
               == S.Service(Local(l, Sell(c, o)).book, s.records[CommitHash(c) := S.Record(S.CommitBody(Some(o)), 200, rows)])
  {
    forall i | 0 <= i < |l.book.holds| && l.book.holds[i].checkout == c ensures l.book.holds[i].status != Committed {
      assert !SoldRow(l.book, c, i);
    }
    CommitSucceeds(l, opening, c, Some(o));
    assert GroupOk(l, c);
    SelectedGroup(l, c);
    assert l.book.holds[..|l.book.holds|] == l.book.holds;
    SellsTheSame(l.book, c, Some(o), |l.book.holds|);
  }

  /** After a first commit, the totals the service reported are the group's sales, for good. */
  lemma SoldNow(l: Ledger, c: CheckoutId, o: OrderId, v: int)
    requires CommitHolds(l, c, Some(o)).Ok? && forall i :: !SoldRow(l.book, c, i)
    ensures var (l', m) := CommitHolds(l, c, Some(o)).value;
            && Units(S.RowLines(l.book.holds, S.ActiveRows(l.book.holds, InGroup(c))), v) == CommittedIn(l'.book, c, v)
            && Get(m, v) == CommittedIn(l'.book, c, v)
  {
    var (l', m) := CommitHolds(l, c, Some(o)).value;
    CommitShape(l, c, Some(o));
    assert SoldHolds(l.book.holds, c, Some(o)) == l'.book.holds;
    forall i | 0 <= i < |l.book.holds| && l.book.holds[i].checkout == c ensures l.book.holds[i].status != Committed {
      assert !SoldRow(l.book, c, i);
    }
    ReportsTheSame(l.book.holds, c, Some(o), v);
    CommittedMapTotals(l'.book.holds, c, v);
  }

  lemma SellOthers(l: Ledger, opening: map<int, int>, c: CheckoutId, o: OrderId, d: CheckoutId)
    requires LedgerOk(l, opening) && CommitHolds(l, c, Some(o)).Ok?
    ensures var l' := CommitHolds(l, c, Some(o)).value.0;
            && Later(l, l') && l'.keys == l.keys && Settled(l'.book, c)
            && ((forall i :: !SoldRow(l.book, c, i)) ==> Unclaimed(l'.book.holds, c, Some(o)))
            && (d != c ==> forall i :: SoldRow(l'.book, d, i) ==> SoldRow(l.book, d, i))
  {
    CommitKeeps(l, opening, c, Some(o));
    CommitShape(l, c, Some(o));
    var l' := CommitHolds(l, c, Some(o)).value.0;
    if forall i :: !SoldRow(l.book, c, i) {
      forall i: nat | SoldRow(l'.book, c, i) ensures l'.book.holds[i].order == Some(o) {
        assert !SoldRow(l.book, c, i);
      }
      assert forall i :: 0 <= i < |l'.book.holds| && l'.book.holds[i].checkout == c && l'.book.holds[i].status == Committed
                         ==> SoldRow(l'.book, c, i);
    }
  }

  /** After a first commit the group's record says what it sold. */
  lemma SoldAlikeNow(l: Ledger, s: S.Service, opening: map<int, int>, c: CheckoutId, o: OrderId)
    requires LedgerOk(l, opening) && s.book == l.book && CommitHash(c) !in s.records && ReserveKey(c) in l.keys
    requires forall i :: !SoldRow(l.book, c, i)
    ensures SoldAlike(Local(l, Sell(c, o)), Remote(s, Sell(c, o)), c, o) && SellsAlike(l, s, c, o)
  {
    SellEffects(l, s, opening, c, o);
    SellOthers(l, opening, c, o, c);
    forall v
      ensures Units(S.RowLines(l.book.holds, S.ActiveRows(l.book.holds, InGroup(c))), v) == CommittedIn(Local(l, Sell(c, o)).book, c, v)
      ensures Get(CommitHolds(l, c, Some(o)).value.1, v) == CommittedIn(Local(l, Sell(c, o)).book, c, v)
    {
      SoldNow(l, c, o, v);
    }
  }

  lemma SellFirst(l: Ledger, s: S.Service, opening: map<int, int>, owner: CheckoutId -> OrderId, c: CheckoutId)
    requires LedgerOk(l, opening) && Alike(l, s, owner) && ReserveKey(c) in l.keys && CommitHash(c) !in s.records
    ensures Alike(Local(l, Sell(c, owner(c))), Remote(s, Sell(c, owner(c))), owner) && SellsAlike(l, s, c, owner(c))
  {
    var o := owner(c);
    var l', s' := Local(l, Sell(c, o)), Remote(s, Sell(c, o));
    assert SoldAlike(l, s, c, o);
    SellEffects(l, s, opening, c, o);
    SoldAlikeNow(l, s, opening, c, o);
    forall d ensures ReservedAlike(l', s', d) && SoldAlike(l', s', d, owner(d)) && ReleasedAlike(l', s', d) {
      assert ReservedAlike(l, s, d) && SoldAlike(l, s, d, owner(d)) && ReleasedAlike(l, s, d);
      SellOthers(l, opening, c, o, d);
      if d != c {
        GroupKeeps(l, l', s, s', d, owner(d));
      } else if ReleaseHash(c) in s.records {
        Frozen(l, l', c);
      }
    }
  }

  // ------------------------------------------------------------ releasing and expiring

  /** Row transactions change neither keys nor movements. */
  lemma {:induction false} RowRunKeeps(l: Ledger, steps: seq<Step>)
    requires forall s :: s in steps ==> s.Release? || s.Expire?
    ensures Run(l, steps).keys == l.keys && Run(l, steps).book.moves == l.book.moves
  {
    if steps != [] {
      var n := |steps| - 1;
      forall s | s in steps[..n] ensures s.Release? || s.Expire? {
        assert s in steps;
      }
      RowRunKeeps(l, steps[..n]);
      assert steps[n] in steps;
    }
  }

  lemma GiveBackEnds(l: Ledger, opening: map<int, int>, c: CheckoutId)
    requires LedgerOk(l, opening)
    ensures var l' := Local(l, GiveBack(c));
            && LedgerOk(l', opening) && Later(l, l') && l'.keys == l.keys && l'.book.moves == l.book.moves
            && Ended(l.book.holds, l'.book.holds, InGroup(c), Released)
  {
    var pks := S.ActiveRows(l.book.holds, InGroup(c));
    ActiveRowsPicked(l.book.holds, InGroup(c));
    AlwaysCovered(l, opening);
    ReleasesNeverRaise(l, InGroup(c), pks, |pks|);
    assert pks[..|pks|] == pks;
    RowRunKeeps(l, Releases(pks));
    RunKeeps(l, opening, Releases(pks));
  }

  lemma LapseEnds(l: Ledger, opening: map<int, int>, now: int)
    requires LedgerOk(l, opening)
    ensures var l' := Local(l, Lapse(now));
            && LedgerOk(l', opening) && Later(l, l') && l'.keys == l.keys && l'.book.moves == l.book.moves
            && Ended(l.book.holds, l'.book.holds, Overdue(now), Expired)
  {
    var pks := S.ActiveRows(l.book.holds, Overdue(now));
    ActiveRowsPicked(l.book.holds, Overdue(now));
    DuePicked(l.book.holds, now, pks);
    AlwaysCovered(l, opening);
    ExpiriesEndAll(l, pks, now, |pks|);
    assert pks[..|pks|] == pks;
    EndedAll(l.book.holds, Run(l, Expiries(pks, now)).book.holds, Overdue(now), pks, Expired);
    RowRunKeeps(l, Expiries(pks, now));
    RunKeeps(l, opening, Expiries(pks, now));
  }

  lemma DuePicked(holds: seq<Hold>, now: int, pks: seq<nat>)
    requires Picked(holds, Overdue(now), pks)
    ensures Picked(holds, Overdue(now), pks)
  {}

  /** Both sides end the same rows, so their tables coincide. */
  lemma EndsAlike(l': Ledger, was: Book, opening: map<int, int>, select: Hold -> bool, terminal: HoldStatus)
    requires LedgerOk(l', opening) && BookOk(was, opening) && (terminal == Released || terminal == Expired)
    requires l'.book.moves == was.moves && Ended(was.holds, l'.book.holds, select, terminal)
    ensures S.EndRows(was, S.Selected(was.holds, select), terminal) == Ok(l'.book)
  {
    SelectedEnds(was, opening, select, terminal);
    var after := S.EndRows(was, S.Selected(was.holds, select), terminal).value;
    assert after.holds == l'.book.holds;
    BooksAgree(after, l'.book, opening);
  }

  lemma EndingSellsNothing(l: Ledger, l': Ledger, select: Hold -> bool, terminal: HoldStatus, d: CheckoutId)
    requires Ended(l.book.holds, l'.book.holds, select, terminal) && terminal != Committed
    ensures forall i :: SoldRow(l'.book, d, i) ==> SoldRow(l.book, d, i)
  {}

  lemma {:induction false} NothingToSelect(holds: seq<Hold>, c: CheckoutId)
    requires forall i :: 0 <= i < |holds| && holds[i].checkout == c ==> holds[i].status != Active
    ensures S.ActiveRows(holds, InGroup(c)) == []
  {
    if holds != [] {
      NothingToSelect(holds[..|holds| - 1], c);
    }
  }

  lemma GiveBackReplay(l: Ledger, s: S.Service, c: CheckoutId)
    requires ReleaseHash(c) in s.records && ReleasedAlike(l, s, c)
    ensures Local(l, GiveBack(c)) == l && Remote(s, GiveBack(c)) == s
  {
    NothingToSelect(l.book.holds, c);
    assert Releases([]) == [];
  }

  lemma GiveBackFirst(l: Ledger, s: S.Service, opening: map<int, int>, owner: CheckoutId -> OrderId, c: CheckoutId)
    requires LedgerOk(l, opening) && Alike(l, s, owner) && ReserveKey(c) in l.keys && ReleaseHash(c) !in s.records
    ensures Alike(Local(l, GiveBack(c)), Remote(s, GiveBack(c)), owner)
  {
    var l', s' := Local(l, GiveBack(c)), Remote(s, GiveBack(c));
    GiveBackEnds(l, opening, c);
    EndsAlike(l', l.book, opening, InGroup(c), Released);
    assert s'.records == s.records[ReleaseHash(c) := s'.records[ReleaseHash(c)]];
    assert Settled(l'.book, c);
    forall d ensures ReservedAlike(l', s', d) && SoldAlike(l', s', d, owner(d)) && ReleasedAlike(l', s', d) {
      assert ReservedAlike(l, s, d) && SoldAlike(l, s, d, owner(d)) && ReleasedAlike(l, s, d);
      EndingSellsNothing(l, l', InGroup(c), Released, d);
      GroupKeeps(l, l', s, S.Service(l'.book, s.records), d, owner(d));
    }
  }

  lemma LapseAlike(l: Ledger, s: S.Service, opening: map<int, int>, owner: CheckoutId -> OrderId, now: int)
    requires LedgerOk(l, opening) && Alike(l, s, owner)
    ensures Alike(Local(l, Lapse(now)), Remote(s, Lapse(now)), owner)
  {
    var l', s' := Local(l, Lapse(now)), Remote(s, Lapse(now));
    LapseEnds(l, opening, now);
    EndsAlike(l', l.book, opening, Overdue(now), Expired);
    forall d ensures ReservedAlike(l', s', d) && SoldAlike(l', s', d, owner(d)) && ReleasedAlike(l', s', d) {
      assert ReservedAlike(l, s, d) && SoldAlike(l, s, d, owner(d)) && ReleasedAlike(l, s, d);
      EndingSellsNothing(l, l', Overdue(now), Expired, d);
      GroupKeeps(l, l', s, s', d, owner(d));
    }
  }

  // ------------------------------------------------------------ adjusting

  function AdjustHash(op: Op): S.HashKey
    requires op.Correct?
  {
    S.HashKey(S.AdjustRoute, S.OfBody(AdjustmentOf(op.variant, op.delta, op.reason, op.ref)))
  }

  /** A first adjustment that is no return of an order: both sides apply it, or both refuse it. */
  lemma CorrectEffects(l: Ledger, s: S.Service, op: Op)
    requires s.book == l.book && op.Correct? && AdjustHash(op) !in s.records && !(op.reason == Return && op.ref.Some?)
    ensures Remote(s, op).book == Local(l, op).book && Local(l, op).keys == l.keys && Local(l, op).book.holds == l.book.holds
    ensures forall k :: k != AdjustHash(op) ==>
              (k in Remote(s, op).records <==> k in s.records) && (k in s.records ==> Remote(s, op).records[k] == s.records[k])
    ensures Attempt(l, Adjust(op.variant, op.delta, op.reason, op.ref)).Ok?
       <==> S.Handle(s, RequestFor(op), 0).1.status < 400
  {}

  lemma CorrectAlike(l: Ledger, s: S.Service, opening: map<int, int>, owner: CheckoutId -> OrderId, op: Op)
    requires LedgerOk(l, opening) && Alike(l, s, owner) && op.Correct? && AdjustHash(op) !in s.records && Tame(l, op, owner)
    ensures Alike(Local(l, op), Remote(s, op), owner)
  {
    var l', s' := Local(l, op), Remote(s, op);
    CorrectEffects(l, s, op);
    StepKeeps(l, opening, Adjust(op.variant, op.delta, op.reason, op.ref));
    forall d ensures ReservedAlike(l', s', d) && SoldAlike(l', s', d, owner(d)) && ReleasedAlike(l', s', d) {
      assert ReservedAlike(l, s, d) && SoldAlike(l, s, d, owner(d)) && ReleasedAlike(l, s, d);
      GroupKeeps(l, l', s, s', d, owner(d));
    }
  }

  // ------------------------------------------------------------ every step, every run

  /** One call keeps the two ledgers alike. */
  lemma StepAlike(l: Ledger, s: S.Service, opening: map<int, int>, owner: CheckoutId -> OrderId, op: Op)
    requires LedgerOk(l, opening) && Alike(l, s, owner) && Tame(l, op, owner)
    requires op.Correct? ==> AdjustHash(op) !in s.records
    ensures Alike(Local(l, op), Remote(s, op), owner)
  {
    match op
    case Secure(c, _, _, _) =>
      if ReserveKey(c) in l.keys || !S.Validated(RequestFor(op).body) {
        SecureIdle(l, s, opening, owner, op);
      } else {
        SecureFresh(l, s, opening, owner, op);
      }
    case Sell(c, o) =>
      assert SoldAlike(l, s, c, owner(c));
      if CommitHash(c) in s.records {
        SellReplay(l, s, opening, owner, c);
      } else {
        SellFirst(l, s, opening, owner, c);
      }
    case GiveBack(c) =>
      assert ReleasedAlike(l, s, c);
      if ReleaseHash(c) in s.records {
        GiveBackReplay(l, s, c);
      } else {
        GiveBackFirst(l, s, opening, owner, c);
      }
    case Lapse(now) => LapseAlike(l, s, opening, owner, now);
    case Correct(_, _, _, _) => CorrectAlike(l, s, opening, owner, op);
  }

  lemma LocalKeeps(l: Ledger, opening: map<int, int>, op: Op)
    requires LedgerOk(l, opening)
    ensures LedgerOk(Local(l, op), opening)
  {
    match op
    case Secure(c, lines, ttl, now) => StepKeeps(l, opening, Reserve(c, lines, now + 60 * Ttl(ttl)));
    case Sell(c, o) => StepKeeps(l, opening, Commit(c, Some(o)));
    case GiveBack(c) => RunKeeps(l, opening, Releases(S.ActiveRows(l.book.holds, InGroup(c))));
    case Lapse(now) => RunKeeps(l, opening, Expiries(S.ActiveRows(l.book.holds, Overdue(now)), now));
    case Correct(v, d, r, o) => StepKeeps(l, opening, Adjust(v, d, r, o));
  }

  function LocalRun(opening: map<int, int>, ops: seq<Op>): Ledger {
    if ops == [] then Opened(opening) else Local(LocalRun(opening, ops[..|ops| - 1]), ops[|ops| - 1])
  }

  function RemoteRun(opening: map<int, int>, ops: seq<Op>): S.Service {
    if ops == [] then S.Service(Opened(opening).book, map[])
    else Remote(RemoteRun(opening, ops[..|ops| - 1]), ops[|ops| - 1])
  }

  /**
   * Every id is reserved before it is first sold or given back, is sold to one order,
   * no adjustment repeats an earlier one, and none is a return that names an order.
   */
  ghost predicate TameRun(opening: map<int, int>, ops: seq<Op>, owner: CheckoutId -> OrderId) {
    && (forall n :: 0 <= n < |ops| ==> Tame(LocalRun(opening, ops[..n]), ops[n], owner))
    && (forall m, n :: 0 <= m < n < |ops| && ops[m].Correct? ==> ops[m] != ops[n])
  }

  /**
   * A run can go on with any reserve or sweep, with the sale of a reserved id to its order or its
   * return, and with any adjustment that is new and no return of an order; with nothing else.
   */
  lemma TameSnoc(opening: map<int, int>, ops: seq<Op>, op: Op, owner: CheckoutId -> OrderId)
    ensures TameRun(opening, ops + [op], owner) <==>
              && TameRun(opening, ops, owner)
              && match op
                 case Secure(_, _, _, _) => true
                 case Sell(c, o) => ReserveKey(c) in LocalRun(opening, ops).keys && o == owner(c)
                 case GiveBack(c) => ReserveKey(c) in LocalRun(opening, ops).keys
                 case Lapse(_) => true
                 case Correct(_, _, r, ref) => (r != Return || ref == None) && op !in ops
  {
    var all := ops + [op];
    assert all[..|ops|] == ops && all[|ops|] == op;
    if TameRun(opening, all, owner) {
      TamePrefix(opening, all, owner, |ops|);
      assert Tame(LocalRun(opening, all[..|ops|]), all[|ops|], owner);
      forall n | 0 <= n < |ops| && op.Correct? ensures ops[n] != op {
        assert all[n] != all[|ops|];
      }
    } else if TameRun(opening, ops, owner) {
      TamePrefixes(opening, ops, op, owner);
    }
  }

  lemma TamePrefixes(opening: map<int, int>, ops: seq<Op>, op: Op, owner: CheckoutId -> OrderId)
    requires TameRun(opening, ops, owner)
    ensures TameRun(opening, ops + [op], owner) <==>
              Tame(LocalRun(opening, ops), op, owner) && (op.Correct? ==> op !in ops)
  {
    var all := ops + [op];
    assert all[..|ops|] == ops;
    forall n | 0 <= n < |ops| ensures all[..n] == ops[..n] && all[n] == ops[n] {}
    if op.Correct? && op in ops {
      var n :| 0 <= n < |ops| && ops[n] == op;
      assert all[n] == all[|ops|];
    }
  }

  /** An adjustment's key is recorded only if that adjustment was asked for. */
  lemma OnlyAskedAreRecorded(s: S.Service, op: Op, k: S.HashKey)
    requires k.route == S.AdjustRoute && k !in s.records && k in Remote(s, op).records
    ensures op.Correct? && k == AdjustHash(op)
  {
    if op.Lapse? {
      LapseRecordsNothing(s, op);
    } else {
      RemoteIsHandle(s, op);
      S.HandleRecords(s, RequestFor(op), NowOf(op));
    }
  }

  lemma LapseRecordsNothing(s: S.Service, op: Op)
    requires op.Lapse?
    ensures Remote(s, op).records == s.records
  {}

  lemma RemoteIsHandle(s: S.Service, op: Op)
    requires !op.Lapse?
    ensures Remote(s, op) == S.Handle(s, RequestFor(op), NowOf(op)).0
  {}

  lemma {:induction false} UnaskedIsUnrecorded(opening: map<int, int>, ops: seq<Op>, op: Op)
    requires op.Correct? && forall n :: 0 <= n < |ops| ==> ops[n] != op
    ensures AdjustHash(op) !in RemoteRun(opening, ops).records
  {
    if ops != [] {
      var n := |ops| - 1;
      UnaskedIsUnrecorded(opening, ops[..n], op);
      if AdjustHash(op) in RemoteRun(opening, ops).records {
        OnlyAskedAreRecorded(RemoteRun(opening, ops[..n]), ops[n], AdjustHash(op));
      }
    }
  }

  lemma TamePrefix(opening: map<int, int>, ops: seq<Op>, owner: CheckoutId -> OrderId, n: nat)
    requires TameRun(opening, ops, owner) && n <= |ops|
    ensures TameRun(opening, ops[..n], owner)
  {
    forall k | 0 <= k < n ensures Tame(LocalRun(opening, ops[..n][..k]), ops[..n][k], owner) {
      assert ops[..n][..k] == ops[..k];
    }
  }

  lemma StartAlike(opening: map<int, int>, owner: CheckoutId -> OrderId)
    ensures Alike(Opened(opening), S.Service(Opened(opening).book, map[]), owner)
  {}

  lemma {:induction false} RunAlike(opening: map<int, int>, ops: seq<Op>, owner: CheckoutId -> OrderId)
    requires (forall v :: v in opening ==> opening[v] >= 0) && TameRun(opening, ops, owner)
    ensures Alike(LocalRun(opening, ops), RemoteRun(opening, ops), owner)
    ensures LedgerOk(LocalRun(opening, ops), opening)
  {
    if ops == [] {
      StartAlike(opening, owner);
      OpenedOk(opening);
    } else {
      var n := |ops| - 1;
      TamePrefix(opening, ops, owner, n);
      RunAlike(opening, ops[..n], owner);
      if ops[n].Correct? {
        UnaskedIsUnrecorded(opening, ops[..n], ops[n]);
      }
      StepAlike(LocalRun(opening, ops[..n]), RemoteRun(opening, ops[..n]), opening, owner, ops[n]);
      LocalKeeps(LocalRun(opening, ops[..n]), opening, ops[n]);
    }
  }

  /**
   * On every such run the two ledgers hold the same counters, the same rows and the
   * same audit trail, and a commit of any reserved id reports the same totals.
   */
  lemma TwoLedgersOneMeaning(opening: map<int, int>, ops: seq<Op>, owner: CheckoutId -> OrderId, c: CheckoutId)
    requires (forall v :: v in opening ==> opening[v] >= 0) && TameRun(opening, ops, owner)
    ensures RemoteRun(opening, ops).book == LocalRun(opening, ops).book
    ensures ReserveKey(c) in LocalRun(opening, ops).keys ==>
              SellsAlike(LocalRun(opening, ops), RemoteRun(opening, ops), c, owner(c))
  {
    RunAlike(opening, ops, owner);
    var l, s := LocalRun(opening, ops), RemoteRun(opening, ops);
    if ReserveKey(c) in l.keys {
      assert SoldAlike(l, s, c, owner(c));
      if CommitHash(c) in s.records {
        SellReplay(l, s, opening, owner, c);
      } else {
        SellFirst(l, s, opening, owner, c);
      }
    }
  }

  // ------------------------------------------------------------ why the conditions are there

  lemma RunSnocs(opening: map<int, int>, ops: seq<Op>, op: Op)
    ensures LocalRun(opening, ops + [op]) == Local(LocalRun(opening, ops), op)
    ensures RemoteRun(opening, ops + [op]) == Remote(RemoteRun(opening, ops), op)
  {
    assert (ops + [op])[..|ops|] == ops;
  }

  lemma RestockOnce(l: Ledger, v: int, d: int)
    requires d > 0 && v in l.book.stock && l.book.stock[v].reserved <= l.book.stock[v].onHand
    ensures var was := l.book.stock[v];
            Local(l, Correct(v, d, Restock, None)).book.stock == l.book.stock[v := was.(onHand := was.onHand + d)]
  {}

  lemma RestockRecorded(s: S.Service, v: int, d: int)
    requires d > 0 && v in s.book.stock && s.book.stock[v].reserved <= s.book.stock[v].onHand
    requires AdjustHash(Correct(v, d, Restock, None)) !in s.records
    ensures AdjustHash(Correct(v, d, Restock, None)) in Remote(s, Correct(v, d, Restock, None)).records
  {}

  lemma RecordedCorrectionIdle(s: S.Service, op: Op)
    requires op.Correct? && AdjustHash(op) in s.records
    ensures Remote(s, op) == s
  {}

  /** The same correction asked for twice counts twice in process and once remotely. */
  lemma RepeatedCorrectionDiverges(v: int, d: int)
    requires d > 0
    ensures var ops := [Correct(v, d, Restock, None), Correct(v, d, Restock, None)];
            && LocalRun(map[v := 0], ops).book.stock == map[v := Counters(2 * d, 0)]
            && RemoteRun(map[v := 0], ops).book.stock == map[v := Counters(d, 0)]
  {
    var op, opening := Correct(v, d, Restock, None), map[v := 0];
    var l, s := Opened(opening), S.Service(Opened(opening).book, map[]);
    assert l.book.stock == map[v := Counters(0, 0)];
    CorrectEffects(l, s, op);
    RestockOnce(l, v, d);
    RestockRecorded(s, v, d);
    RestockOnce(Local(l, op), v, d);
    RecordedCorrectionIdle(Remote(s, op), op);
    RunSnocs(opening, [], op);
    RunSnocs(opening, [op], op);
    assert [] + [op] == [op] && [op] + [op] == [op, op];
  }

  /** One unit held for a fresh id. */
  lemma SecureOne(l: Ledger, c: CheckoutId, v: int, now: int)
    requires l.book.stock == map[v := Counters(1, 0)] && l.book.holds == [] && ReserveKey(c) !in l.keys
    ensures var b := HoldAll(l.book, c, SortLines([Line(v, 1)]), now + 60 * Ttl(None));
            b.Ok? && b.value.stock == map[v := Counters(1, 1)] && b.value.holds == [Hold(v, 1, Active, c, None, now + 60 * Ttl(None))]
  {
    var x, e := Line(v, 1), now + 60 * Ttl(None);
    assert [x][..0] == [];
    assert SortLines([x]) == [x];
    assert HoldAll(l.book, c, [], e) == Ok(l.book);
    assert HoldAll(l.book, c, [x], e) == PlaceHold(l.book, c, x, e);
  }

  /** Giving back a group whose one hold is active puts its unit back on the shelf. */
  lemma GiveBackOne(l: Ledger, v: int, c: CheckoutId, e: int)
    requires LedgerOk(l, map[v := 1]) && l.book.holds == [Hold(v, 1, Active, c, None, e)] && l.book.moves == []
    ensures Local(l, GiveBack(c)).book.stock == map[v := Counters(1, 0)]
  {
    GiveBackEnds(l, map[v := 1], c);
    var b := Local(l, GiveBack(c)).book;
    TotalSnoc([], b.holds[0], ActiveOf(v));
    assert [] + [b.holds[0]] == b.holds;
    assert Counted(b, map[v := 1]);
    assert b.stock[v] == Counters(1, 0);
  }

  lemma GiveBackUnknown(l: Ledger, s: S.Service, c: CheckoutId)
    requires l.book.holds == [] && s.book == l.book && ReleaseHash(c) !in s.records
    ensures Local(l, GiveBack(c)) == l
    ensures Remote(s, GiveBack(c)) == s.(records := s.records[ReleaseHash(c) := S.Record(S.ReleaseBody, 200, S.ReleasedRows(0))])
  {
    assert Releases([]) == [];
  }

  lemma RecordedGiveBackIdle(s: S.Service, c: CheckoutId)
    requires ReleaseHash(c) in s.records
    ensures Remote(s, GiveBack(c)) == s
  {}

  lemma ThreeOps(a: Op, b: Op, c: Op)
    ensures [] + [a] == [a] && [a] + [b] == [a, b] && [a, b] + [c] == [a, b, c]
  {}

  lemma RunThreeOps(opening: map<int, int>, a: Op, b: Op, c: Op, l1: Ledger, l2: Ledger, s1: S.Service, s2: S.Service)
    requires l1 == Local(Opened(opening), a) && l2 == Local(l1, b)
    requires s1 == Remote(S.Service(Opened(opening).book, map[]), a) && s2 == Remote(s1, b)
    ensures LocalRun(opening, [a, b, c]) == Local(l2, c) && RemoteRun(opening, [a, b, c]) == Remote(s2, c)
  {
    ThreeOps(a, b, c);
    RunSnocs(opening, [], a);
    RunSnocs(opening, [a], b);
    RunSnocs(opening, [a, b], c);
  }

  /** A fresh hold that can be placed is placed on both sides, and no key is forgotten. */
  lemma SecuredAlike(l: Ledger, s: S.Service, op: Op, b: Book)
    requires s.book == l.book && op.Secure? && S.Validated(RequestFor(op).body)
    requires ReserveHash(op.checkout) !in s.records && ReserveKey(op.checkout) !in l.keys
    requires HoldAll(l.book, op.checkout, SortLines(op.lines), ExpiryOf(op)) == Ok(b)
    ensures Local(l, op).book == b && Remote(s, op).book == b
    ensures forall k :: k in s.records ==> k in Remote(s, op).records
  {
    SecureEffects(l, s, op);
  }

  lemma OpenedStock(v: int)
    ensures Opened(map[v := 1]).book.stock == map[v := Counters(1, 0)]
  {}

  /** Reserved after an early release: held alike on both sides, with the release key recorded remotely. */
  lemma HeldAfterEarlyRelease(l: Ledger, s1: S.Service, opening: map<int, int>, c: CheckoutId, v: int, now: int)
    requires opening == map[v := 1] && l == Opened(opening) && s1.book == l.book && ReleaseHash(c) in s1.records
    requires ReserveHash(c) !in s1.records && c != Blank
    ensures var hold := Secure(c, [Line(v, 1)], None, now);
            var l2, s2 := Local(l, hold), Remote(s1, hold);
            && LedgerOk(l2, opening) && l2.book.moves == [] && s2.book.stock == map[v := Counters(1, 1)]
            && l2.book.holds == [Hold(v, 1, Active, c, None, now + 60 * Ttl(None))] && ReleaseHash(c) in s2.records
  {
    var hold := Secure(c, [Line(v, 1)], None, now);
    OpenedStock(v);
    SecureOne(l, c, v, now);
    SecuredAlike(l, s1, hold, HoldAll(l.book, c, SortLines([Line(v, 1)]), now + 60 * Ttl(None)).value);
    OpenedOk(opening);
    LocalKeeps(l, opening, hold);
    HoldAllHeld(l.book, opening, c, SortLines([Line(v, 1)]), now + 60 * Ttl(None));
  }

  /** An id given back before it is reserved keeps its later hold remotely and loses it in process. */
  lemma EarlyGiveBackDiverges(v: int, now: int)
    ensures var ops := [GiveBack(Minted(0)), Secure(Minted(0), [Line(v, 1)], None, now), GiveBack(Minted(0))];
            && LocalRun(map[v := 1], ops).book.stock == map[v := Counters(1, 0)]
            && RemoteRun(map[v := 1], ops).book.stock == map[v := Counters(1, 1)]
  {
    var c, opening := Minted(0), map[v := 1];
    var early, hold := GiveBack(c), Secure(c, [Line(v, 1)], None, now);
    var l, s := Opened(opening), S.Service(Opened(opening).book, map[]);
    GiveBackUnknown(l, s, c);
    var s1 := Remote(s, early);
    HeldAfterEarlyRelease(l, s1, opening, c, v, now);
    var l2, s2 := Local(l, hold), Remote(s1, hold);
    GiveBackOne(l2, v, c, now + 60 * Ttl(None));
    RecordedGiveBackIdle(s2, c);
    RunThreeOps(opening, early, hold, early, l, l2, s1, s2);
  }
}
