/**
 * What the remote ledger answers and does, request by request (services/inventory/api.py,
 * services/inventory/idempotency.py): refusals before any work, and over a sound book the exact
 * effect and reply of each route.
 */
module ServiceAnswers {
  import opened Wrappers
  import opened Lines
  import opened Books
  import opened Ledgers
  import LocalProvider
  import opened Services
  import TwoLedgers

  // ------------------------------------------------------------ before any work

  /** A reserve that its schema lets through. */
  predicate Formed(body: Body) {
    !body.ReserveBody?
    || (body.checkout != Blank && |body.lines| >= 1 && forall i :: 0 <= i < |body.lines| ==> 1 <= body.lines[i].qty)
  }

  /** The route and the key a request goes by: its header's, or its handler's own for the id in its body or its path. */
  function Guard(r: Request): Option<HashKey> {
    match r.body
    case ReserveBody(c, _, _) => Some(HashKey(ReserveRoute, if r.header.Some? then r.header.value else OfCheckout(c)))
    case CommitBody(_) => Some(HashKey(CommitRoute, if r.header.Some? then r.header.value else OfCommit(r.path)))
    case ReleaseBody => Some(HashKey(ReleaseRoute, if r.header.Some? then r.header.value else OfRelease(r.path)))
    case AdjustBody(_, _, _, _) => if r.header.Some? then Some(HashKey(AdjustRoute, r.header.value)) else None
  }

  /** Refused before any work, and nothing changes. */
  lemma RefusedAtOnce(s: Service, r: Request, now: int)
    ensures !Formed(r.body) ==> Handle(s, r, now) == (s, Answer(422, Refusal(Invalid)))
    ensures Formed(r.body) && r.body.AdjustBody? && r.header.None? ==> Handle(s, r, now) == (s, Answer(400, Refusal(KeyRequired)))
    ensures Formed(r.body) && Guard(r).Some? && Guard(r).value in s.records ==>
              var was := s.records[Guard(r).value];
              Handle(s, r, now) == (s, if was.fingerprint != r.body then Answer(422, Refusal(KeyReuse))
                                       else if was.status == 0 then Answer(409, Refusal(InProgress))
                                       else Answer(was.status, was.reply))
  {}

  /** A request under a new key is served, and exactly a success is recorded, under that key, with what it answered. */
  lemma ServedOnce(s: Service, r: Request, now: int)
    requires Formed(r.body) && Guard(r).Some? && Guard(r).value !in s.records
    ensures var served := match r.body
                          case ReserveBody(c, lines, ttl) =>
                            ServeReserve(s.book, c, lines, now + 60 * if ttl in {None, Some(0)} then 15 else ttl.value)
                          case CommitBody(order) => ServeCommit(s.book, r.path, order)
                          case ReleaseBody => ServeRelease(s.book, r.path)
                          case AdjustBody(v, d, reason, order) => ServeAdjust(s.book, v, d, reason, order);
            match served
            case Err(a) => Handle(s, r, now) == (s, a)
            case Ok((b, reply)) =>
              var status := if r.body.ReserveBody? then 201 else 200;
              Handle(s, r, now) == (Service(b, s.records[Guard(r).value := Record(r.body, status, reply)]), Answer(status, reply))
  {
    match r.body
    case ReserveBody(c, lines, ttl) => assert Ttl(ttl) == if ttl in {None, Some(0)} then 15 else ttl.value;
    case _ =>
  }

  // ------------------------------------------------------------ reserving

  /** Over a sound book a reserve is granted exactly when its summed demand fits, and then names the rows it added. */
  lemma ReserveGranted(b: Book, opening: map<int, int>, c: CheckoutId, lines: seq<Line>, e: int)
    requires BookOk(b, opening)
    ensures ServeReserve(b, c, lines, e).Ok? <==> Fits(b, lines)
    ensures ServeReserve(b, c, lines, e).Ok? ==>
              var (after, reply) := ServeReserve(b, c, lines, e).value;
              && reply.HeldRows? && LocalProvider.RowsAdded(b.holds, after.holds, c, SortLines(lines), e, reply.pks)
              && after.moves == b.moves && ReservedMore(b, lines, after)
  {
    var sorted := SortLines(lines);
    SortedFits(b, lines);
    HoldAllHeld(b, opening, c, sorted, e);
    SortAscending(lines);
    if HoldAll(b, c, sorted, e).Ok? {
      LocalProvider.AddedRows(b, c, sorted, e);
      SameReservedMore(b, lines, HoldAll(b, c, sorted, e).value);
    }
  }

  /** Otherwise it answers for the first line, in variant order, that does not fit. */
  lemma ReserveDenied(b: Book, opening: map<int, int>, c: CheckoutId, lines: seq<Line>, e: int) returns (k: nat)
    requires BookOk(b, opening) && ServeReserve(b, c, lines, e).Err?
    requires forall i :: 0 <= i < |lines| ==> lines[i].qty >= 1
    ensures var sorted := SortLines(lines);
            && k < |sorted| && Fits(b, sorted[..k]) && !Fits(b, sorted[..k + 1])
            && ServeReserve(b, c, lines, e).error
               == if sorted[k].variant in b.stock then Answer(409, Refusal(Insufficient)) else Answer(404, Refusal(NoSuchVariant))
  {
    var sorted := SortLines(lines);
    k := HoldAllRefused(b, opening, c, sorted, e);
    SortMultiset(lines);
    assert sorted[k] in multiset(sorted);
    assert sorted[k] in lines;
  }

  // ------------------------------------------------------------ the rows a handler locks

  /** Row `i` is locked before row `j`: by variant and, where variants are equal, by primary key. */
  predicate Before(holds: seq<Hold>, i: nat, j: nat) {
    && i < |holds| && j < |holds|
    && (holds[i].variant < holds[j].variant || (holds[i].variant == holds[j].variant && i < j))
  }

  ghost predicate InOrder(holds: seq<Hold>, pks: seq<nat>) {
    && (forall k :: 0 <= k < |pks| ==> pks[k] < |holds|)
    && forall j, k :: 0 <= j < k < |pks| ==> Before(holds, pks[j], pks[k])
  }

  lemma InOrderSnoc(holds: seq<Hold>, pks: seq<nat>, pk: nat)
    requires InOrder(holds, pks) && pk < |holds| && forall q :: q in pks ==> Before(holds, q, pk)
    ensures InOrder(holds, pks + [pk])
  {}

  lemma InOrderDistinct(holds: seq<Hold>, pks: seq<nat>)
    requires InOrder(holds, pks)
    ensures TwoLedgers.Distinct(pks)
  {}

  /** In ordered rows everything comes before the last. */
  lemma BeforeLast(holds: seq<Hold>, init: seq<nat>, last: nat, q: nat)
    requires InOrder(holds, init + [last]) && q in init
    ensures Before(holds, q, last)
  {
    var all := init + [last];
    var k :| 0 <= k < |init| && init[k] == q;
    assert all[k] == q && all[|init|] == last;
  }

  lemma {:induction false} InsertRowOrder(holds: seq<Hold>, sorted: seq<nat>, pk: nat)
    requires InOrder(holds, sorted) && pk < |holds| && forall q :: q in sorted ==> q < pk
    ensures InOrder(holds, InsertRow(holds, sorted, pk))
    decreases |sorted|, 0
  {
    if sorted == [] {
      InOrderSnoc(holds, sorted, pk);
    } else {
      var init, last := sorted[..|sorted| - 1], sorted[|sorted| - 1];
      assert sorted == init + [last];
      if holds[last].variant <= holds[pk].variant {
        forall q | q in sorted ensures Before(holds, q, pk) {
          if q in init {
            BeforeLast(holds, init, last, q);
          }
        }
        InOrderSnoc(holds, sorted, pk);
      } else {
        InsertedBefore(holds, init, last, pk);
      }
    }
  }

  /** A row of a smaller variant goes in before the last row. */
  lemma InsertedBefore(holds: seq<Hold>, init: seq<nat>, last: nat, pk: nat)
    requires InOrder(holds, init + [last]) && pk < |holds| && last < |holds| && holds[pk].variant < holds[last].variant
    requires forall q :: q in init + [last] ==> q < pk
    ensures InOrder(holds, init) && InOrder(holds, InsertRow(holds, init, pk) + [last])
    decreases |init|, 1
  {
    assert forall k :: 0 <= k < |init| ==> (init + [last])[k] == init[k];
    assert forall q :: q in init ==> q in init + [last];
    InsertRowOrder(holds, init, pk);
    InOrderDistinct(holds, init);
    TwoLedgers.InsertRowKeeps(holds, init, pk);
    forall q | q in InsertRow(holds, init, pk) ensures Before(holds, q, last) {
      if q in init {
        BeforeLast(holds, init, last, q);
      }
    }
    InOrderSnoc(holds, InsertRow(holds, init, pk), last);
  }

  lemma {:induction false} ByVariantOrder(holds: seq<Hold>, pks: seq<nat>)
    requires (forall k :: 0 <= k < |pks| ==> pks[k] < |holds|) && forall j, k :: 0 <= j < k < |pks| ==> pks[j] < pks[k]
    ensures InOrder(holds, ByVariant(holds, pks))
  {
    if pks != [] {
      var n := |pks| - 1;
      ByVariantOrder(holds, pks[..n]);
      TwoLedgers.ByVariantKeeps(holds, pks[..n]);
      InsertRowOrder(holds, ByVariant(holds, pks[..n]), pks[n]);
    }
  }

  /** A handler locks exactly the active rows it asks for, each once, in the one order. */
  lemma SelectedExactly(holds: seq<Hold>, select: Hold -> bool)
    ensures InOrder(holds, Selected(holds, select))
    ensures forall i: nat :: i in Selected(holds, select) <==> i < |holds| && holds[i].status == Active && select(holds[i])
  {
    var pks := ActiveRows(holds, select);
    TwoLedgers.ActiveRowsPicked(holds, select);
    ByVariantOrder(holds, pks);
    TwoLedgers.ByVariantKeeps(holds, pks);
    forall i: nat ensures i in pks <==> i < |holds| && holds[i].status == Active && select(holds[i]) {
      if i in pks {
        var k :| 0 <= k < |pks| && pks[k] == i;
      }
    }
  }

  // ------------------------------------------------------------ selling

  /** These rows became sales to the order, and no other row changed. */
  ghost predicate RowsSold(was: seq<Hold>, now: seq<Hold>, pks: seq<nat>, order: Option<OrderId>) {
    && |now| == |was|
    && forall i :: 0 <= i < |was| ==> now[i] == if i in pks then was[i].(status := Committed, order := order) else was[i]
  }

  lemma RowsSoldMore(was: seq<Hold>, now: seq<Hold>, pks: seq<nat>, pk: nat, order: Option<OrderId>)
    requires RowsSold(was, now, pks, order) && pk < |was| && pk !in pks
    ensures now[pk] == was[pk]
    ensures RowsSold(was, now[pk := now[pk].(status := Committed, order := order)], pks + [pk], order)
  {}

  /** Selling active rows of a sound book, each once, succeeds, keeps it sound and sells exactly them. */
  lemma {:induction false} SellsExactly(b: Book, opening: map<int, int>, pks: seq<nat>, order: Option<OrderId>)
    requires BookOk(b, opening) && TwoLedgers.Distinct(pks)
    requires forall k :: 0 <= k < |pks| ==> pks[k] < |b.holds| && b.holds[pks[k]].status == Active
    ensures SellRows(b, pks, order).Ok?
    ensures var after := SellRows(b, pks, order).value;
            BookOk(after, opening) && RowsSold(b.holds, after.holds, pks, order)
  {
    if pks != [] {
      var n := |pks| - 1;
      assert pks == pks[..n] + [pks[n]];
      SellsExactly(b, opening, pks[..n], order);
      var mid := SellRows(b, pks[..n], order).value;
      RowsSoldMore(b.holds, mid.holds, pks[..n], pks[n], order);
      SellsOne(mid, opening, pks[n], order);
    }
  }

  lemma SellsOne(b: Book, opening: map<int, int>, pk: nat, order: Option<OrderId>)
    requires BookOk(b, opening) && pk < |b.holds| && b.holds[pk].status == Active
    ensures SellRow(b, pk, order).Ok?
    ensures BookOk(SellRow(b, pk, order).value, opening)
    ensures SellRow(b, pk, order).value.holds == b.holds[pk := b.holds[pk].(status := Committed, order := order)]
  {
    GuardsNeverFire(b, opening, pk, order, Released);
    TwoLedgers.SameSale(b, pk, order);
    CommitHoldKeeps(b, opening, pk, order);
  }

  lemma LockedActive(holds: seq<Hold>, c: CheckoutId)
    ensures var pks := Selected(holds, InGroup(c));
            && TwoLedgers.Distinct(pks) && (forall k :: 0 <= k < |pks| ==> holds[pks[k]].status == Active)
            && forall i: nat :: i in pks <==> i < |holds| && holds[i].status == Active && holds[i].checkout == c
  {
    var pks := Selected(holds, InGroup(c));
    SelectedExactly(holds, InGroup(c));
    InOrderDistinct(holds, pks);
    forall k | 0 <= k < |pks| ensures holds[pks[k]].status == Active {
      assert pks[k] in pks;
    }
  }

  /** The group's active rows became sales to the order, and no other row changed. */
  ghost predicate GroupSold(was: seq<Hold>, now: seq<Hold>, c: CheckoutId, order: Option<OrderId>) {
    && |now| == |was|
    && forall i :: 0 <= i < |was| ==>
         now[i] == if was[i].checkout == c && was[i].status == Active then was[i].(status := Committed, order := order) else was[i]
  }

  lemma LockedSold(was: seq<Hold>, now: seq<Hold>, c: CheckoutId, pks: seq<nat>, order: Option<OrderId>)
    requires RowsSold(was, now, pks, order)
    requires forall i: nat :: i in pks <==> i < |was| && was[i].status == Active && was[i].checkout == c
    ensures GroupSold(was, now, c, order)
  {}

  /** The lines of these rows, row by row. */
  ghost predicate ReportsLines(holds: seq<Hold>, pks: seq<nat>, lines: seq<Line>) {
    && |lines| == |pks|
    && forall k :: 0 <= k < |pks| && pks[k] < |holds| ==> lines[k] == Line(holds[pks[k]].variant, holds[pks[k]].qty)
  }

  lemma RowsReported(holds: seq<Hold>, pks: seq<nat>)
    requires forall k :: 0 <= k < |pks| ==> pks[k] < |holds|
    ensures ReportsLines(holds, pks, RowLines(holds, pks))
  {}

  /**
   * Over a sound book a commit never fails: it sells exactly the group's active rows to the
   * order, and reports their lines in the order it locked them.
   */
  lemma CommitAnswers(b: Book, opening: map<int, int>, c: CheckoutId, order: Option<OrderId>)
    requires BookOk(b, opening)
    ensures ServeCommit(b, c, order).Ok?
    ensures var (after, reply) := ServeCommit(b, c, order).value;
            && BookOk(after, opening) && GroupSold(b.holds, after.holds, c, order)
            && reply.SoldRows? && ReportsLines(b.holds, Selected(b.holds, InGroup(c)), reply.lines)
  {
    var pks := Selected(b.holds, InGroup(c));
    LockedActive(b.holds, c);
    SellsExactly(b, opening, pks, order);
    var after := SellRows(b, pks, order).value;
    assert ServeCommit(b, c, order) == Ok((after, SoldRows(RowLines(b.holds, pks))));
    LockedSold(b.holds, after.holds, c, pks, order);
    RowsReported(b.holds, pks);
  }

  // ------------------------------------------------------------ giving back

  /** Over a sound book a release never fails: it releases exactly the group's active rows, and says how many. */
  lemma ReleaseAnswers(b: Book, opening: map<int, int>, c: CheckoutId)
    requires BookOk(b, opening)
    ensures ServeRelease(b, c).Ok?
    ensures var (after, reply) := ServeRelease(b, c).value;
            && BookOk(after, opening) && after.moves == b.moves && |after.holds| == |b.holds|
            && (forall i :: 0 <= i < |b.holds| ==>
                  var h := b.holds[i];
                  after.holds[i] == if h.checkout == c && h.status == Active then h.(status := Released) else h)
            && reply == ReleasedRows(|Selected(b.holds, InGroup(c))|)
  {
    TwoLedgers.SelectedEnds(b, opening, InGroup(c), Released);
  }

  /** Over a sound book the sweep never fails: it expires exactly the active rows whose time is up, and records nothing. */
  lemma SweepExpires(s: Service, opening: map<int, int>, now: int)
    requires BookOk(s.book, opening)
    ensures var after := Sweep(s, now);
            && after.records == s.records && BookOk(after.book, opening) && after.book.moves == s.book.moves
            && |after.book.holds| == |s.book.holds|
            && forall i :: 0 <= i < |s.book.holds| ==>
                 var h := s.book.holds[i];
                 after.book.holds[i] == if h.status == Active && h.expiresAt <= now then h.(status := Expired) else h
  {
    TwoLedgers.SelectedEnds(s.book, opening, Overdue(now), Expired);
  }

  // ------------------------------------------------------------ over any traffic

  lemma AdjustKeeps(b: Book, opening: map<int, int>, v: int, delta: int, reason: Option<Reason>, order: Option<OrderId>)
    requires BookOk(b, opening) && ServeAdjust(b, v, delta, reason, order).Ok?
    ensures BookOk(ServeAdjust(b, v, delta, reason, order).value.0, opening)
  {
    var d := Clamped(b, v, delta, reason.value, order);
    if d == 0 {
      assert ServeAdjust(b, v, delta, reason, order).value.0 == b;
    } else {
      AdjustStockKeeps(b, opening, v, d, reason.value, order);
    }
  }

  lemma ServeKeeps(b: Book, opening: map<int, int>, r: Request, now: int)
    requires BookOk(b, opening) && Serve(b, r, now).Ok?
    ensures BookOk(Serve(b, r, now).value.0, opening)
  {
    match r.body
    case ReserveBody(c, lines, ttl) => HoldAllKeeps(b, opening, c, SortLines(lines), now + 60 * Ttl(ttl));
    case CommitBody(order) => CommitAnswers(b, opening, r.path, order);
    case ReleaseBody => ReleaseAnswers(b, opening, r.path);
    case AdjustBody(v, d, reason, order) => AdjustKeeps(b, opening, v, d, reason, order);
  }

  /**
   * Over any traffic the remote ledger stays as sound as the in-process one: its counters agree
   * with its rows and its trail, sales match committed rows one to one, nothing is oversold,
   * and no guard can fire.
   */
  lemma {:induction false} TrafficIsSound(opening: map<int, int>, events: seq<Event>)
    requires forall v :: v in opening ==> opening[v] >= 0
    ensures var b := Services.Run(Service(Opened(opening).book, map[]), events).book;
            BookOk(b, opening) && NeverOversold(b, opening) && HoldsCovered(b)
  {
    var start := Service(Opened(opening).book, map[]);
    OpenedOk(opening);
    if events != [] {
      var before, e := Services.Run(start, events[..|events| - 1]), events[|events| - 1];
      TrafficIsSound(opening, events[..|events| - 1]);
      match e
      case Tick(now) => SweepExpires(before, opening, now);
      case Ask(r, now) =>
        if Serve(before.book, r, now).Ok? {
          ServeKeeps(before.book, opening, r, now);
        }
    }
    SoundBook(Services.Run(start, events).book, opening);
  }
}
