/**
 * The transactional outbox's drainer (apps/orders/outbox.py): claims due rows, bumps
 * their attempts, and delivers them outside the claim. Times are seconds; the jitter
 * is any number from 0 up to 1.
 */
module Outbox {
  import opened Wrappers
  import opened Totals

  const MAX_ATTEMPTS := 8
  const BACKOFF_CAP_SECONDS := 300

  datatype State = Pending | Sent | Dead

  datatype Row = Row(topic: string, state: State, attempts: nat, due: real)

  /** What a handler does; a crash takes the drainer down with it. */
  datatype Behaviour = Returns | Raises(jitter: real) | Crashes

  predicate Jittered(h: Behaviour) { h.Raises? ==> 0.0 <= h.jitter < 1.0 }

  function Power2(n: nat): nat { if n == 0 then 1 else 2 * Power2(n - 1) }

  /** `_backoff_seconds` */
  function Backoff(attempts: nat, jitter: real): real {
    (if Power2(attempts) <= BACKOFF_CAP_SECONDS then Power2(attempts) else BACKOFF_CAP_SECONDS) as real * (0.5 + jitter)
  }

  predicate Due(row: Row, now: real) { row.state == Pending && row.due <= now }

  /** The ids of due rows in order, at most `limit` of them. */
  function Claimed(rows: seq<Row>, now: real, limit: nat): (ids: seq<nat>)
    ensures |ids| <= limit
    ensures forall k :: 0 <= k < |ids| ==> ids[k] < |rows| && Due(rows[ids[k]], now)
    ensures forall j, k :: 0 <= j < k < |ids| ==> ids[j] < ids[k]
  {
    if rows == [] then []
    else
      var n := |rows| - 1;
      var ids := Claimed(rows[..n], now, limit);
      assert forall k :: 0 <= k < |ids| ==> rows[..n][ids[k]] == rows[ids[k]];
      if |ids| < limit && Due(rows[n], now) then ids + [n] else ids
  }

  function Bumped(row: Row): Row { row.(attempts := row.attempts + 1) }

  /** `_deliver_one` on a claimed row, whose attempts are already bumped. */
  function Delivered(row: Row, registered: set<string>, h: Behaviour, now: real): Row {
    if row.topic !in registered then row.(state := Dead)
    else
      match h
      case Returns => row.(state := Sent)
      case Raises(jitter) =>
        if row.attempts >= MAX_ATTEMPTS then row.(state := Dead) else row.(due := now + Backoff(row.attempts, jitter))
      case Crashes => row
  }

  /** One drainer's view of one row over a whole drain. */
  function Attempted(row: Row, registered: set<string>, h: Behaviour, now: real): Row {
    Delivered(Bumped(row), registered, h, now)
  }

  // ------------------------------------------------------------ the drainer

  /** The row's handler, when there is one, does not take the drainer down. */
  predicate Survives(row: Row, registered: set<string>, h: Behaviour) { row.topic !in registered || !h.Crashes? }

  class Drainer {
    var rows: seq<Row>
    const registered: set<string>

    constructor (registered: set<string>)
      ensures this.registered == registered && rows == []
    {
      this.registered := registered;
      rows := [];
    }

    /** `enqueue`: due at once. */
    method Enqueue(topic: string, now: real) returns (id: nat)
      modifies this
      ensures id == |old(rows)| && rows == old(rows) + [Row(topic, Pending, 0, now)]
    {
      id := |rows|;
      rows := rows + [Row(topic, Pending, 0, now)];
    }

    /** The claim: the due rows, each with one attempt more. */
    method Claim(now: real, limit: nat) returns (ids: seq<nat>)
      modifies this
      ensures ids == Claimed(old(rows), now, limit) && |rows| == |old(rows)|
      ensures forall i :: 0 <= i < |rows| ==> rows[i] == if i in ids then Bumped(old(rows)[i]) else old(rows)[i]
      ensures FirstDue(old(rows), now, limit, ids)
      ensures forall k :: 0 <= k < |ids| ==>
                rows[ids[k]] == old(rows)[ids[k]].(attempts := old(rows)[ids[k]].attempts + 1)
    {
      ids := Claimed(rows, now, limit);
      ClaimedExactly(rows, now, limit);
      for k := 0 to |ids|
        invariant |rows| == |old(rows)|
        invariant forall i :: 0 <= i < |rows| ==> rows[i] == if i in ids[..k] then Bumped(old(rows)[i]) else old(rows)[i]
      {
        assert ids[..k + 1] == ids[..k] + [ids[k]] && ids[k] !in ids[..k];
        rows := rows[ids[k] := Bumped(rows[ids[k]])];
      }
      assert ids[..|ids|] == ids;
    }

    /** `_deliver_one`; None is a crash. */
    method DeliverOne(id: nat, h: Behaviour, now: real) returns (delivered: Option<bool>)
      requires id < |rows|
      modifies this
      ensures rows == old(rows)[id := Delivered(old(rows)[id], registered, h, now)]
      ensures delivered.None? <==> !Survives(old(rows)[id], registered, h)
      ensures delivered == Some(true) <==> old(rows)[id].topic in registered && h.Returns?
      ensures var row := old(rows)[id];
              rows[id] == if row.topic !in registered then row.(state := Dead)
                          else if h.Returns? then row.(state := Sent)
                          else if h.Crashes? then row
                          else if row.attempts >= 8 then row.(state := Dead)
                          else row.(due := now + Backoff(row.attempts, h.jitter))
    {
      var row := rows[id];
      if row.topic !in registered {
        rows := rows[id := row.(state := Dead)];
        return Some(false);
      }
      match h
      case Crashes =>
        assert rows[id := row] == rows;
        return None;
      case Raises(jitter) =>
        if row.attempts >= MAX_ATTEMPTS {
          rows := rows[id := row.(state := Dead)];
        } else {
          rows := rows[id := row.(due := now + Backoff(row.attempts, jitter))];
        }
        return Some(false);
      case Returns =>
        rows := rows[id := row.(state := Sent)];
        return Some(true);
    }

    /** One claimed row of a drain: attempted, or left as it was by a crash. */
    method DrainOne(claimed: seq<nat>, k: nat, handlers: seq<Behaviour>, clocks: seq<real>, ghost was: seq<Row>)
      returns (outcome: Option<bool>)
      requires k < |claimed| && Draining(was, rows, claimed, k, registered, handlers, clocks)
      modifies this
      ensures outcome.None? ==> rows == old(rows) && !Survives(was[claimed[k]], registered, handlers[claimed[k]])
      ensures outcome.Some? ==> Draining(was, rows, claimed, k + 1, registered, handlers, clocks)
      ensures outcome == Some(true) <==> Succeeds(was, claimed[k], registered, handlers)
    {
      var id := claimed[k];
      ghost var before := rows;
      outcome := DeliverOne(id, handlers[id], clocks[id]);
      if outcome.Some? {
        DrainsOneMore(was, before, claimed, k, registered, handlers, clocks);
      } else {
        assert rows == before;
      }
    }

    /** The loop over the claimed rows, up to a crash. */
    method DeliverClaimed(claimed: seq<nat>, handlers: seq<Behaviour>, clocks: seq<real>, ghost was: seq<Row>)
      returns (delivered: nat, failed: nat, crashed: bool)
      requires Draining(was, rows, claimed, 0, registered, handlers, clocks)
      modifies this
      ensures delivered + failed <= |claimed| && Draining(was, rows, claimed, delivered + failed, registered, handlers, clocks)
      ensures delivered == Successes(was, claimed, registered, handlers, delivered + failed)
      ensures if crashed then
                delivered + failed < |claimed|
                && !Survives(was[claimed[delivered + failed]], registered, handlers[claimed[delivered + failed]])
              else delivered + failed == |claimed|
    {
      delivered, failed, crashed := 0, 0, false;
      for k := 0 to |claimed|
        invariant !crashed && delivered + failed == k && Draining(was, rows, claimed, k, registered, handlers, clocks)
        invariant delivered == Successes(was, claimed, registered, handlers, k)
      {
        var outcome := DrainOne(claimed, k, handlers, clocks, was);
        if outcome.None? {
          crashed := true;
          return;
        }
        if outcome.value {
          delivered := delivered + 1;
        } else {
          failed := failed + 1;
        }
      }
    }

    /**
     * `drain_outbox`: each claimed row is attempted once, in order, until a crash, and those whose
     * handlers returned are counted; the claim's attempts stay counted for the rows a crash
     * leaves undelivered.
     */
    method Drain(now: real, limit: nat, handlers: seq<Behaviour>, clocks: seq<real>)
      returns (delivered: nat, failed: nat, crashed: bool, ghost ids: seq<nat>)
      requires |handlers| == |clocks| == |rows|
      modifies this
      ensures ids == Claimed(old(rows), now, limit)
      ensures crashed ==> delivered + failed < |ids|
                          && !Survives(old(rows)[ids[delivered + failed]], registered, handlers[ids[delivered + failed]])
      ensures !crashed ==> delivered + failed == |ids| && Drained(old(rows), rows, ids, registered, handlers, clocks)
      ensures delivered == Successes(old(rows), ids, registered, handlers, delivered + failed)
      ensures delivered + failed <= |ids| && DrainedTo(old(rows), rows, ids, delivered + failed, registered, handlers, clocks)
    {
      var claimed := Claim(now, limit);
      ids := claimed;
      ClaimedRows(old(rows), rows, claimed, registered, handlers, clocks);
      delivered, failed, crashed := DeliverClaimed(claimed, handlers, clocks, old(rows));
      if !crashed {
        DrainedAll(old(rows), rows, claimed, registered, handlers, clocks);
      }
    }
  }

  /** These are the ids of the first `limit` due rows, in order: a due row is left only when that many come before it. */
  ghost predicate FirstDue(rows: seq<Row>, now: real, limit: nat, ids: seq<nat>) {
    && |ids| <= limit && (forall j, k :: 0 <= j < k < |ids| ==> ids[j] < ids[k])
    && (forall k :: 0 <= k < |ids| ==> ids[k] < |rows| && rows[ids[k]].state == Pending && rows[ids[k]].due <= now)
    && forall i :: 0 <= i < |rows| && rows[i].state == Pending && rows[i].due <= now && i !in ids ==>
         |ids| == limit && forall k :: 0 <= k < |ids| ==> ids[k] < i
  }

  lemma {:induction false} ClaimedExactly(rows: seq<Row>, now: real, limit: nat)
    ensures FirstDue(rows, now, limit, Claimed(rows, now, limit))
  {
    if rows != [] {
      var n := |rows| - 1;
      var before := Claimed(rows[..n], now, limit);
      ClaimedExactly(rows[..n], now, limit);
      assert forall i :: 0 <= i < n ==> rows[..n][i] == rows[i];
    }
  }

  /** The row has a handler and it returned. */
  predicate Succeeds(was: seq<Row>, id: nat, registered: set<string>, handlers: seq<Behaviour>) {
    id < |was| && id < |handlers| && was[id].topic in registered && handlers[id].Returns?
  }

  /** How many of the first `n` claimed rows succeeded. */
  function Successes(was: seq<Row>, ids: seq<nat>, registered: set<string>, handlers: seq<Behaviour>, n: nat): nat {
    if n == 0 then 0
    else
      Successes(was, ids, registered, handlers, n - 1)
      + if n <= |ids| && Succeeds(was, ids[n - 1], registered, handlers) then 1 else 0
  }

  /** The wait doubles with each attempt and is cut at five minutes, before the jitter. */
  lemma BackoffTable(n: nat, jitter: real)
    requires n >= 1
    ensures Backoff(n, jitter)
         == (if n == 1 then 2.0 else if n == 2 then 4.0 else if n == 3 then 8.0 else if n == 4 then 16.0 else if n == 5 then 32.0
             else if n == 6 then 64.0 else if n == 7 then 128.0 else if n == 8 then 256.0 else 300.0) * (0.5 + jitter)
  {
    assert Power2(3) == 8 && Power2(5) == 32 && Power2(7) == 128;
    assert Power2(2) == 4 && Power2(4) == 16 && Power2(6) == 64 && Power2(8) == 256 && Power2(9) == 512;
    if n >= 9 {
      PowerAtLeast(n);
    }
  }

  lemma {:induction false} PowerAtLeast(n: nat)
    requires n >= 9
    ensures Power2(n) >= 512
  {
    if n == 9 {
      assert Power2(5) == 32 && Power2(7) == 128 && Power2(9) == 512;
    } else {
      PowerAtLeast(n - 1);
    }
  }

  /** The first `n` claimed rows were attempted, the rest only bumped, and no other row changed. */
  ghost predicate DrainedTo(was: seq<Row>, now: seq<Row>, ids: seq<nat>, n: nat, registered: set<string>,
                            handlers: seq<Behaviour>, clocks: seq<real>)
  {
    && |handlers| == |clocks| == |now| == |was|
    && (forall k :: 0 <= k < |ids| ==> ids[k] < |was|)
    && (forall i :: 0 <= i < |was| && i !in ids ==> now[i] == was[i])
    && (forall k :: 0 <= k < |ids| ==>
          now[ids[k]] == if k < n then Attempted(was[ids[k]], registered, handlers[ids[k]], clocks[ids[k]])
                         else Bumped(was[ids[k]]))
  }

  /** A drain under way: `n` rows attempted, none of whose handlers crashed. */
  ghost predicate Draining(was: seq<Row>, now: seq<Row>, ids: seq<nat>, n: nat, registered: set<string>,
                           handlers: seq<Behaviour>, clocks: seq<real>)
  {
    && DrainedTo(was, now, ids, n, registered, handlers, clocks)
    && (forall j, k :: 0 <= j < k < |ids| ==> ids[j] < ids[k])
    && forall k :: 0 <= k < n <= |ids| ==> Survives(was[ids[k]], registered, handlers[ids[k]])
  }

  /** What a drain does when no handler crashes. */
  ghost predicate Drained(was: seq<Row>, now: seq<Row>, ids: seq<nat>, registered: set<string>, handlers: seq<Behaviour>, clocks: seq<real>)
  {
    && |handlers| == |clocks| == |now| == |was|
    && (forall k :: 0 <= k < |ids| ==> ids[k] < |was| && was[ids[k]].state == Pending
                                       && Survives(was[ids[k]], registered, handlers[ids[k]]))
    && (forall i :: 0 <= i < |was| ==>
          now[i] == if i in ids then Attempted(was[i], registered, handlers[i], clocks[i]) else was[i])
  }

  lemma DrainedAll(was: seq<Row>, now: seq<Row>, ids: seq<nat>, registered: set<string>, handlers: seq<Behaviour>, clocks: seq<real>)
    requires DrainedTo(was, now, ids, |ids|, registered, handlers, clocks)
    requires forall k :: 0 <= k < |ids| ==> was[ids[k]].state == Pending && Survives(was[ids[k]], registered, handlers[ids[k]])
    ensures Drained(was, now, ids, registered, handlers, clocks)
  {
    forall i | 0 <= i < |was| && i in ids ensures now[i] == Attempted(was[i], registered, handlers[i], clocks[i]) {
      var k :| 0 <= k < |ids| && ids[k] == i;
    }
  }

  lemma ClaimedRows(was: seq<Row>, now: seq<Row>, ids: seq<nat>, registered: set<string>, handlers: seq<Behaviour>, clocks: seq<real>)
    requires |handlers| == |clocks| == |now| == |was| && forall k :: 0 <= k < |ids| ==> ids[k] < |was|
    requires forall i :: 0 <= i < |now| ==> now[i] == if i in ids then Bumped(was[i]) else was[i]
    ensures DrainedTo(was, now, ids, 0, registered, handlers, clocks)
  {}

  lemma DrainsOneMore(was: seq<Row>, now: seq<Row>, ids: seq<nat>, k: nat, registered: set<string>,
                      handlers: seq<Behaviour>, clocks: seq<real>)
    requires k < |ids| && DrainedTo(was, now, ids, k, registered, handlers, clocks)
    requires forall j, n :: 0 <= j < n < |ids| ==> ids[j] < ids[n]
    ensures var id := ids[k];
            DrainedTo(was, now[id := Delivered(now[id], registered, handlers[id], clocks[id])], ids, k + 1, registered, handlers, clocks)
  {}

  // ------------------------------------------------------------ bounded delivery

  /** Attempts a pending row has left. */
  function Left(): Row -> int { (row: Row) => if row.state == Pending then MAX_ATTEMPTS - row.attempts else 0 }

  /** No row has had more than eight attempts, and a pending one has one left. */
  ghost predicate Bounded(rows: seq<Row>) {
    forall i :: 0 <= i < |rows| ==> rows[i].attempts <= MAX_ATTEMPTS && (rows[i].state == Pending ==> rows[i].attempts < MAX_ATTEMPTS)
  }

  lemma {:induction false} LeftFalls(was: seq<Row>, now: seq<Row>)
    requires |was| == |now| && forall i :: 0 <= i < |was| ==> Left()(now[i]) <= Left()(was[i])
    ensures Total(now, Left()) <= Total(was, Left())
    ensures (exists i :: 0 <= i < |was| && Left()(now[i]) < Left()(was[i])) ==> Total(now, Left()) < Total(was, Left())
  {
    if was != [] {
      var n := |was| - 1;
      LeftFalls(was[..n], now[..n]);
      if i :| 0 <= i < |was| && Left()(now[i]) < Left()(was[i]) {
        if i < n {
          assert Left()(now[..n][i]) < Left()(was[..n][i]);
        }
      }
    }
  }

  /**
   * While handlers return or raise, no row gets a ninth attempt, a claimed row ends
   * sent, dead or with attempts left, and the attempts left over all pending rows
   * strictly decrease with every drain that claims anything.
   */
  lemma DrainIsBounded(was: seq<Row>, now: seq<Row>, ids: seq<nat>, registered: set<string>, handlers: seq<Behaviour>, clocks: seq<real>)
    requires Bounded(was) && Drained(was, now, ids, registered, handlers, clocks)
    ensures Bounded(now) && 0 <= Total(now, Left()) <= Total(was, Left())
    ensures ids != [] ==> Total(now, Left()) < Total(was, Left())
  {
    forall i | 0 <= i < |was| ensures Left()(now[i]) <= Left()(was[i]) && (i in ids ==> Left()(now[i]) < Left()(was[i])) {
      if i in ids {
        var k :| 0 <= k < |ids| && ids[k] == i;
        assert was[i].state == Pending;
      }
    }
    LeftFalls(was, now);
    TotalNonNegative(now, Left());
    if ids != [] {
      assert ids[0] in ids;
    }
  }

  /** Any number of crash-free drains, each claiming something. */
  ghost predicate Drains(history: seq<seq<Row>>) {
    forall n :: 0 <= n < |history| - 1 ==> DrainsOnce(history[n], history[n + 1])
  }

  ghost predicate DrainsOnce(was: seq<Row>, now: seq<Row>) {
    exists ids, registered, handlers, clocks :: ids != [] && Drained(was, now, ids, registered, handlers, clocks)
  }

  /** So a backlog is worked off: that many drains are all there can be. */
  lemma {:induction false} BacklogEnds(history: seq<seq<Row>>)
    requires history != [] && Bounded(history[0]) && Drains(history)
    ensures Bounded(history[|history| - 1])
    ensures |history| - 1 + Total(history[|history| - 1], Left()) <= Total(history[0], Left())
    ensures |history| - 1 <= Total(history[0], Left()) <= MAX_ATTEMPTS * |history[0]|
  {
    var n := |history| - 1;
    LeftAtMost(history[0]);
    if n == 0 {
      TotalNonNegative(history[0], Left());
    } else {
      assert forall k :: 0 <= k < n ==> history[..n][k] == history[k];
      forall k | 0 <= k < n - 1 ensures DrainsOnce(history[..n][k], history[..n][k + 1]) {
        assert DrainsOnce(history[k], history[k + 1]);
      }
      BacklogEnds(history[..n]);
      assert DrainsOnce(history[n - 1], history[n - 1 + 1]);
      var ids, registered, handlers, clocks :| ids != [] && Drained(history[n - 1], history[n], ids, registered, handlers, clocks);
      DrainIsBounded(history[n - 1], history[n], ids, registered, handlers, clocks);
    }
  }

  lemma {:induction false} LeftAtMost(rows: seq<Row>)
    ensures Total(rows, Left()) <= MAX_ATTEMPTS * |rows|
  {
    if rows != [] {
      LeftAtMost(rows[..|rows| - 1]);
    }
  }

  // ------------------------------------------------------------ one message's life

  /** One attempt at a message whose topic is registered: what its handler does, and when. */
  datatype Turn = Turn(handler: Behaviour, now: real)

  /** A row that is no longer pending is not claimed. */
  function Lived(row: Row, turns: seq<Turn>): Row {
    if turns == [] then row
    else
      var before := Lived(row, turns[..|turns| - 1]);
      if before.state == Pending then Attempted(before, {row.topic}, turns[|turns| - 1].handler, turns[|turns| - 1].now) else before
  }

  /** The delays scheduled along the way: how far each failed attempt pushed the row's due time. */
  function Scheduled(row: Row, turns: seq<Turn>): real {
    if turns == [] then 0.0
    else
      var n := |turns| - 1;
      var before, after := Lived(row, turns[..n]), Lived(row, turns);
      Scheduled(row, turns[..n])
      + if before.state == Pending && after.state == Pending && turns[n].handler.Raises? then after.due - turns[n].now else 0.0
  }

  ghost predicate OnlyFails(turns: seq<Turn>) {
    forall k :: 0 <= k < |turns| ==> turns[k].handler.Raises? && Jittered(turns[k].handler)
  }

  lemma LivedTopic(row: Row, turns: seq<Turn>)
    ensures Lived(row, turns).topic == row.topic
  {}

  function PowerSum(n: nat): nat { if n == 0 then 0 else PowerSum(n - 1) + Power2(n) }

  lemma JitterRange(p: real, jitter: real)
    requires p > 0.0 && 0.0 <= jitter < 1.0
    ensures 0.5 * p <= p * (0.5 + jitter) < 1.5 * p
  {
    assert 0.0 <= p * jitter < p * 1.0;
  }

  /** Below the cap, a backoff is between half and one and a half times its power of two. */
  lemma BackoffRange(n: nat, jitter: real)
    requires n <= 7 && 0.0 <= jitter < 1.0
    ensures 0.5 * Power2(n) as real <= Backoff(n, jitter) < 1.5 * Power2(n) as real
  {
    PowerAtMost(n);
    JitterRange(Power2(n) as real, jitter);
  }

  /** One more failure of a pending row with `n` attempts behind it. */
  lemma OneFailure(row: Row, turns: seq<Turn>, n: nat)
    requires |turns| == n + 1 <= 7 && turns[n].handler.Raises? && Jittered(turns[n].handler)
    requires Lived(row, turns[..n]).state == Pending && Lived(row, turns[..n]).attempts == n
    ensures Lived(row, turns).state == Pending && Lived(row, turns).attempts == n + 1
    ensures Scheduled(row, turns) == Scheduled(row, turns[..n]) + Backoff(n + 1, turns[n].handler.jitter)
  {
    LivedTopic(row, turns[..n]);
  }

  /** After `n` failures a fresh message has `n` attempts and between half and one and a half times the doubling sum behind it. */
  lemma {:induction false} FailingLife(row: Row, turns: seq<Turn>)
    requires row.state == Pending && row.attempts == 0 && OnlyFails(turns) && |turns| <= 7
    ensures Lived(row, turns).state == Pending && Lived(row, turns).attempts == |turns|
    ensures turns != [] ==> 0.5 * PowerSum(|turns|) as real <= Scheduled(row, turns) < 1.5 * PowerSum(|turns|) as real
    ensures turns == [] ==> Scheduled(row, turns) == 0.0
  {
    if turns != [] {
      var n := |turns| - 1;
      assert forall k :: 0 <= k < n ==> turns[..n][k] == turns[k];
      FailingLife(row, turns[..n]);
      assert turns[n].handler.Raises? && Jittered(turns[n].handler);
      OneFailure(row, turns, n);
      BackoffRange(n + 1, turns[n].handler.jitter);
      assert PowerSum(n + 1) as real == PowerSum(n) as real + Power2(n + 1) as real;
    }
  }

  lemma {:induction false} PowerAtMost(n: nat)
    requires n <= 7
    ensures 1 <= Power2(n) <= 128
  {
    assert Power2(3) == 8 && Power2(5) == 32 && Power2(7) == 128;
    assert Power2(2) == 4 && Power2(4) == 16 && Power2(6) == 64;
  }

  /**
   * A message whose handler only ever fails is dead after exactly eight attempts, and
   * the delays scheduled before the last of them total at least 127 and under 381 seconds.
   */
  lemma FailingMessageDies(row: Row, turns: seq<Turn>)
    requires row.state == Pending && row.attempts == 0 && OnlyFails(turns) && |turns| >= MAX_ATTEMPTS
    ensures Lived(row, turns[..MAX_ATTEMPTS]).state == Dead && Lived(row, turns[..MAX_ATTEMPTS - 1]).state == Pending
    ensures Lived(row, turns).attempts == MAX_ATTEMPTS
    ensures 127.0 <= Scheduled(row, turns) < 381.0
  {
    var seven, eight := turns[..7], turns[..8];
    assert forall k :: 0 <= k < 7 ==> seven[k] == turns[k];
    FailingLife(row, seven);
    LivedTopic(row, seven);
    assert eight[..7] == seven && eight[7] == turns[7];
    assert PowerSum(3) == 14;
    assert PowerSum(5) == 62;
    assert PowerSum(7) == 254;
    DeadStays(row, turns, 8);
  }

  lemma {:induction false} DeadStays(row: Row, turns: seq<Turn>, n: nat)
    requires n <= |turns| && Lived(row, turns[..n]).state != Pending
    ensures Lived(row, turns) == Lived(row, turns[..n]) && Scheduled(row, turns) == Scheduled(row, turns[..n])
  {
    if n == |turns| {
      assert turns[..n] == turns;
    } else {
      var m := |turns| - 1;
      assert turns[..m][..n] == turns[..n];
      DeadStays(row, turns[..m], n);
    }
  }

  /**
   * Attempts are bumped before delivery and read only after a failure: a message is
   * still pending after any number of attempts exactly when none of them returned and
   * every one from the eighth on took its worker down.
   */
  lemma {:induction false} PendingExactly(row: Row, turns: seq<Turn>)
    requires row.state == Pending && row.attempts == 0
    ensures Lived(row, turns).state == Pending
       <==> forall k :: 0 <= k < |turns| ==> !turns[k].handler.Returns? && (k >= MAX_ATTEMPTS - 1 ==> turns[k].handler.Crashes?)
    ensures Lived(row, turns).state == Pending ==> Lived(row, turns).attempts == |turns|
  {
    if turns != [] {
      var n := |turns| - 1;
      assert forall k :: 0 <= k < n ==> turns[..n][k] == turns[k];
      PendingExactly(row, turns[..n]);
      LivedTopic(row, turns[..n]);
    }
  }

  /** So a message that always takes its worker down is attempted without bound. */
  lemma CrashLoopUnbounded(row: Row, n: nat)
    requires row.state == Pending && row.attempts == 0
    ensures var after := Lived(row, seq(n, i => Turn(Crashes, 0.0)));
            after.state == Pending && after.attempts == n
  {
    PendingExactly(row, seq(n, i => Turn(Crashes, 0.0)));
  }
}
