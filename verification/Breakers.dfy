/**
 * The process-local circuit breaker of apps/core/http.py, proved equal to what its
 * history says it should be. Times are readings of a clock, in any unit.
 */
module Breakers {
  import opened Wrappers

  /** One key's rows in the two dictionaries. */
  datatype Breaker = Breaker(failures: nat, openedAt: Option<real>)

  /** What one caller does with the breaker. */
  datatype Event = Checked(now: real) | Succeeded | Failed(now: real)

  /** The fixed settings of one key. */
  datatype Policy = Policy(threshold: nat, cooldown: real)

  const CLOSED := Breaker(0, None)

  predicate Refuses(b: Breaker, p: Policy, now: real) { b.openedAt.Some? && now - b.openedAt.value < p.cooldown }

  function Step(b: Breaker, p: Policy, e: Event): Breaker {
    match e
    case Checked(now) => if Refuses(b, p, now) then b else b.(openedAt := None)
    case Succeeded => CLOSED
    case Failed(now) =>
      Breaker(b.failures + 1, if b.failures + 1 >= p.threshold && b.openedAt.None? then Some(now) else b.openedAt)
  }

  function After(p: Policy, history: seq<Event>): Breaker {
    if history == [] then CLOSED else Step(After(p, history[..|history| - 1]), p, history[|history| - 1])
  }

  // ------------------------------------------------------------ the class

  /** `_CircuitBreaker`: two dictionaries, every method under one lock; the empty key is not guarded. */
  class CircuitBreaker {
    var failures: map<string, nat>
    var openedAt: map<string, real>

    function Of(key: string): Breaker
      reads this
    {
      Breaker(if key in failures then failures[key] else 0, if key in openedAt then Some(openedAt[key]) else None)
    }

    constructor ()
      ensures forall key :: Of(key) == CLOSED
    {
      failures, openedAt := map[], map[];
    }

    /** True when the call may go ahead; False is the source's ServiceUnavailable. */
    method Check(key: string, p: Policy, now: real) returns (allowed: bool)
      modifies this
      ensures allowed <==> key == "" || !Refuses(old(Of(key)), p, now)
      ensures forall k :: Of(k) == if k == key != "" then Step(old(Of(k)), p, Checked(now)) else old(Of(k))
    {
      if key == "" || key !in openedAt {
        return true;
      }
      if now - openedAt[key] < p.cooldown {
        return false;
      }
      openedAt := openedAt - {key};
      return true;
    }

    method RecordSuccess(key: string)
      modifies this
      ensures forall k :: Of(k) == if k == key != "" then CLOSED else old(Of(k))
    {
      if key != "" {
        failures, openedAt := failures - {key}, openedAt - {key};
      }
    }

    method RecordFailure(key: string, p: Policy, now: real)
      modifies this
      ensures forall k :: Of(k) == if k == key != "" then Step(old(Of(k)), p, Failed(now)) else old(Of(k))
    {
      if key == "" {
        return;
      }
      var count := (if key in failures then failures[key] else 0) + 1;
      failures := failures[key := count];
      if count >= p.threshold && key !in openedAt {
        openedAt := openedAt[key := now];
      }
    }
  }

  // ------------------------------------------------------------ the history's own account

  /** Failures after the last success, counted from the end. */
  function FailuresSinceSuccess(history: seq<Event>): nat {
    if history == [] then 0
    else
      match history[|history| - 1]
      case Succeeded => 0
      case Failed(_) => FailuresSinceSuccess(history[..|history| - 1]) + 1
      case Checked(_) => FailuresSinceSuccess(history[..|history| - 1])
  }

  /** Event `i` is a failure that brings the run of failures to the threshold, or finds it there. */
  predicate Trips(p: Policy, history: seq<Event>, i: nat) {
    i < |history| && history[i].Failed? && FailuresSinceSuccess(history[..i + 1]) >= p.threshold
  }

  /** From `i` on, nothing succeeded and every check came within the cooldown of `i`. */
  predicate Standing(p: Policy, history: seq<Event>, i: nat) {
    && i < |history| && history[i].Failed?
    && forall k :: i < k < |history| ==>
         !history[k].Succeeded? && (history[k].Checked? ==> history[k].now - history[i].now < p.cooldown)
  }

  /** Event `i` opened the breaker: it tripped while no earlier opening was standing. */
  ghost predicate Opens(p: Policy, history: seq<Event>, i: nat)
    decreases i
  {
    Trips(p, history, i) && forall j :: 0 <= j < i ==> !(Opens(p, history, j) && Standing(p, history[..i], j))
  }

  ghost predicate InForce(p: Policy, history: seq<Event>, i: nat) { Opens(p, history, i) && Standing(p, history, i) }

  lemma {:induction false} CountsFailures(p: Policy, history: seq<Event>)
    ensures After(p, history).failures == FailuresSinceSuccess(history)
  {
    if history != [] {
      CountsFailures(p, history[..|history| - 1]);
    }
  }

  lemma {:induction false} OpensPrefix(p: Policy, history: seq<Event>, n: nat, i: nat)
    requires i < n <= |history|
    ensures Opens(p, history[..n], i) <==> Opens(p, history, i)
    decreases i
  {
    assert history[..n][..i + 1] == history[..i + 1];
    assert history[..n][..i] == history[..i];
    forall j | 0 <= j < i ensures Opens(p, history[..n], j) <==> Opens(p, history, j) {
      OpensPrefix(p, history, n, j);
    }
  }

  /** An earlier opening stays in force exactly over failures and over checks within its cooldown. */
  lemma InForceSnoc(p: Policy, history: seq<Event>, i: nat)
    requires i < |history| - 1
    ensures var last := history[|history| - 1];
            InForce(p, history, i) <==>
              && InForce(p, history[..|history| - 1], i)
              && !last.Succeeded? && (last.Checked? ==> last.now - history[i].now < p.cooldown)
  {
    OpensPrefix(p, history, |history| - 1, i);
  }

  /** Only one opening is in force at a time. */
  lemma OneInForce(p: Policy, history: seq<Event>, i: nat, j: nat)
    requires InForce(p, history, i) && InForce(p, history, j)
    ensures i == j
  {
    var a, b := if i < j then i else j, if i < j then j else i;
    if a < b {
      assert Standing(p, history[..b], a);
    }
  }

  /** The time of the opening in force, if there is one. */
  ghost predicate OpenedAt(p: Policy, history: seq<Event>, at: Option<real>) {
    match at
    case None => forall i :: 0 <= i < |history| ==> !InForce(p, history, i)
    case Some(t) => exists i :: 0 <= i < |history| && InForce(p, history, i) && history[i].now == t
  }

  lemma {:induction false} OpenedAtIsState(p: Policy, history: seq<Event>)
    ensures OpenedAt(p, history, After(p, history).openedAt)
  {
    if history != [] {
      var n := |history| - 1;
      var b, last := After(p, history[..n]), history[n];
      OpenedAtIsState(p, history[..n]);
      CountsFailures(p, history);
      assert history[..n + 1] == history;
      forall i | 0 <= i < n
        ensures InForce(p, history, i) <==>
                  InForce(p, history[..n], i) && !last.Succeeded? && (last.Checked? ==> last.now - history[i].now < p.cooldown)
      {
        InForceSnoc(p, history, i);
      }
      match b.openedAt
      case Some(t) =>
        var i :| 0 <= i < n && InForce(p, history[..n], i) && history[..n][i].now == t;
        assert history[i].now == t;
        OpenStep(p, history, i);
      case None =>
        forall j | 0 <= j < n ensures !(Opens(p, history, j) && Standing(p, history[..n], j)) {
          OpensPrefix(p, history, n, j);
          assert !InForce(p, history[..n], j);
        }
        assert InForce(p, history, n) <==> Trips(p, history, n);
    }
  }

  /** With opening `i` in force before the last event. */
  lemma OpenStep(p: Policy, history: seq<Event>, i: nat)
    requires i < |history| - 1 && InForce(p, history[..|history| - 1], i)
    ensures !InForce(p, history, |history| - 1)
    ensures forall j :: 0 <= j < |history| - 1 && InForce(p, history, j) ==> j == i
  {
    var n := |history| - 1;
    OpensPrefix(p, history, n, i);
    forall j | 0 <= j < n && InForce(p, history, j) ensures j == i {
      InForceSnoc(p, history, j);
      OneInForce(p, history[..n], i, j);
    }
  }

  /**
   * The breaker is its history: the count is the failures since the last success, it
   * is open exactly while an opening is in force, and an opening needs the threshold.
   */
  lemma BreakerIsHistory(p: Policy, history: seq<Event>)
    ensures After(p, history).failures == FailuresSinceSuccess(history)
    ensures OpenedAt(p, history, After(p, history).openedAt)
    ensures After(p, history).openedAt.Some? ==> FailuresSinceSuccess(history) >= p.threshold
  {
    CountsFailures(p, history);
    OpenedAtIsState(p, history);
    OpenNeedsThreshold(p, history);
  }

  lemma {:induction false} OpenNeedsThreshold(p: Policy, history: seq<Event>)
    ensures After(p, history).openedAt.Some? ==> After(p, history).failures >= p.threshold
  {
    if history != [] {
      OpenNeedsThreshold(p, history[..|history| - 1]);
    }
  }

  /** A check refuses exactly while the cooldown of the opening in force runs. */
  lemma RefusesExactly(p: Policy, history: seq<Event>, now: real)
    ensures Refuses(After(p, history), p, now)
       <==> exists i :: 0 <= i < |history| && InForce(p, history, i) && now - history[i].now < p.cooldown
  {
    OpenedAtIsState(p, history);
    forall i, j | 0 <= i < |history| && 0 <= j < |history| && InForce(p, history, i) && InForce(p, history, j)
      ensures i == j
    {
      OneInForce(p, history, i, j);
    }
  }

  /** Once a cooldown has elapsed a check lets every caller through, and one failure reopens. */
  lemma HalfOpen(p: Policy, history: seq<Event>, now: real, later: real)
    requires After(p, history).openedAt.Some? && now - After(p, history).openedAt.value >= p.cooldown
    ensures var probing := history + [Checked(now)];
            && !Refuses(After(p, history), p, now)
            && (forall t :: !Refuses(After(p, probing), p, t))
            && After(p, probing + [Failed(later)]).openedAt == Some(later)
            && After(p, probing + [Succeeded]) == CLOSED
  {
    var probing := history + [Checked(now)];
    OpenNeedsThreshold(p, history);
    assert probing[..|history|] == history;
    assert (probing + [Failed(later)])[..|probing|] == probing;
    assert (probing + [Succeeded])[..|probing|] == probing;
  }
}
