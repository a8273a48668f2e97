/**
 * Where one call to the remote ledger ends (apps/core/http.py `call`), attempt by attempt: which
 * faults are tried again, which end the call, and what each leaves of the service and the breaker.
 */
module Calls {
  import opened Wrappers
  import opened Breakers
  import opened Http
  import Services

  /** A fault after which the loop goes on while attempts are left. */
  predicate Retried(p: CallPolicy, fate: Fate) {
    match fate
    case Delivered => false
    case ServerFault(status, _) => status in p.retryOn
    case NeverConnected => true
    case ConnectionLost(_) => true
    case ReadTimeout(_) => true
    case TransportFault(_) => true
  }

  /** The service's traffic over these turns, the call's own requests included where they arrived. */
  function Traffic(r: Request, turns: seq<Turn>): seq<Services.Event> {
    if turns == [] then []
    else
      var arrived := match turns[0].fate
                     case Delivered => true
                     case NeverConnected => false
                     case ConnectionLost(applied) => applied
                     case ReadTimeout(applied) => applied
                     case TransportFault(applied) => applied
                     case ServerFault(_, applied) => applied;
      turns[0].before + (if arrived then [Services.Ask(r, turns[0].at)] else []) + Traffic(r, turns[1..])
  }

  /** The breaker after a check that passed and the failure after it. */
  function AfterFailure(p: CallPolicy, b: Breaker, clock: real): Breaker {
    Guarded(p, Guarded(p, b, Checked(clock)), Breakers.Failed(clock))
  }

  /** The breaker stops no attempt up to the `k`-th, the ones before it having failed. */
  ghost predicate Admitted(p: CallPolicy, b: Breaker, turns: seq<Turn>, k: nat)
    decreases k
  {
    && k < |turns|
    && (p.key == "" || !Refuses(b, p.breaker, turns[0].clock))
    && (k > 0 ==> Admitted(p, AfterFailure(p, b, turns[0].clock), turns[1..], k - 1))
  }

  /** The breaker lets `k` failing attempts through and stops the next. */
  ghost predicate Stopped(p: CallPolicy, b: Breaker, turns: seq<Turn>, k: nat)
    decreases k
  {
    && k < |turns| && p.key != ""
    && if k == 0 then Refuses(b, p.breaker, turns[0].clock)
       else
         && !Refuses(b, p.breaker, turns[0].clock)
         && Stopped(p, AfterFailure(p, b, turns[0].clock), turns[1..], k - 1)
  }

  /** Attempt `k` is the call's last: it is answered, or met a fault nobody retries, or none is left. */
  predicate Ends(p: CallPolicy, turns: seq<Turn>, k: nat) {
    && k < |turns| && (forall j :: 0 <= j < k ==> Retried(p, turns[j].fate))
    && (k == |turns| - 1 || !Retried(p, turns[k].fate))
  }

  /** What a call raises or returns, by the fate of its last attempt. */
  ghost predicate EndsAs(s: Service, r: Request, turns: seq<Turn>, k: nat, outcome: Http.Outcome)
    requires k < |turns|
  {
    match turns[k].fate
    case Delivered =>
      var a := Services.Handle(Services.Run(Services.Run(s, Traffic(r, turns[..k])), turns[k].before), r, turns[k].at).1;
      outcome == if a.status < 400 then Returned(a.reply) else Rejected(a.status, a.reply)
    case NeverConnected => outcome == Unavailable
    case ConnectionLost(_) => outcome == Unavailable
    case ReadTimeout(_) => outcome == Uncertain
    case TransportFault(_) => outcome == Uncertain
    case ServerFault(_, _) => outcome == Uncertain
  }

  lemma SeenIsTraffic(r: Request, t: Turn)
    ensures Seen(r, t) == Traffic(r, [t])
  {
    assert [t][1..] == [];
    assert Traffic(r, []) == [];
  }

  lemma TrafficSplits(s: Service, r: Request, turns: seq<Turn>)
    requires turns != []
    ensures Traffic(r, turns) == Seen(r, turns[0]) + Traffic(r, turns[1..])
    ensures Services.Run(s, Traffic(r, turns)) == Services.Run(Services.Run(s, Seen(r, turns[0])), Traffic(r, turns[1..]))
  {
    SeenIsTraffic(r, turns[0]);
    RunAppend(s, Seen(r, turns[0]), Traffic(r, turns[1..]));
  }

  /** A retried fault with attempts left: the call goes on exactly as a call on the remaining turns. */
  lemma NextAttempt(s: Service, b: Breaker, r: Request, p: CallPolicy, turns: seq<Turn>)
    requires |turns| > 1 && (p.key == "" || !Refuses(b, p.breaker, turns[0].clock)) && Retried(p, turns[0].fate)
    ensures var trip := Call(s, b, r, p, turns);
            var rest := Call(Services.Run(s, Seen(r, turns[0])), AfterFailure(p, b, turns[0].clock), r, p, turns[1..]);
            && trip.service == rest.service && trip.outcome == rest.outcome && trip.breaker == rest.breaker
            && trip.traffic == Seen(r, turns[0]) + rest.traffic
  {}

  /** A server fault that is not retried ends the call as uncertain, whatever attempts are left. */
  lemma FaultEnds(s: Service, b: Breaker, r: Request, p: CallPolicy, turns: seq<Turn>)
    requires turns != [] && (p.key == "" || !Refuses(b, p.breaker, turns[0].clock))
    requires turns[0].fate.ServerFault? && turns[0].fate.status !in p.retryOn
    ensures var trip := Call(s, b, r, p, turns);
            && trip.outcome == Uncertain && trip.service == Services.Run(s, Seen(r, turns[0])) && trip.traffic == Seen(r, turns[0])
            && trip.breaker == AfterFailure(p, b, turns[0].clock)
  {}

  lemma LastAttempt(s: Service, b: Breaker, r: Request, p: CallPolicy, turns: seq<Turn>)
    requires turns != [] && (p.key == "" || !Refuses(b, p.breaker, turns[0].clock)) && Ends(p, turns, 0)
    ensures var trip := Call(s, b, r, p, turns);
            && trip.traffic == Seen(r, turns[0]) && trip.service == Services.Run(s, Seen(r, turns[0]))
            && EndsAs(s, r, turns, 0, trip.outcome)
            && (turns[0].fate.Delivered? && p.key != "" ==> trip.breaker == Breaker(0, None))
            && (!turns[0].fate.Delivered? ==> trip.breaker == AfterFailure(p, b, turns[0].clock))
            && (p.key == "" ==> trip.breaker == b)
  {
    assert Traffic(r, turns[..0]) == [];
  }

  /** The outcome of a call on the remaining turns, read from the whole. */
  lemma EndsAsLater(s: Service, r: Request, turns: seq<Turn>, k: nat, outcome: Http.Outcome)
    requires 0 < k < |turns| && EndsAs(Services.Run(s, Seen(r, turns[0])), r, turns[1..], k - 1, outcome)
    ensures EndsAs(s, r, turns, k, outcome)
  {
    var rest := turns[1..];
    assert turns[..k][1..] == rest[..k - 1];
    TrafficSplits(s, r, turns[..k]);
  }

  /**
   * A call that the breaker does not stop ends with the first attempt that is answered or meets a
   * fault nobody retries, or with its last one. That attempt alone decides what is raised or
   * returned; the service has seen every request that arrived until then, and no more; an
   * answer, even a refusal, closes the breaker, and otherwise each attempt counts as one failure.
   */
  lemma {:induction false} CallEnds(s: Service, b: Breaker, r: Request, p: CallPolicy, turns: seq<Turn>, k: nat)
    requires Admitted(p, b, turns, k) && Ends(p, turns, k)
    ensures var trip := Call(s, b, r, p, turns);
            && trip.traffic == Traffic(r, turns[..k + 1]) && trip.service == Services.Run(s, trip.traffic)
            && EndsAs(s, r, turns, k, trip.outcome)
            && (if p.key == "" then trip.breaker == b
                else if turns[k].fate.Delivered? then trip.breaker == Breaker(0, None)
                else trip.breaker.failures == b.failures + k + 1)
    decreases k
  {
    CallIsTraffic(s, b, r, p, turns);
    if k == 0 {
      LastAttempt(s, b, r, p, turns);
      assert turns[..1] == [turns[0]];
      SeenIsTraffic(r, turns[0]);
    } else {
      var rest := turns[1..];
      NextAttempt(s, b, r, p, turns);
      assert forall j :: 0 <= j < k - 1 ==> rest[j] == turns[j + 1];
      CallEnds(Services.Run(s, Seen(r, turns[0])), AfterFailure(p, b, turns[0].clock), r, p, rest, k - 1);
      assert turns[..k + 1][1..] == rest[..k];
      TrafficSplits(s, r, turns[..k + 1]);
      EndsAsLater(s, r, turns, k, Call(s, b, r, p, turns).outcome);
    }
  }

  /** A call the breaker stops is raised as unavailable, and its stopped attempt sends nothing. */
  lemma {:induction false} CallStopped(s: Service, b: Breaker, r: Request, p: CallPolicy, turns: seq<Turn>, k: nat)
    requires Stopped(p, b, turns, k) && forall j :: 0 <= j < k ==> Retried(p, turns[j].fate)
    ensures var trip := Call(s, b, r, p, turns);
            && trip.outcome == Unavailable && trip.traffic == Traffic(r, turns[..k]) + turns[k].before
            && trip.service == Services.Run(s, trip.traffic) && trip.breaker.failures == b.failures + k
    decreases k
  {
    CallIsTraffic(s, b, r, p, turns);
    if k == 0 {
      assert Traffic(r, turns[..0]) + turns[0].before == turns[0].before;
    } else {
      var rest := turns[1..];
      NextAttempt(s, b, r, p, turns);
      assert forall j :: 0 <= j < k - 1 ==> rest[j] == turns[j + 1];
      CallStopped(Services.Run(s, Seen(r, turns[0])), AfterFailure(p, b, turns[0].clock), r, p, rest, k - 1);
      TrafficOneMore(r, turns, k);
    }
  }

  lemma TrafficOneMore(r: Request, turns: seq<Turn>, k: nat)
    requires 0 < k < |turns|
    ensures Seen(r, turns[0]) + (Traffic(r, turns[1..][..k - 1]) + turns[k].before) == Traffic(r, turns[..k]) + turns[k].before
  {
    assert turns[..k][1..] == turns[1..][..k - 1];
    SeenIsTraffic(r, turns[0]);
  }

  /** Every call is one or the other: it is stopped by the breaker, or ends by its attempts. */
  lemma {:induction false} CallIsDecided(p: CallPolicy, b: Breaker, turns: seq<Turn>) returns (k: nat)
    requires turns != []
    ensures k < |turns| && forall j :: 0 <= j < k ==> Retried(p, turns[j].fate)
    ensures Stopped(p, b, turns, k) || (Admitted(p, b, turns, k) && Ends(p, turns, k))
    decreases |turns|
  {
    if (p.key != "" && Refuses(b, p.breaker, turns[0].clock)) || |turns| == 1 || !Retried(p, turns[0].fate) {
      k := 0;
    } else {
      var n := CallIsDecided(p, AfterFailure(p, b, turns[0].clock), turns[1..]);
      k := n + 1;
      forall j | 0 <= j < k ensures Retried(p, turns[j].fate) {
        assert j > 0 ==> turns[1..][j - 1] == turns[j];
      }
    }
  }
}
