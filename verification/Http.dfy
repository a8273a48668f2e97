/**
 * One keyed call to the remote ledger (apps/core/http.py `call`): the retry loop, the
 * error taxonomy and the breaker, over a network that may drop a request or a reply
 * while other clients' traffic goes on.
 */
module Http {
  import opened Books
  import opened Breakers
  import Services
  import opened ServiceHandlers

  type Service = Services.Service
  type Request = Services.Request

  /**
   * What the network does with one attempt; `applied` says whether the service handled it.
   * A connection aborted after the body was sent raises the same ConnectionError as one
   * that was never made.
   */
  datatype Fate =
    | NeverConnected
    | ConnectionLost(applied: bool)
    | ReadTimeout(applied: bool)
    | TransportFault(applied: bool)
    | ServerFault(status: nat, applied: bool)
    | Delivered

  /** One attempt: what others do to the service before it, its fate, and the two clocks. */
  datatype Turn = Turn(before: seq<Services.Event>, fate: Fate, clock: real, at: int)

  datatype CallPolicy = CallPolicy(retryOn: set<nat>, breaker: Policy, key: string)

  /** The taxonomy: a decoded body, ServiceRejected, ServiceUnavailable or ServiceUncertain. */
  datatype Outcome = Returned(reply: Services.Reply) | Rejected(status: nat, reply: Services.Reply) | Unavailable | Uncertain

  /** Where a call ends: the service, the breaker, the traffic that got there, and how often the call itself applied. */
  datatype Trip = Trip(service: Service, breaker: Breaker, traffic: seq<Services.Event>, applied: nat, outcome: Outcome)

  predicate Reaches(fate: Fate) { fate.Delivered? || (!fate.NeverConnected? && fate.applied) }

  function ErrorOf(fate: Fate): Outcome { if fate.NeverConnected? || fate.ConnectionLost? then Unavailable else Uncertain }

  /** A failed attempt after which the loop breaks. */
  predicate Final(p: CallPolicy, fate: Fate) { fate.ServerFault? && fate.status !in p.retryOn }

  /** The empty key is not guarded. */
  function Guarded(p: CallPolicy, b: Breaker, e: Event): Breaker { if p.key == "" then b else Step(b, p.breaker, e) }

  function KeyOf(r: Request): Services.HashKey
    requires Services.TokenOf(r).Some?
  {
    Services.HashKey(Services.RouteOf(r.body), Services.TokenOf(r).value)
  }

  /** The traffic of one turn. */
  function Seen(r: Request, t: Turn): seq<Services.Event> {
    t.before + if Reaches(t.fate) then [Services.Ask(r, t.at)] else []
  }

  function AppliedBy(s: Service, r: Request, t: Turn): nat {
    if Reaches(t.fate) && Services.TokenOf(r).Some?
       && Services.Applies(Services.Run(s, t.before), Services.Ask(r, t.at), KeyOf(r)) then 1 else 0
  }

  /** The loop from its first remaining attempt on. */
  function Call(s: Service, b: Breaker, r: Request, p: CallPolicy, turns: seq<Turn>): Trip
    requires turns != []
    decreases |turns|
  {
    var t := turns[0];
    if p.key != "" && Refuses(b, p.breaker, t.clock) then Trip(Services.Run(s, t.before), b, t.before, 0, Unavailable)
    else
      var s1, n := Services.Run(s, Seen(r, t)), AppliedBy(s, r, t);
      var b1 := Guarded(p, b, Checked(t.clock));
      if t.fate.Delivered? then
        var a := Services.Handle(Services.Run(s, t.before), r, t.at).1;
        Trip(s1, Guarded(p, b1, Succeeded), Seen(r, t), n,
             if a.status < 400 then Returned(a.reply) else Rejected(a.status, a.reply))
      else
        var b2 := Guarded(p, b1, Failed(t.clock));
        if Final(p, t.fate) || |turns| == 1 then Trip(s1, b2, Seen(r, t), n, ErrorOf(t.fate))
        else
          var rest := Call(s1, b2, r, p, turns[1..]);
          rest.(traffic := Seen(r, t) + rest.traffic, applied := n + rest.applied)
  }

  // ------------------------------------------------------------ the loop itself

  method Play(server: Server, events: seq<Services.Event>)
    modifies server
    ensures server.State() == Services.Run(old(server.State()), events)
  {
    for i := 0 to |events|
      invariant server.State() == Services.Run(old(server.State()), events[..i])
    {
      assert events[..i + 1][..i] == events[..i];
      match events[i]
      case Ask(r, now) => var answer := server.Respond(r, now);
      case Tick(now) => var expired := server.ExpireReservations(now);
    }
    assert events[..|events|] == events;
  }

  lemma SeenRun(s: Service, r: Request, t: Turn)
    ensures Services.Run(s, Seen(r, t))
         == if Reaches(t.fate) then Services.Handle(Services.Run(s, t.before), r, t.at).0 else Services.Run(s, t.before)
  {
    if Reaches(t.fate) {
      assert (t.before + [Services.Ask(r, t.at)])[..|t.before|] == t.before;
    } else {
      assert t.before + [] == t.before;
    }
  }

  /** `call`: `last_error` is overwritten by every attempt, and only the last one is raised. */
  method PerformCall(server: Server, breaker: CircuitBreaker, r: Request, p: CallPolicy, turns: seq<Turn>)
    returns (outcome: Outcome)
    requires turns != []
    modifies server, breaker
    ensures var trip := Call(old(server.State()), old(breaker.Of(p.key)), r, p, turns);
            && server.State() == trip.service && outcome == trip.outcome && breaker.Of(p.key) == trip.breaker
    ensures forall k :: k != p.key ==> breaker.Of(k) == old(breaker.Of(k))
  {
    outcome := Unavailable;
    var attempt := 0;
    while true
      invariant attempt < |turns|
      invariant forall k :: k != p.key ==> breaker.Of(k) == old(breaker.Of(k))
      invariant var whole := Call(old(server.State()), old(breaker.Of(p.key)), r, p, turns);
                var rest := Call(server.State(), breaker.Of(p.key), r, p, turns[attempt..]);
                rest.service == whole.service && rest.outcome == whole.outcome && rest.breaker == whole.breaker
      decreases |turns| - attempt
    {
      var t := turns[attempt];
      assert turns[attempt..][0] == t && turns[attempt..][1..] == turns[attempt + 1..];
      SeenRun(server.State(), r, t);
      Play(server, t.before);
      var allowed := breaker.Check(p.key, p.breaker, t.clock);
      if !allowed {
        return Unavailable;
      }
      if Reaches(t.fate) {
        var answer := server.Respond(r, t.at);
        if t.fate.Delivered? {
          breaker.RecordSuccess(p.key);
          return if answer.status < 400 then Returned(answer.reply) else Rejected(answer.status, answer.reply);
        }
      }
      breaker.RecordFailure(p.key, p.breaker, t.clock);
      outcome := ErrorOf(t.fate);
      if Final(p, t.fate) || attempt + 1 == |turns| {
        return;
      }
      attempt := attempt + 1;
    }
  }

  // ------------------------------------------------------------ what a call means

  /** Every committed record carries the status its route answers with. */
  ghost predicate RecordsOk(s: Service) {
    forall k :: k in s.records ==> s.records[k].status == Services.StatusOf(s.records[k].fingerprint)
  }

  lemma {:induction false} RunRecordsOk(s: Service, events: seq<Services.Event>)
    requires RecordsOk(s)
    ensures RecordsOk(Services.Run(s, events))
  {
    if events != [] {
      var n := |events| - 1;
      RunRecordsOk(s, events[..n]);
      if events[n].Ask? {
        Services.HandleRecords(Services.Run(s, events[..n]), events[n].request, events[n].now);
      }
    }
  }

  lemma RunOne(s: Service, events: seq<Services.Event>, e: Services.Event)
    ensures Services.Run(s, events + [e]) == Services.Next(Services.Run(s, events), e)
  {
    assert (events + [e])[..|events|] == events;
  }

  lemma RunAppendOne(s: Service, a: seq<Services.Event>, b: seq<Services.Event>, e: Services.Event)
    requires Services.Run(s, a + b) == Services.Run(Services.Run(s, a), b)
    ensures Services.Run(s, a + (b + [e])) == Services.Run(Services.Run(s, a), b + [e])
  {
    RunOne(s, a + b, e);
    RunOne(Services.Run(s, a), b, e);
    assert a + (b + [e]) == (a + b) + [e];
  }

  lemma {:induction false} RunAppend(s: Service, a: seq<Services.Event>, b: seq<Services.Event>)
    ensures Services.Run(s, a + b) == Services.Run(Services.Run(s, a), b)
  {
    if b == [] {
      assert a + b == a;
    } else {
      var init, e := b[..|b| - 1], b[|b| - 1];
      RunAppend(s, a, init);
      RunAppendOne(s, a, init, e);
      assert b == init + [e];
    }
  }

  /** Where the call ends is where its traffic leads. */
  lemma {:induction false} CallIsTraffic(s: Service, b: Breaker, r: Request, p: CallPolicy, turns: seq<Turn>)
    requires turns != []
    ensures Call(s, b, r, p, turns).service == Services.Run(s, Call(s, b, r, p, turns).traffic)
    decreases |turns|
  {
    var t := turns[0];
    var b2 := Guarded(p, Guarded(p, b, Checked(t.clock)), Failed(t.clock));
    if |turns| > 1 {
      CallIsTraffic(Services.Run(s, Seen(r, t)), b2, r, p, turns[1..]);
      RunAppend(s, Seen(r, t), Call(Services.Run(s, Seen(r, t)), b2, r, p, turns[1..]).traffic);
    }
  }

  /** A turn that applies leaves the key recorded; a recorded key is never applied again. */
  lemma TurnRecords(s: Service, r: Request, t: Turn)
    requires Services.TokenOf(r).Some?
    ensures KeyOf(r) in s.records ==>
              && AppliedBy(s, r, t) == 0 && KeyOf(r) in Services.Run(s, Seen(r, t)).records
              && Services.Run(s, Seen(r, t)).records[KeyOf(r)] == s.records[KeyOf(r)]
    ensures AppliedBy(s, r, t) == 1 ==>
              && KeyOf(r) in Services.Run(s, Seen(r, t)).records
              && Services.Run(s, Seen(r, t)).records[KeyOf(r)].fingerprint == r.body
  {
    var s1 := Services.Run(s, t.before);
    Services.AtMostOncePerKey(s, t.before, KeyOf(r));
    SeenRun(s, r, t);
    Services.RecordsOnce(s1, Services.Ask(r, t.at), KeyOf(r));
    Services.HandleRecords(s1, r, t.at);
  }

  /** However its attempts are lost, refused or answered, a keyed call applies its mutation at most once. */
  lemma {:induction false} CallAppliesAtMostOnce(s: Service, b: Breaker, r: Request, p: CallPolicy, turns: seq<Turn>)
    requires turns != [] && Services.TokenOf(r).Some?
    ensures Call(s, b, r, p, turns).applied <= if KeyOf(r) in s.records then 0 else 1
    decreases |turns|
  {
    var t := turns[0];
    TurnRecords(s, r, t);
    if |turns| > 1 {
      var b2 := Guarded(p, Guarded(p, b, Checked(t.clock)), Failed(t.clock));
      CallAppliesAtMostOnce(Services.Run(s, Seen(r, t)), b2, r, p, turns[1..]);
    }
  }

  lemma {:induction false} ReturnedIsRecorded(s: Service, b: Breaker, r: Request, p: CallPolicy, turns: seq<Turn>)
    requires turns != [] && Call(s, b, r, p, turns).outcome.Returned?
    ensures var trip := Call(s, b, r, p, turns);
            && Services.TokenOf(r).Some? && KeyOf(r) in trip.service.records
            && trip.service.records[KeyOf(r)].fingerprint == r.body
            && trip.service.records[KeyOf(r)].reply == trip.outcome.reply
    decreases |turns|
  {
    var t := turns[0];
    SeenRun(s, r, t);
    if t.fate.Delivered? {
      Services.SuccessIsStored(Services.Run(s, t.before), r, t.at);
    } else {
      var b2 := Guarded(p, Guarded(p, b, Checked(t.clock)), Failed(t.clock));
      ReturnedIsRecorded(Services.Run(s, Seen(r, t)), b2, r, p, turns[1..]);
    }
  }

  /**
   * A call under a fresh key that returns was applied exactly once in all the traffic
   * meanwhile, and it returns the body stored by that application.
   */
  lemma SuccessIsExactlyOnce(s: Service, b: Breaker, r: Request, p: CallPolicy, turns: seq<Turn>)
    requires turns != [] && Services.TokenOf(r).Some? && KeyOf(r) !in s.records
    requires Call(s, b, r, p, turns).outcome.Returned?
    ensures var trip := Call(s, b, r, p, turns);
            && trip.service == Services.Run(s, trip.traffic)
            && Services.Applied(s, trip.traffic, KeyOf(r)) == 1 && KeyOf(r) in trip.service.records
            && trip.service.records[KeyOf(r)].fingerprint == r.body
            && trip.service.records[KeyOf(r)].reply == trip.outcome.reply
  {
    CallIsTraffic(s, b, r, p, turns);
    ReturnedIsRecorded(s, b, r, p, turns);
    Services.AtMostOncePerKey(s, Call(s, b, r, p, turns).traffic, KeyOf(r));
  }

  /** Once the key is recorded with this body, an answer is the stored one, so it is no rejection. */
  lemma {:induction false} RecordedIsNotRejected(s: Service, b: Breaker, r: Request, p: CallPolicy, turns: seq<Turn>)
    requires turns != [] && Services.TokenOf(r).Some? && RecordsOk(s) && Services.Validated(r.body)
    requires KeyOf(r) in s.records && s.records[KeyOf(r)].fingerprint == r.body
    ensures !Call(s, b, r, p, turns).outcome.Rejected?
    decreases |turns|
  {
    var t := turns[0];
    TurnRecords(s, r, t);
    RunRecordsOk(s, t.before);
    RunRecordsOk(s, Seen(r, t));
    Services.RecordedKeyReplays(s, t.before, KeyOf(r), r, t.at);
    if |turns| > 1 {
      var b2 := Guarded(p, Guarded(p, b, Checked(t.clock)), Failed(t.clock));
      RecordedIsNotRejected(Services.Run(s, Seen(r, t)), b2, r, p, turns[1..]);
    }
  }

  /** A rejecting answer was not an application. */
  lemma RejectingTurn(s: Service, r: Request, t: Turn)
    requires Services.TokenOf(r).Some? && t.fate.Delivered?
    requires Services.Handle(Services.Run(s, t.before), r, t.at).1.status >= 400
    ensures AppliedBy(s, r, t) == 0
  {}

  /** A turn that applied leaves the rest of the call nothing to be rejected for. */
  lemma NoRejectionAfter(s: Service, b: Breaker, r: Request, p: CallPolicy, t: Turn, rest: seq<Turn>)
    requires rest != [] && Services.TokenOf(r).Some? && RecordsOk(s) && AppliedBy(s, r, t) == 1
    ensures !Call(Services.Run(s, Seen(r, t)), b, r, p, rest).outcome.Rejected?
  {
    TurnRecords(s, r, t);
    RunRecordsOk(s, Seen(r, t));
    RecordedIsNotRejected(Services.Run(s, Seen(r, t)), b, r, p, rest);
  }

  /** A rejected call applied nothing, in any of its attempts. */
  lemma {:induction false} RejectedIsNotApplied(s: Service, b: Breaker, r: Request, p: CallPolicy, turns: seq<Turn>)
    requires turns != [] && Services.TokenOf(r).Some? && RecordsOk(s)
    requires Call(s, b, r, p, turns).outcome.Rejected?
    ensures Call(s, b, r, p, turns).applied == 0
    decreases |turns|
  {
    var t := turns[0];
    if t.fate.Delivered? {
      RejectingTurn(s, r, t);
    } else {
      var b2 := Guarded(p, Guarded(p, b, Checked(t.clock)), Failed(t.clock));
      if AppliedBy(s, r, t) == 1 {
        NoRejectionAfter(s, b2, r, p, t, turns[1..]);
      }
      RunRecordsOk(s, Seen(r, t));
      RejectedIsNotApplied(Services.Run(s, Seen(r, t)), b2, r, p, turns[1..]);
    }
  }

  // ------------------------------------------------------------ "unavailable" means unapplied, exactly

  /** No connection is aborted after the service handled its request. */
  predicate CleanlyConnected(turns: seq<Turn>) {
    forall k :: 0 <= k < |turns| ==> turns[k].fate != ConnectionLost(true)
  }

  /**
   * Whatever the state, the request and the traffic, a call raised as Unavailable applied
   * nothing; `aborts` says whether the network may abort a connection after its request.
   */
  ghost predicate UnavailableMeansUnapplied(p: CallPolicy, attempts: nat, aborts: bool)
    requires attempts >= 1
  {
    forall s, b, r, turns ::
      |turns| == attempts && (aborts || CleanlyConnected(turns)) && Call(s, b, r, p, turns).outcome == Unavailable ==>
        Call(s, b, r, p, turns).applied == 0
  }

  /** Attempts that never connect end Unavailable, whether or not the breaker opens on the way. */
  lemma {:induction false} NeverConnectedIsUnavailable(s: Service, b: Breaker, r: Request, p: CallPolicy, turns: seq<Turn>)
    requires turns != [] && forall k :: 0 <= k < |turns| ==> turns[k].fate == NeverConnected
    ensures Call(s, b, r, p, turns).outcome == Unavailable
    decreases |turns|
  {
    var t := turns[0];
    if |turns| > 1 {
      var b2 := Guarded(p, Guarded(p, b, Checked(t.clock)), Failed(t.clock));
      NeverConnectedIsUnavailable(Services.Run(s, Seen(r, t)), b2, r, p, turns[1..]);
    }
  }

  /** A read timeout whose request was handled, then attempts that never connect. */
  function LostReplyThenDown(attempts: nat): seq<Turn>
    requires attempts >= 1
  {
    [Turn([], ReadTimeout(true), 0.0, 0)] + seq(attempts - 1, i => Turn([], NeverConnected, 0.0, 0))
  }

  /** Any request that would apply can be applied by a call that says it never reached the service. */
  lemma LostReplyMisreported(s: Service, r: Request, p: CallPolicy, attempts: nat)
    requires attempts >= 2 && Services.TokenOf(r).Some? && Services.Applies(s, Services.Ask(r, 0), KeyOf(r))
    ensures var trip := Call(s, CLOSED, r, p, LostReplyThenDown(attempts));
            trip.outcome == Unavailable && trip.applied == 1
  {
    var turns := LostReplyThenDown(attempts);
    var t := turns[0];
    assert Services.Run(s, []) == s;
    assert AppliedBy(s, r, t) == 1;
    var b2 := Guarded(p, Guarded(p, CLOSED, Checked(t.clock)), Failed(t.clock));
    NeverConnectedIsUnavailable(Services.Run(s, Seen(r, t)), b2, r, p, turns[1..]);
    CallAppliesAtMostOnce(s, CLOSED, r, p, turns);
  }

  /** A release of a group nobody reserved, as a witness that applies. */
  lemma ReleaseApplies()
    ensures var s := Services.Service(Book(map[], [], []), map[]);
            Services.Applies(s, Services.Ask(Services.ReleaseRequest(Minted(0)), 0), KeyOf(Services.ReleaseRequest(Minted(0))))
  {}

  /** A single attempt whose connection is aborted after its request was handled. */
  lemma AbortMisreported(s: Service, r: Request, p: CallPolicy)
    requires Services.TokenOf(r).Some? && Services.Applies(s, Services.Ask(r, 0), KeyOf(r))
    ensures var trip := Call(s, CLOSED, r, p, [Turn([], ConnectionLost(true), 0.0, 0)]);
            trip.outcome == Unavailable && trip.applied == 1
  {
    assert Services.Run(s, []) == s;
  }

  /** One attempt that ends Unavailable over a clean network never reached the service. */
  lemma OneAttempt(s: Service, b: Breaker, r: Request, p: CallPolicy, turns: seq<Turn>)
    requires |turns| == 1 && CleanlyConnected(turns) && Call(s, b, r, p, turns).outcome == Unavailable
    ensures Call(s, b, r, p, turns).applied == 0
  {
    assert turns[0].fate != ConnectionLost(true);
  }

  /**
   * `ServiceUnavailable` promises that no state changed. The promise holds exactly when
   * the policy makes one attempt and the network never aborts a connection after its
   * request: the loop keeps only the last error, and takes every ConnectionError for one
   * that was never made.
   */
  lemma UnavailableExactly(p: CallPolicy, attempts: nat, aborts: bool)
    requires attempts >= 1
    ensures UnavailableMeansUnapplied(p, attempts, aborts) <==> attempts == 1 && !aborts
  {
    var s, r := Services.Service(Book(map[], [], []), map[]), Services.ReleaseRequest(Minted(0));
    ReleaseApplies();
    if attempts >= 2 {
      LostReplyMisreported(s, r, p, attempts);
      assert CleanlyConnected(LostReplyThenDown(attempts));
    } else if aborts {
      AbortMisreported(s, r, p);
    } else {
      forall s, b, r, turns | |turns| == 1 && CleanlyConnected(turns) && Call(s, b, r, p, turns).outcome == Unavailable
        ensures Call(s, b, r, p, turns).applied == 0
      {
        OneAttempt(s, b, r, p, turns);
      }
    }
  }
}
