/**
 The Mini App's session holder: one token in memory, one request in flight, one heartbeat timer
 (birr-track-miniapp/src/api/http/session.ts).
 */
module ClientSession {
  import opened Common

  type TimerId = nat

  type RequestId = nat

  /** The fields of an auth response that the session acts on; tokens are opaque. */
  datatype Auth = Auth(
    accessToken: nat, sessionId: nat, refreshToken: nat,
    accessTokenExpiresAt: int, sessionIdleExpiresAt: int, language: string)

  /** POST /auth/telegram, /auth/refresh and /auth/logout. */
  datatype Request = Exchange | Refresh(sessionId: nat, refreshToken: nat) | Logout(sessionId: nat, refreshToken: nat)

  /**
   The session and its surroundings: `requests` are those without an answer yet, `timers` the
   pending ones with the millisecond at which they are due.
   */
  datatype Client = Client(
    token: Option<nat>, auth: Option<Auth>, inFlight: Option<RequestId>, heartbeatId: Option<TimerId>, listening: bool,
    visible: bool, clock: nat,
    timers: map<TimerId, nat>, nextTimer: TimerId,
    requests: map<RequestId, Request>, nextRequest: RequestId)

  /** Seconds until the next heartbeat. */
  function RefreshIn(now: int, idleExpiresAt: int, accessExpiresAt: int): (delay: nat)
    ensures delay >= 30
  {
    Max(30, Min(idleExpiresAt - now - 300, accessExpiresAt - now - 60))
  }

  // ---------------------------------------------------------- the operations, as functions

  function Cleared(c: Client): Client {
    c.(token := None, auth := None, heartbeatId := None,
       timers := if c.heartbeatId.Some? then c.timers - {c.heartbeatId.value} else c.timers)
  }

  function Scheduled(c: Client): Client {
    if c.auth.None? || !c.visible then c
    else
      var due := c.clock + 1000 * RefreshIn(c.clock / 1000, c.auth.value.sessionIdleExpiresAt,
                                            c.auth.value.accessTokenExpiresAt);
      var rest := if c.heartbeatId.Some? then c.timers - {c.heartbeatId.value} else c.timers;
      c.(heartbeatId := Some(c.nextTimer), timers := rest[c.nextTimer := due], nextTimer := c.nextTimer + 1)
  }

  function SetAuth(c: Client, auth: Auth): Client {
    Scheduled(c.(token := Some(auth.accessToken), auth := Some(auth), listening := true))
  }

  function Sent(c: Client, request: Request): Client {
    c.(requests := c.requests[c.nextRequest := request], nextRequest := c.nextRequest + 1)
  }

  function Exchanged(c: Client): Client {
    if c.inFlight.Some? then c else Sent(c, Exchange).(inFlight := Some(c.nextRequest))
  }

  function Ensured(c: Client): Client { if c.auth.Some? then c else Exchanged(c) }

  function Refreshed(c: Client): Client {
    if c.inFlight.Some? then c
    else if c.auth.None? then Exchanged(c)
    else Sent(c, Refresh(c.auth.value.sessionId, c.auth.value.refreshToken)).(inFlight := Some(c.nextRequest))
  }

  function LoggedOut(c: Client): Client {
    if c.auth.None? then Cleared(c) else Sent(Cleared(c), Logout(c.auth.value.sessionId, c.auth.value.refreshToken))
  }

  function LanguageSet(c: Client, language: string): Client {
    if c.auth.Some? then c.(auth := Some(c.auth.value.(language := language))) else c
  }

  /** What the answer to a request does; nobody listens to the answer of a logout. */
  datatype Outcome = Success(auth: Auth) | Refusal | NoAnswer

  function Settled(c: Client, id: RequestId, outcome: Outcome): Client
    requires id in c.requests
  {
    var request := c.requests[id];
    var done := c.(requests := c.requests - {id});
    if request.Logout? then done
    else
      var applied := match outcome
        case Success(auth) => SetAuth(done, auth)
        case Refusal => if request.Refresh? then Cleared(done) else done
        case NoAnswer => done;
      applied.(inFlight := None)
  }

  /** The visibility listener, once there is one. */
  function Shown(c: Client, visible: bool): Client {
    var seen := c.(visible := visible);
    if !c.listening then seen
    else if visible then Scheduled(seen)
    else if c.heartbeatId.Some? then seen.(timers := c.timers - {c.heartbeatId.value}, heartbeatId := None)
    else seen
  }

  function Fired(c: Client, id: TimerId): Client {
    var rung := c.(timers := c.timers - {id});
    if c.visible then Refreshed(rung) else rung
  }

  // ----------------------------------------------------------------------------- the class

  class AuthSession {
    var token: Option<nat>
    var auth: Option<Auth>
    var inFlight: Option<RequestId>
    var heartbeatId: Option<TimerId>
    var visibilityListenerAttached: bool
    var visible: bool
    var clock: nat
    var timers: map<TimerId, nat>
    var nextTimer: TimerId
    var requests: map<RequestId, Request>
    var nextRequest: RequestId

    function State(): Client
      reads this
    {
      Client(token, auth, inFlight, heartbeatId, visibilityListenerAttached, visible, clock, timers, nextTimer,
             requests, nextRequest)
    }

    constructor (visible: bool, clock: nat)
      ensures State() == Start(visible, clock)
    {
      token, auth, inFlight, heartbeatId := None, None, None, None;
      this.visible, this.clock, visibilityListenerAttached := visible, clock, false;
      timers, nextTimer, requests, nextRequest := map[], 0, map[], 0;
    }

    method Ensure()
      modifies this
      ensures State() == Ensured(old(State()))
    {
      if auth.Some? {
        return;
      }
      AuthenticateFromTelegram();
    }

    method AuthenticateFromTelegram()
      modifies this
      ensures State() == Exchanged(old(State()))
    {
      if inFlight.Some? {
        return;
      }
      inFlight := Some(nextRequest);
      Post(Exchange);
    }

    method Post(request: Request)
      modifies this`requests, this`nextRequest
      ensures State() == Sent(old(State()), request)
    {
      requests := requests[nextRequest := request];
      nextRequest := nextRequest + 1;
    }

    method Refresh()
      modifies this
      ensures State() == Refreshed(old(State()))
    {
      if inFlight.Some? {
        return;
      }
      if auth.None? {
        AuthenticateFromTelegram();
        return;
      }
      inFlight := Some(nextRequest);
      Post(Request.Refresh(auth.value.sessionId, auth.value.refreshToken));
    }

    method Logout()
      modifies this
      ensures State() == LoggedOut(old(State()))
    {
      var leaving := auth;
      Clear();
      if leaving.Some? {
        Post(Request.Logout(leaving.value.sessionId, leaving.value.refreshToken));
      }
    }

    method Clear()
      modifies this
      ensures State() == Cleared(old(State()))
    {
      token := None;
      auth := None;
      if heartbeatId.Some? {
        timers := timers - {heartbeatId.value};
        heartbeatId := None;
      }
    }

    method SetLanguage(language: string)
      modifies this`auth
      ensures State() == LanguageSet(old(State()), language)
    {
      if auth.Some? {
        auth := Some(auth.value.(language := language));
      }
    }

    /** The rest of a request, from its answer on. */
    method Settle(id: RequestId, outcome: Outcome)
      requires id in requests
      modifies this
      ensures State() == Settled(old(State()), id, outcome)
    {
      var request := requests[id];
      requests := requests - {id};
      if request.Logout? {
        return;
      }
      if outcome.Success? {
        InstallAuth(outcome.auth);
      } else if outcome.Refusal? && request.Refresh? {
        Clear();
      }
      inFlight := None;
    }

    method InstallAuth(response: Auth)
      modifies this
      ensures State() == SetAuth(old(State()), response)
    {
      token := Some(response.accessToken);
      auth := Some(response);
      visibilityListenerAttached := true;
      ScheduleHeartbeat();
    }

    method ScheduleHeartbeat()
      modifies this
      ensures State() == Scheduled(old(State()))
    {
      if auth.None? || !visible {
        return;
      }
      if heartbeatId.Some? {
        timers := timers - {heartbeatId.value};
      }
      var now := clock / 1000;
      var secondsUntilIdle := auth.value.sessionIdleExpiresAt - now;
      var secondsUntilAccessExpiry := auth.value.accessTokenExpiresAt - now;
      var refreshInSeconds := Max(30, Min(secondsUntilIdle - 300, secondsUntilAccessExpiry - 60));
      timers := timers[nextTimer := clock + refreshInSeconds * 1000];
      heartbeatId := Some(nextTimer);
      nextTimer := nextTimer + 1;
    }

    method ChangeVisibility(nowVisible: bool)
      modifies this
      ensures State() == Shown(old(State()), nowVisible)
    {
      visible := nowVisible;
      if visibilityListenerAttached {
        if visible {
          ScheduleHeartbeat();
        } else if heartbeatId.Some? {
          timers := timers - {heartbeatId.value};
          heartbeatId := None;
        }
      }
    }

    method TimerFires(id: TimerId)
      modifies this
      ensures State() == Fired(old(State()), id)
    {
      timers := timers - {id};
      if visible {
        Refresh();
      }
    }
  }

  // ------------------------------------------------------------------------------ runs

  datatype Step =
    | Ensures
    | Refreshes
    | LogsOut
    | SetsLanguage(language: string)
    | Settles(id: RequestId, outcome: Outcome)
    | Shows(visible: bool)
    | Fires(timer: TimerId)
    | Waits(ms: nat)

  predicate Enabled(c: Client, step: Step) {
    match step
    case Settles(id, _) => id in c.requests
    case Fires(timer) => timer in c.timers && c.timers[timer] <= c.clock
    case _ => true
  }

  function Next(c: Client, step: Step): Client
    requires Enabled(c, step)
  {
    match step
    case Ensures => Ensured(c)
    case Refreshes => Refreshed(c)
    case LogsOut => LoggedOut(c)
    case SetsLanguage(language) => LanguageSet(c, language)
    case Settles(id, outcome) => Settled(c, id, outcome)
    case Shows(visible) => Shown(c, visible)
    case Fires(timer) => Fired(c, timer)
    case Waits(ms) => c.(clock := c.clock + ms)
  }

  predicate Runs(c: Client, steps: seq<Step>)
    decreases |steps|
  {
    steps == [] || (Enabled(c, steps[0]) && Runs(Next(c, steps[0]), steps[1..]))
  }

  function After(c: Client, steps: seq<Step>): Client
    requires Runs(c, steps)
    decreases |steps|
  {
    if steps == [] then c else After(Next(c, steps[0]), steps[1..])
  }

  function Start(visible: bool, clock: nat): Client {
    Client(None, None, None, None, false, visible, clock, map[], 0, map[], 0)
  }

  /** The token is the one of `auth`. */
  predicate TokenOk(c: Client) {
    c.token == if c.auth.Some? then Some(c.auth.value.accessToken) else None
  }

  /** At most one timer is pending, the one that `heartbeatId` names, and only for a visible signed-in client. */
  predicate TimersOk(c: Client) {
    && (c.heartbeatId.Some? ==> c.heartbeatId.value < c.nextTimer)
    && (forall id :: id in c.timers ==> c.heartbeatId == Some(id))
    && (c.timers != map[] ==> c.auth.Some? && c.visible)
    && (c.auth.Some? ==> c.listening)
  }

  /** At most one exchange or refresh is on its way, the one that `inFlight` names. */
  predicate RequestsOk(c: Client) {
    && (forall id :: id in c.requests ==> id < c.nextRequest)
    && (forall id :: id in c.requests && !c.requests[id].Logout? ==> c.inFlight == Some(id))
    && (c.inFlight.Some? ==> c.inFlight.value in c.requests && !c.requests[c.inFlight.value].Logout?)
    && (c.inFlight.Some? && c.requests[c.inFlight.value].Exchange? ==> c.auth.None?)
  }

  predicate Inv(c: Client) { TokenOk(c) && TimersOk(c) && RequestsOk(c) }

  lemma SettledKeepsInv(c: Client, id: RequestId, outcome: Outcome)
    requires Inv(c) && id in c.requests
    ensures Inv(Settled(c, id, outcome))
  {
  }

  lemma StepKeepsInv(c: Client, step: Step)
    requires Inv(c) && Enabled(c, step)
    ensures Inv(Next(c, step))
  {
    if step.Settles? {
      SettledKeepsInv(c, step.id, step.outcome);
    }
  }

  lemma {:induction false} RunKeepsInv(c: Client, steps: seq<Step>)
    requires Inv(c) && Runs(c, steps)
    ensures Inv(After(c, steps))
    decreases |steps|
  {
    if steps != [] {
      StepKeepsInv(c, steps[0]);
      RunKeepsInv(Next(c, steps[0]), steps[1..]);
    }
  }

  /** The request that a step sends: at most one, and none while one is under way. */
  function Sends(c: Client, step: Step): Option<Request> {
    var renewal :=
      if c.auth.Some? then Request.Refresh(c.auth.value.sessionId, c.auth.value.refreshToken) else Exchange;
    match step
    case Ensures => if c.auth.None? && c.inFlight.None? then Some(Exchange) else None
    case Refreshes => if c.inFlight.None? then Some(renewal) else None
    case Fires(_) => if c.visible && c.inFlight.None? then Some(renewal) else None
    case LogsOut =>
      if c.auth.Some? then Some(Request.Logout(c.auth.value.sessionId, c.auth.value.refreshToken)) else None
    case _ => None
  }

  /** The session that a step leaves: it comes with an answer and goes with a refused refresh or a logout. */
  function Leaves(c: Client, step: Step): Option<Auth>
    requires Enabled(c, step)
  {
    match step
    case LogsOut => None
    case SetsLanguage(language) => if c.auth.Some? then Some(c.auth.value.(language := language)) else None
    case Settles(id, outcome) =>
      if c.requests[id].Logout? then c.auth
      else if outcome.Success? then Some(outcome.auth)
      else if outcome.Refusal? && c.requests[id].Refresh? then None
      else c.auth
    case _ => c.auth
  }

  /** Every step sends what it should and leaves the session that it should. */
  lemma StepsSendAndLeaveExactly(c: Client, step: Step)
    requires Inv(c) && Enabled(c, step)
    ensures var d := Next(c, step);
            && d.auth == Leaves(c, step)
            && d.requests == (match Sends(c, step)
                              case Some(request) => c.requests[c.nextRequest := request]
                              case None => if step.Settles? then c.requests - {step.id} else c.requests)
            && d.visible == (if step.Shows? then step.visible else c.visible)
  {
  }

  /** However many callers ask, one exchange or refresh is on its way at a time. */
  lemma OneRequestAtATime(visible: bool, clock: nat, steps: seq<Step>, a: RequestId, b: RequestId)
    requires Runs(Start(visible, clock), steps)
    requires var c := After(Start(visible, clock), steps);
             a in c.requests && b in c.requests && !c.requests[a].Logout? && !c.requests[b].Logout?
    ensures a == b
  {
    RunKeepsInv(Start(visible, clock), steps);
  }

  // ------------------------------------------------------------------------------ the heartbeat

  /** A visible signed-in client has a heartbeat to come or a request under way. */
  predicate Beats(c: Client) { c.auth.Some? && c.visible ==> c.timers != map[] || c.inFlight.Some? }

  /** The one request under way ends without an answer while no timer is pending. */
  predicate LosesBeat(c: Client, step: Step) {
    && step.Settles? && c.inFlight == Some(step.id) && step.outcome.NoAnswer?
    && c.auth.Some? && c.visible && c.timers == map[]
  }

  predicate BeatsThroughout(c: Client, steps: seq<Step>)
    requires Runs(c, steps)
    decreases |steps|
  {
    Beats(c) && (steps == [] || BeatsThroughout(Next(c, steps[0]), steps[1..]))
  }

  predicate LosesNoBeat(c: Client, steps: seq<Step>)
    requires Runs(c, steps)
    decreases |steps|
  {
    steps == [] || (!LosesBeat(c, steps[0]) && LosesNoBeat(Next(c, steps[0]), steps[1..]))
  }

  /** The heart beats throughout a run exactly if no request ends unanswered while no timer is pending. */
  lemma {:induction false} HeartbeatLastsExactlyIf(c: Client, steps: seq<Step>)
    requires Inv(c) && Beats(c) && Runs(c, steps)
    ensures BeatsThroughout(c, steps) <==> LosesNoBeat(c, steps)
    decreases |steps|
  {
    if steps != [] {
      StepKeepsInv(c, steps[0]);
      if Beats(Next(c, steps[0])) {
        HeartbeatLastsExactlyIf(Next(c, steps[0]), steps[1..]);
      }
    }
  }

  lemma {:induction false} BeatsAtTheEnd(c: Client, steps: seq<Step>)
    requires Runs(c, steps) && BeatsThroughout(c, steps)
    ensures Beats(After(c, steps))
    decreases |steps|
  {
    if steps != [] {
      BeatsAtTheEnd(Next(c, steps[0]), steps[1..]);
    }
  }

  /** In such runs a visible signed-in client has one timer, or a request under way. */
  lemma HeartbeatNeverDropsSilently(visible: bool, clock: nat, steps: seq<Step>)
    requires Runs(Start(visible, clock), steps) && LosesNoBeat(Start(visible, clock), steps)
    ensures var c := After(Start(visible, clock), steps);
            && |c.timers| <= 1 && (c.timers != map[] ==> c.auth.Some? && c.visible)
            && (c.token.Some? <==> c.auth.Some?)
            && (c.token.Some? && c.visible && c.inFlight.None? ==> |c.timers| == 1)
  {
    RunKeepsInv(Start(visible, clock), steps);
    HeartbeatLastsExactlyIf(Start(visible, clock), steps);
    BeatsAtTheEnd(Start(visible, clock), steps);
    var c := After(Start(visible, clock), steps);
    if c.timers != map[] {
      assert c.heartbeatId.Some? && c.timers.Keys == {c.heartbeatId.value};
    }
  }

  /** A signed-in client whose heartbeat has just fired: the timer is gone, its refresh under way. */
  lemma {:induction false} HeartbeatFires(clock: nat) returns (steps: seq<Step>, c: Client)
    ensures Runs(Start(true, clock), steps) && c == After(Start(true, clock), steps)
    ensures c.auth.Some? && c.visible && c.timers == map[] && c.inFlight == Some(1) && 1 in c.requests
            && c.requests[1].Refresh?
  {
    var auth := Auth(0, 0, 0, 0, 0, "en");
    var c1 := Next(Start(true, clock), Ensures);
    var c2 := Next(c1, Settles(0, Success(auth)));
    var c3 := Next(c2, Waits(30000));
    assert c2.timers == map[0 := clock + 30000];
    c := Next(c3, Fires(0));
    steps := [Ensures, Settles(0, Success(auth)), Waits(30000), Fires(0)];
    assert c.timers == map[];
    assert Runs(c, []) && After(c, []) == c;
    assert steps[3..][1..] == [] && steps[2..][1..] == steps[3..] && steps[1..][1..] == steps[2..];
    assert Runs(c3, steps[3..]) && After(c3, steps[3..]) == c;
    assert Runs(c2, steps[2..]) && After(c2, steps[2..]) == c;
    assert Runs(c1, steps[1..]) && After(c1, steps[1..]) == c;
  }

  /** Unanswered, that was the last: the client stays visible and signed in with nothing to come. */
  lemma UnansweredHeartbeatIsTheLast(clock: nat)
    ensures exists steps, id ::
              && Runs(Start(true, clock), steps)
              && var c := After(Start(true, clock), steps);
                 Enabled(c, Settles(id, NoAnswer)) && LosesBeat(c, Settles(id, NoAnswer))
                   && !Beats(Next(c, Settles(id, NoAnswer)))
  {
    var steps, c := HeartbeatFires(clock);
    RunKeepsInv(Start(true, clock), steps);
    assert Enabled(c, Settles(1, NoAnswer)) && LosesBeat(c, Settles(1, NoAnswer));
  }

  // ------------------------------------------------------------------------------ logging out

  /** Steps that ask for no new token. */
  predicate Passive(step: Step) { !step.Ensures? && !step.Refreshes? }

  predicate SignedOut(c: Client) {
    && c.auth.None? && c.token.None? && c.inFlight.None? && c.timers == map[]
    && forall id :: id in c.requests ==> c.requests[id].Logout?
  }

  lemma {:induction false} SignedOutStays(c: Client, steps: seq<Step>)
    requires SignedOut(c) && Runs(c, steps) && forall i :: 0 <= i < |steps| ==> Passive(steps[i])
    ensures After(c, steps).auth.None?
    decreases |steps|
  {
    if steps != [] {
      assert Passive(steps[0]);
      SignedOutStays(Next(c, steps[0]), steps[1..]);
    }
  }

  /** No run without a call for a token signs the client in again. */
  ghost predicate StaysSignedOut(c: Client) {
    forall steps :: Runs(c, steps) && (forall i :: 0 <= i < |steps| ==> Passive(steps[i])) ==>
      After(c, steps).auth.None?
  }

  /**
   Logging out lasts exactly if no exchange or refresh is on its way at that moment: the answer
   of one that is signs the client in again.
   */
  lemma LogoutLastsExactlyIf(c: Client)
    requires Inv(c)
    ensures StaysSignedOut(LoggedOut(c)) <==> c.inFlight.None?
  {
    var out := LoggedOut(c);
    if c.inFlight.None? {
      forall steps | Runs(out, steps) && (forall i :: 0 <= i < |steps| ==> Passive(steps[i]))
        ensures After(out, steps).auth.None?
      {
        SignedOutStays(out, steps);
      }
    } else {
      var late := [Settles(c.inFlight.value, Success(Auth(0, 0, 0, 0, 0, "en")))];
      assert c.inFlight.value in out.requests;
      assert Runs(Next(out, late[0]), late[1..]);
      assert After(out, late) == Next(out, late[0]);
    }
  }
}
