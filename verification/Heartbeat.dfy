/**
 The client's heartbeats against the server's two session expiries: one closed loop over one
 clock, a millisecond at a time. Timers fire when due and answers come at once
 (birr-track-miniapp/src/api/http/session.ts, birr-track-backend/src/auth/auth.service.ts).
 */
module Heartbeat {
  import opened Common
  import opened AdminPanelSessions
  import opened ClientSession
  import SessionHistory

  /** The server's side: its lifetimes, the digest of refresh tokens and the access tokens it mints. */
  datatype Server = Server(life: Lifetimes, digest: nat -> nat, mint: (nat, int) -> nat)

  /** `beats` counts the heartbeats that fired. */
  datatype Loop = Loop(store: Store, client: Client, beats: nat)

  /** The response to a login or a renewal at second `now`. */
  function Response(server: Server, now: int, sid: SessionId, refreshToken: nat, record: SessionRecord): Auth {
    Auth(server.mint(sid, now), sid, refreshToken, now + server.life.accessTtl, record.idleExpiresAt, "en")
  }

  /** Answers the client's refresh, if it has sent one. */
  function Served(server: Server, store: Store, client: Client): (Store, Client) {
    if client.inFlight.None? || client.inFlight.value !in client.requests then (store, client)
    else
      var id := client.inFlight.value;
      match client.requests[id]
      case Refresh(sid, token) =>
        var (after, outcome) := Renewed(store, server.life, sid, server.digest(token));
        (match outcome
         case Ok(record) => (after, Settled(client, id, Success(Response(server, store.Now(), sid, token, record))))
         case Err(_) => (after, Settled(client, id, Refusal)))
      case _ => (store, client)
  }

  /** One millisecond goes by. */
  function Passed(l: Loop): Loop {
    l.(store := l.store.(clock := l.store.clock + 1), client := l.client.(clock := l.client.clock + 1))
  }

  predicate Due(c: Client) {
    c.heartbeatId.Some? && c.heartbeatId.value in c.timers && c.timers[c.heartbeatId.value] <= c.clock
  }

  /** A due heartbeat fires; `forced` is a refresh that a call made after a 401. */
  function Reacted(server: Server, l: Loop, forced: bool): Loop {
    if Due(l.client) then
      var (store, client) := Served(server, l.store, Fired(l.client, l.client.heartbeatId.value));
      Loop(store, client, l.beats + 1)
    else if forced then
      var (store, client) := Served(server, l.store, Refreshed(l.client));
      Loop(store, client, l.beats)
    else l
  }

  function Tick(server: Server, l: Loop, forced: bool): Loop { Reacted(server, Passed(l), forced) }

  function Ticks(server: Server, l: Loop, forced: seq<bool>): Loop
    decreases |forced|
  {
    if forced == [] then l else Ticks(server, Tick(server, l, forced[0]), forced[1..])
  }

  /** A login: the service creates the session and the visible client takes the response. */
  datatype Login = Login(store: Store, client: Client, sid: SessionId, refreshToken: nat, payload: SessionPayload) {
    ghost predicate Valid() {
      && client.clock == store.clock && ClientSession.Inv(client) && client.visible
      && client.inFlight.Some? && client.requests[client.inFlight.value].Exchange?
    }

    function Now(): int { store.clock / 1000 }
  }

  function Begin(server: Server, login: Login): Loop
    requires login.client.inFlight.Some? && login.client.inFlight.value in login.client.requests
  {
    var record := NewRecord(server.life, login.Now(), server.digest(login.refreshToken), login.payload);
    Loop(
      Created(login.store, server.life, login.sid, server.digest(login.refreshToken), login.payload),
      Settled(login.client, login.client.inFlight.value,
              Success(Response(server, login.Now(), login.sid, login.refreshToken, record))),
      0)
  }

  /** What the guard asks of the client's token and its session. */
  predicate Admitted(l: Loop, sid: SessionId) {
    l.client.auth.Some? && l.store.Now() <= l.client.auth.value.accessTokenExpiresAt && l.store.Active(sid)
  }

  // ------------------------------------------------------------------------- invariant

  /** Record, response and timer all date from the last renewal. */
  predicate Alive(server: Server, login: Login, l: Loop) {
    && l.client.clock == l.store.clock && l.client.visible && l.client.inFlight.None?
    && l.client.auth.Some? && l.client.auth.value.sessionId == login.sid
    && l.client.auth.value.refreshToken == login.refreshToken
    && login.sid in l.store.records
    && var kept := l.store.records[login.sid];
       var auth := l.client.auth.value;
       && RecordOk(server.life, kept, l.store.Now())
       && kept.value.refreshTokenHash == server.digest(login.refreshToken) && kept.value.createdAt == login.Now()
       && auth.sessionIdleExpiresAt == kept.value.idleExpiresAt
       && auth.accessTokenExpiresAt == kept.value.lastRenewedAt + server.life.accessTtl
       && 30 * l.beats <= kept.value.lastRenewedAt - login.Now()
       && OnTime(l.client, kept.value.lastRenewedAt)
  }

  /** The one timer is due the computed delay after the last renewal. */
  predicate OnTime(c: Client, renewedAt: int)
    requires c.auth.Some?
  {
    && c.heartbeatId.Some? && c.timers.Keys == {c.heartbeatId.value} && c.heartbeatId.value < c.nextTimer
    && c.timers[c.heartbeatId.value] / 1000 ==
       renewedAt + RefreshIn(renewedAt, c.auth.value.sessionIdleExpiresAt, c.auth.value.accessTokenExpiresAt)
    && c.clock <= c.timers[c.heartbeatId.value]
  }

  /** The server refused a renewal: the client has nothing left, and the session is over. */
  predicate Over(server: Server, login: Login, l: Loop) {
    && l.client.clock == l.store.clock && l.client.auth.None? && l.client.timers == map[]
    && (l.client.inFlight.Some? ==>
        l.client.inFlight.value in l.client.requests && l.client.requests[l.client.inFlight.value].Exchange?)
    && !l.store.Active(login.sid)
    && 30 * (l.beats - 1) < server.life.maxTtl
    && (server.life.idleTtl > 30 || server.life.maxTtl <= server.life.idleTtl ==>
        login.Now() + server.life.maxTtl <= l.store.Now())
  }

  predicate LoopOk(server: Server, login: Login, l: Loop) {
    (Alive(server, login, l) && !Due(l.client)) || Over(server, login, l)
  }

  /** A successful answer leaves the client with the response and one timer, counted from now. */
  lemma SuccessSchedules(c: Client, id: RequestId, auth: Auth)
    requires id in c.requests && !c.requests[id].Logout? && c.visible
    requires c.heartbeatId.Some? ==> c.heartbeatId.value < c.nextTimer
    requires forall t :: t in c.timers ==> c.heartbeatId == Some(t)
    ensures var d := Settled(c, id, Success(auth));
            && d.auth == Some(auth) && d.clock == c.clock && d.visible && d.inFlight.None?
            && OnTime(d, c.clock / 1000) && !Due(d)
  {
    var d := Settled(c, id, Success(auth));
    assert d.heartbeatId == Some(c.nextTimer);
    assert d.timers.Keys == {c.nextTimer};
  }

  /** The server answers the refresh: with a renewal while the session is active, else by ending it. */
  lemma ServedIsOk(server: Server, login: Login, l: Loop, c: Client, beats: nat)
    requires server.life.Valid() && Alive(server, login, l)
    requires c == Refreshed(l.client) || (Due(l.client) && c == Fired(l.client, l.client.heartbeatId.value))
    requires 30 * beats <= l.store.Now() - login.Now()
             && 30 * (beats - 1) <= l.store.records[login.sid].value.lastRenewedAt - login.Now()
    ensures LoopOk(server, login, Loop(Served(server, l.store, c).0, Served(server, l.store, c).1, beats))
  {
    if l.store.Active(login.sid) {
      GrantedIsAlive(server, login, l, c, beats);
    }
  }

  lemma GrantedIsAlive(server: Server, login: Login, l: Loop, c: Client, beats: nat)
    requires server.life.Valid() && Alive(server, login, l) && l.store.Active(login.sid)
    requires c == Refreshed(l.client) || (Due(l.client) && c == Fired(l.client, l.client.heartbeatId.value))
    requires 30 * beats <= l.store.Now() - login.Now()
    ensures var (store, client) := Served(server, l.store, c);
            Alive(server, login, Loop(store, client, beats)) && !Due(client)
  {
    var record := RenewedRecord(server.life, l.store.Now(), l.store.records[login.sid].value);
    SuccessSchedules(c, c.inFlight.value, Response(server, l.store.Now(), login.sid, login.refreshToken, record));
  }

  lemma TickKeepsOk(server: Server, login: Login, l: Loop, forced: bool)
    requires server.life.Valid() && LoopOk(server, login, l)
    ensures LoopOk(server, login, Tick(server, l, forced))
  {
    if !Over(server, login, l) {
      var p := Passed(l);
      if Due(p.client) {
        ServedIsOk(server, login, p, Fired(p.client, p.client.heartbeatId.value), p.beats + 1);
      } else if forced {
        ServedIsOk(server, login, p, Refreshed(p.client), p.beats);
      }
    }
  }

  lemma {:induction false} TicksKeepOk(server: Server, login: Login, l: Loop, forced: seq<bool>)
    requires server.life.Valid() && LoopOk(server, login, l)
    ensures LoopOk(server, login, Ticks(server, l, forced))
    ensures Ticks(server, l, forced).store.clock == l.store.clock + |forced|
    decreases |forced|
  {
    if forced != [] {
      TickKeepsOk(server, login, l, forced[0]);
      TickTakesOne(server, l, forced[0]);
      TicksKeepOk(server, login, Tick(server, l, forced[0]), forced[1..]);
    }
  }

  /** A tick takes one millisecond, and counts one heartbeat if it makes the timer due. */
  lemma TickTakesOne(server: Server, l: Loop, forced: bool)
    ensures Tick(server, l, forced).store.clock == l.store.clock + 1
    ensures Tick(server, l, forced).beats == l.beats + if Due(Passed(l).client) then 1 else 0
  {
  }

  // ------------------------------------------------------------------------------ main results

  /** At every millisecond before the absolute expiry, just before and just after its timers. */
  ghost predicate StaysAdmitted(server: Server, login: Login)
    requires login.Valid()
  {
    forall forced :: AdmittedAfter(server, login, forced)
  }

  predicate AdmittedAfter(server: Server, login: Login, forced: seq<bool>)
    requires login.client.inFlight.Some? && login.client.inFlight.value in login.client.requests
  {
    var l := Ticks(server, Begin(server, login), forced);
    && (l.store.Now() < login.Now() + server.life.maxTtl ==> Admitted(l, login.sid))
    && (Passed(l).store.Now() < login.Now() + server.life.maxTtl ==> Admitted(Passed(l), login.sid))
  }

  /** Which lifetimes the heartbeat's minimum of 30 seconds can serve. */
  predicate Serves(life: Lifetimes) {
    && (life.idleTtl > 30 || life.maxTtl <= life.idleTtl)
    && (life.accessTtl >= 30 || life.maxTtl <= life.accessTtl + 1)
  }

  lemma AliveIsAdmitted(server: Server, login: Login, l: Loop)
    requires server.life.Valid() && Serves(server.life) && Alive(server, login, l)
    requires l.store.Now() < login.Now() + server.life.maxTtl
    ensures Admitted(l, login.sid)
  {
  }

  lemma ServedLifetimesStayAdmitted(server: Server, login: Login, forced: seq<bool>)
    requires server.life.Valid() && login.Valid() && Serves(server.life)
    ensures AdmittedAfter(server, login, forced)
  {
    TicksKeepOk(server, login, Begin(server, login), forced);
    var l := Ticks(server, Begin(server, login), forced);
    if Alive(server, login, l) && !Due(l.client) {
      if l.store.Now() < login.Now() + server.life.maxTtl {
        AliveIsAdmitted(server, login, l);
      }
      if Passed(l).store.Now() < login.Now() + server.life.maxTtl {
        AliveIsAdmitted(server, login, Passed(l));
      }
    }
  }

  function Unforced(n: nat): seq<bool> { seq(n, _ => false) }

  function Later(l: Loop, ms: nat): Loop {
    l.(store := l.store.(clock := l.store.clock + ms), client := l.client.(clock := l.client.clock + ms))
  }

  /** Before the first heartbeat is due only the clock changes. */
  lemma {:induction false} QuietUntilDue(server: Server, l: Loop, n: nat)
    requires l.client.heartbeatId.Some? && l.client.heartbeatId.value in l.client.timers
    requires l.client.clock + n < l.client.timers[l.client.heartbeatId.value]
    ensures Ticks(server, l, Unforced(n)) == Later(l, n)
    decreases n
  {
    if n > 0 {
      assert Unforced(n)[1..] == Unforced(n - 1);
      QuietUntilDue(server, Passed(l), n - 1);
      assert Later(Passed(l), n - 1) == Later(l, n);
    }
  }

  /** When the lifetimes are too small, the first 30 seconds already show it. */
  lemma UnservedLifetimesLapse(server: Server, login: Login, n: nat)
    requires server.life.Valid() && login.Valid() && !Serves(server.life)
    requires n == 1000 * (if server.life.idleTtl <= 30 && server.life.idleTtl < server.life.maxTtl
                          then server.life.idleTtl
                          else server.life.accessTtl + 1) - 1
    ensures !AdmittedAfter(server, login, Unforced(n))
  {
    var l := Begin(server, login);
    var record := NewRecord(server.life, login.Now(), server.digest(login.refreshToken), login.payload);
    QuietUntilDue(server, l, n);
    assert Passed(Later(l, n)).store.Now() == login.Now() + (n + 1) / 1000;
  }

  /**
   A visible client with heartbeats on time, whatever extra refreshes its calls cause, keeps an
   unexpired token and an active session at every instant before the absolute expiry exactly
   if the configured lifetimes leave room for the heartbeat's minimum of 30 seconds.
   */
  lemma StaysAdmittedExactlyIf(server: Server, login: Login)
    requires server.life.Valid() && login.Valid()
    ensures StaysAdmitted(server, login) <==> Serves(server.life)
  {
    if Serves(server.life) {
      forall forced ensures AdmittedAfter(server, login, forced) {
        ServedLifetimesStayAdmitted(server, login, forced);
      }
    } else {
      var n := 1000 * (if server.life.idleTtl <= 30 && server.life.idleTtl < server.life.maxTtl then server.life.idleTtl
                       else server.life.accessTtl + 1) - 1;
      UnservedLifetimesLapse(server, login, n);
    }
  }

  /** Under any lifetimes at most `ceil(maxTtl / 30)` heartbeats fire in the life of a session. */
  lemma HeartbeatsAreFew(server: Server, login: Login, forced: seq<bool>)
    requires server.life.Valid() && login.Valid()
    ensures Ticks(server, Begin(server, login), forced).beats <= (server.life.maxTtl + 29) / 30
  {
    TicksKeepOk(server, login, Begin(server, login), forced);
  }

  /**
   The next heartbeat is due 300 seconds before the idle expiry or 60 before the token's, whichever
   comes first, but not within 30 seconds of the last answer.
   */
  lemma NextBeatIsAheadOfBothExpiries(server: Server, login: Login, forced: seq<bool>)
    requires server.life.Valid() && login.Valid()
    ensures var l := Ticks(server, Begin(server, login), forced);
            l.client.auth.Some? ==>
              && l.client.heartbeatId.Some? && l.client.heartbeatId.value in l.client.timers
              && login.sid in l.store.records
              && var due := l.client.timers[l.client.heartbeatId.value] / 1000;
                 var record := l.store.records[login.sid].value;
                 due == Max(record.lastRenewedAt + 30,
                            Min(record.idleExpiresAt - 300, record.lastRenewedAt + server.life.accessTtl - 60))
  {
    TicksKeepOk(server, login, Begin(server, login), forced);
  }

  /** What the server does with the body of a logout. */
  function LoggedOutAt(store: Store, request: Request): Store {
    match request
    case Logout(sid, _) => Revoked(store, sid)
    case _ => store
  }

  /** The request of a logout ends the client's own session at the server and no other. */
  lemma LogoutEndsTheSession(server: Server, login: Login, forced: seq<bool>, x: SessionId)
    requires server.life.Valid() && login.Valid()
    ensures var l := Ticks(server, Begin(server, login), forced);
            var out := LoggedOut(l.client);
            l.client.auth.Some? ==>
              && out.auth.None? && out.token.None?
              && out.requests == l.client.requests[l.client.nextRequest := Logout(login.sid, login.refreshToken)]
              && (LoggedOutAt(l.store, out.requests[l.client.nextRequest]).Active(x) <==>
                    l.store.Active(x) && x != login.sid)
  {
    TicksKeepOk(server, login, Begin(server, login), forced);
    var l := Ticks(server, Begin(server, login), forced);
    SessionHistory.RevokeEndsExactlyOne(l.store, login.sid, x);
  }

  /** When the absolute lifetime is over the session is, and within it nothing else ends a served one. */
  lemma SessionEndsExactlyAtItsExpiry(server: Server, login: Login, forced: seq<bool>)
    requires server.life.Valid() && login.Valid() && Serves(server.life)
    ensures var l := Ticks(server, Begin(server, login), forced);
            l.store.Active(login.sid) <==> l.store.Now() < login.Now() + server.life.maxTtl
  {
    ServedLifetimesStayAdmitted(server, login, forced);
    TicksKeepOk(server, login, Begin(server, login), forced);
  }
}
