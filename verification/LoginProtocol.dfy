/**
 Logins, token refreshes, revocations and membership changes interleaved one Redis or database
 call at a time (birr-track-backend/src/auth/auth.service.ts, admin-panel-session.service.ts and
 users/users.service.ts).

 A login reads the user row, stores the session, adds it to the user's index and reads the row
 again. A membership change saves the row and then revokes what the index lists. A refresh
 reads the record, writes it back and checks the row. Revoking one session reads its record,
 deletes its key and takes it off the index.
 */
module LoginProtocol {
  import opened Common

  type SessionId = nat

  type UserId = nat

  /** Names one call in progress. */
  type CallId = nat

  /** What a session and a row are compared on. */
  datatype Standing = Standing(businessId: nat, role: Role)

  datatype Row = Row(standing: Standing, removed: bool)

  datatype Session = Session(user: UserId, standing: Standing)

  /** How far a login has come. */
  datatype LoginStage = RowRead | Stored | Added | Indexed | Mismatched

  datatype Login = Login(session: Session, stage: LoginStage)

  /** How far a membership change has come: row saved, or index listed and keys about to go. */
  datatype Change = RowSaved(user: UserId) | IndexListed(user: UserId, ids: set<SessionId>) {
    /** It has still to delete the user's session. */
    predicate Threatens(owner: UserId, sid: SessionId) {
      user == owner && (IndexListed? ==> sid in ids)
    }
  }

  datatype RefreshStage = Fetched | Written | Outdated

  datatype Refresh = Refresh(sid: SessionId, session: Session, stage: RefreshStage)

  /** A `revoke` behind its GET, which found the owner of a live session, or behind its DEL. */
  datatype Revocation = Revocation(sid: SessionId, owner: Option<UserId>, deleted: bool)

  /**
   `used` holds every session id drawn so far, `lasting` the users whose index has been given
   an expiry. An empty index is a missing key.
   */
  datatype State = State(
    rows: map<UserId, Row>,
    sessions: map<SessionId, Session>,
    index: map<UserId, set<SessionId>>,
    lasting: set<UserId>,
    logins: map<SessionId, Login>,
    changes: map<CallId, Change>,
    refreshes: map<CallId, Refresh>,
    revocations: map<CallId, Revocation>,
    used: set<SessionId>)
  {
    function Members(user: UserId): set<SessionId> {
      if user in index then index[user] else {}
    }

    /** The comparison made after a login, on a refresh and by the request guard. */
    predicate Current(session: Session) {
      session.user in rows && !rows[session.user].removed && rows[session.user].standing == session.standing
    }

    /** Some membership change of this user has still to delete the session's key. */
    ghost predicate Threatened(user: UserId, sid: SessionId) {
      exists c :: c in changes && changes[c].Threatens(user, sid)
    }

    /** Some refresh has written the record and has still to check the row, or to revoke. */
    ghost predicate Renewing(sid: SessionId) {
      exists c :: c in refreshes && refreshes[c].sid == sid && !refreshes[c].stage.Fetched?
    }

    /** Some revocation has still to delete the session's key. */
    ghost predicate Revoking(sid: SessionId) {
      exists c :: c in revocations && revocations[c].sid == sid && !revocations[c].deleted
    }

    predicate Quiescent() {
      logins == map[] && changes == map[] && refreshes == map[] && revocations == map[]
    }
  }

  datatype Step =
    | LoginReadsRow(sid: SessionId, user: UserId)
    | LoginStores(sid: SessionId)
    | LoginAdds(sid: SessionId)
    | LoginExtends(sid: SessionId)
    | LoginIndexes(sid: SessionId)
    | LoginReadsAgain(sid: SessionId)
    | LoginRevokes(sid: SessionId, how: Option<CallId>)
    | ChangeSaves(call: CallId, user: UserId, row: Row)
    | ChangeLists(call: CallId)
    | ChangeDeletes(call: CallId)
    | ChangeRevokes(call: CallId)
    | Rejoins(user: UserId, standing: Standing)
    | RefreshReads(call: CallId, sid: SessionId)
    | RefreshWrites(call: CallId)
    | RefreshRenews(call: CallId, sid: SessionId)
    | RefreshChecks(call: CallId)
    | RefreshRevokes(call: CallId, how: Option<CallId>)
    | SessionDropped(sid: SessionId)
    | SessionRevoked(sid: SessionId, how: Option<CallId>)
    | RevokeDeletes(call: CallId)
    | RevokeUnlists(call: CallId)
    | IndexDropped(user: UserId)

  /** A revocation is one step, or begins under a name of its own. */
  predicate MayRevoke(s: State, how: Option<CallId>) { how.Some? ==> how.value !in s.revocations }

  /**
   `LoginIndexes`, `ChangeRevokes`, `RefreshRenews` and a revocation without a name take
   several calls as one: SADD and EXPIRE, SMEMBERS and the deleting pipeline, GET and SET, and
   GET, DEL and SREM. The split forms are there as well. `Rejoins` is `joinBusiness` and a
   fresh registration: it needs an absent or removed row and revokes nothing. `SessionRevoked`
   is a logout or the request guard, `SessionDropped` a key running out of time. An index runs
   out only if it has an expiry, and only behind the sessions it lists, except one whose SADD
   has not been followed by EXPIRE yet.
   */
  predicate Enabled(s: State, step: Step) {
    match step
    case LoginReadsRow(sid, user) => sid !in s.used && user in s.rows && !s.rows[user].removed
    case LoginStores(sid) => sid in s.logins && s.logins[sid].stage == RowRead
    case LoginAdds(sid) => sid in s.logins && s.logins[sid].stage == Stored
    case LoginExtends(sid) => sid in s.logins && s.logins[sid].stage == Added
    case LoginIndexes(sid) => sid in s.logins && s.logins[sid].stage == Stored
    case LoginReadsAgain(sid) => sid in s.logins && s.logins[sid].stage == Indexed
    case LoginRevokes(sid, how) => sid in s.logins && s.logins[sid].stage == Mismatched && MayRevoke(s, how)
    case ChangeSaves(call, user, row) => call !in s.changes && user in s.rows && !s.rows[user].removed
    case ChangeLists(call) => call in s.changes && s.changes[call].RowSaved?
    case ChangeDeletes(call) => call in s.changes && s.changes[call].IndexListed?
    case ChangeRevokes(call) => call in s.changes && s.changes[call].RowSaved?
    case Rejoins(user, _) => user in s.rows ==> s.rows[user].removed
    case RefreshReads(call, sid) => call !in s.refreshes && sid in s.sessions
    case RefreshWrites(call) => call in s.refreshes && s.refreshes[call].stage == Fetched
    case RefreshRenews(call, sid) => call !in s.refreshes && sid in s.sessions
    case RefreshChecks(call) => call in s.refreshes && s.refreshes[call].stage == Written
    case RefreshRevokes(call, how) => call in s.refreshes && s.refreshes[call].stage == Outdated && MayRevoke(s, how)
    case SessionDropped(sid) => sid in s.sessions
    case SessionRevoked(sid, how) => MayRevoke(s, how)
    case RevokeDeletes(call) => call in s.revocations && !s.revocations[call].deleted
    case RevokeUnlists(call) => call in s.revocations && s.revocations[call].deleted
    case IndexDropped(user) =>
      user in s.lasting
      && forall sid :: sid in s.Members(user) && sid in s.sessions ==> sid in s.logins && s.logins[sid].stage == Added
  }

  /** SADD. */
  function Add(s: State, sid: SessionId): State
    requires sid in s.logins
  {
    var session := s.logins[sid].session;
    s.(index := s.index[session.user := s.Members(session.user) + {sid}],
       logins := s.logins[sid := Login(session, Added)])
  }

  /** EXPIRE, which does nothing to a missing key. */
  function Extend(s: State, sid: SessionId): State
    requires sid in s.logins
  {
    var session := s.logins[sid].session;
    s.(lasting := if s.Members(session.user) == {} then s.lasting else s.lasting + {session.user},
       logins := s.logins[sid := Login(session, Indexed)])
  }

  /** The index of a user after a removal; emptied, it is gone with its expiry. */
  function SetMembers(s: State, user: UserId, ids: set<SessionId>): State {
    s.(index := s.index[user := ids], lasting := if ids == {} then s.lasting - {user} else s.lasting)
  }

  /** GET, DEL and SREM of one session, or only the GET. */
  function Revoke(s: State, sid: SessionId, how: Option<CallId>): State {
    var owner := if sid in s.sessions then Some(s.sessions[sid].user) else None;
    match how
    case Some(call) => s.(revocations := s.revocations[call := Revocation(sid, owner, false)])
    case None =>
      if owner.None? then s
      else SetMembers(s.(sessions := s.sessions - {sid}), owner.value, s.Members(owner.value) - {sid})
  }

  /** The pipeline of `revokeAllForUser`: the listed keys and the whole index go. */
  function DeleteListed(s: State, user: UserId, ids: set<SessionId>): State {
    SetMembers(s.(sessions := s.sessions - ids), user, {})
  }

  /** The second read of a login: the session stands, or has to be revoked. */
  function RowReadAgain(s: State, sid: SessionId): State
    requires sid in s.logins
  {
    var session := s.logins[sid].session;
    if s.Current(session) then s.(logins := s.logins - {sid})
    else s.(logins := s.logins[sid := Login(session, Mismatched)])
  }

  /** SET of a refresh, whatever has become of the key since its GET. */
  function WrittenBack(s: State, call: CallId): State
    requires call in s.refreshes
  {
    var r := s.refreshes[call];
    s.(sessions := s.sessions[r.sid := r.session], refreshes := s.refreshes[call := r.(stage := Written)])
  }

  function Checked(s: State, call: CallId): State
    requires call in s.refreshes
  {
    var r := s.refreshes[call];
    if s.Current(r.session) then s.(refreshes := s.refreshes - {call})
    else s.(refreshes := s.refreshes[call := r.(stage := Outdated)])
  }

  /** DEL of a revocation. */
  function KeyDeleted(s: State, call: CallId): State
    requires call in s.revocations
  {
    var r := s.revocations[call];
    s.(sessions := s.sessions - {r.sid}, revocations := s.revocations[call := r.(deleted := true)])
  }

  /** SREM of a revocation, whatever has become of the session since its DEL. */
  function Unlisted(s: State, call: CallId): State
    requires call in s.revocations
  {
    var r := s.revocations[call];
    var rest := s.(revocations := s.revocations - {call});
    if r.owner.None? then rest else SetMembers(rest, r.owner.value, s.Members(r.owner.value) - {r.sid})
  }

  function Next(s: State, step: Step): State
    requires Enabled(s, step)
  {
    match step
    case LoginReadsRow(sid, user) =>
      s.(logins := s.logins[sid := Login(Session(user, s.rows[user].standing), RowRead)], used := s.used + {sid})
    case LoginStores(sid) =>
      var session := s.logins[sid].session;
      s.(sessions := s.sessions[sid := session], logins := s.logins[sid := Login(session, Stored)])
    case LoginAdds(sid) => Add(s, sid)
    case LoginExtends(sid) => Extend(s, sid)
    case LoginIndexes(sid) => Extend(Add(s, sid), sid)
    case LoginReadsAgain(sid) => RowReadAgain(s, sid)
    case LoginRevokes(sid, how) => Revoke(s.(logins := s.logins - {sid}), sid, how)
    case ChangeSaves(call, user, row) =>
      s.(rows := s.rows[user := row], changes := s.changes[call := RowSaved(user)])
    case ChangeLists(call) =>
      var user := s.changes[call].user;
      s.(changes := s.changes[call := IndexListed(user, s.Members(user))])
    case ChangeDeletes(call) =>
      DeleteListed(s.(changes := s.changes - {call}), s.changes[call].user, s.changes[call].ids)
    case ChangeRevokes(call) =>
      var user := s.changes[call].user;
      DeleteListed(s.(changes := s.changes - {call}), user, s.Members(user))
    case Rejoins(user, standing) => s.(rows := s.rows[user := Row(standing, false)])
    case RefreshReads(call, sid) =>
      s.(refreshes := s.refreshes[call := Refresh(sid, s.sessions[sid], Fetched)])
    case RefreshWrites(call) => WrittenBack(s, call)
    case RefreshRenews(call, sid) =>
      s.(refreshes := s.refreshes[call := Refresh(sid, s.sessions[sid], Written)])
    case RefreshChecks(call) => Checked(s, call)
    case RefreshRevokes(call, how) => Revoke(s.(refreshes := s.refreshes - {call}), s.refreshes[call].sid, how)
    case SessionDropped(sid) => s.(sessions := s.sessions - {sid})
    case SessionRevoked(sid, how) => Revoke(s, sid, how)
    case RevokeDeletes(call) => KeyDeleted(s, call)
    case RevokeUnlists(call) => Unlisted(s, call)
    case IndexDropped(user) => SetMembers(s, user, {})
  }

  // ------------------------------------------------------------------------- invariant

  /** Nobody but its own login knows an id before its session is stored. */
  ghost predicate IdsOk(s: State) {
    && (forall sid :: sid in s.logins || sid in s.sessions ==> sid in s.used)
    && (forall c :: c in s.refreshes ==> s.refreshes[c].sid in s.used)
    && (forall sid :: sid in s.logins && s.logins[sid].stage == RowRead ==>
          sid !in s.sessions && forall c :: c in s.refreshes ==> s.refreshes[c].sid != sid)
  }

  /** What refresh `c` knows is what the session and the login of its id say. */
  predicate RefreshAgrees(s: State, c: CallId)
    requires c in s.refreshes
  {
    var r := s.refreshes[c];
    && (r.sid in s.sessions ==> s.sessions[r.sid] == r.session)
    && (r.sid in s.logins ==> s.logins[r.sid].session == r.session)
  }

  /** A session id stands for one bearer and standing for good. */
  ghost predicate PayloadsAgree(s: State) {
    && (forall sid :: sid in s.logins && sid in s.sessions ==> s.sessions[sid] == s.logins[sid].session)
    && (forall c :: c in s.refreshes ==> RefreshAgrees(s, c))
    && (forall c, d :: c in s.refreshes && d in s.refreshes && s.refreshes[c].sid == s.refreshes[d].sid ==>
          s.refreshes[c].session == s.refreshes[d].session)
  }

  ghost predicate Inv(s: State) { IdsOk(s) && PayloadsAgree(s) }

  /** Sessions, logins and refreshes only go or move on. */
  ghost predicate Shrinks(s: State, t: State) {
    && s.used <= t.used
    && (forall sid :: sid in t.sessions ==> sid in s.sessions && t.sessions[sid] == s.sessions[sid])
    && (forall sid :: sid in t.logins ==>
          sid in s.logins && t.logins[sid].session == s.logins[sid].session
          && (t.logins[sid].stage == RowRead ==> s.logins[sid].stage == RowRead))
    && (forall c :: c in t.refreshes ==>
          && c in s.refreshes && t.refreshes[c].sid == s.refreshes[c].sid
          && t.refreshes[c].session == s.refreshes[c].session)
  }

  /** The steps that bring a login, a session or a refresh that was not there. */
  predicate Brings(step: Step) {
    step.LoginReadsRow? || step.LoginStores? || step.RefreshReads? || step.RefreshRenews? || step.RefreshWrites?
  }

  predicate OfRefresh(step: Step) { step.RefreshChecks? || step.RefreshRevokes? }

  predicate OfKeys(step: Step) {
    step.SessionDropped? || step.SessionRevoked? || step.RevokeDeletes? || step.RevokeUnlists? || step.IndexDropped?
  }

  predicate OfChange(step: Step) {
    step.ChangeSaves? || step.ChangeLists? || step.ChangeDeletes? || step.ChangeRevokes? || step.Rejoins?
  }

  lemma RevokingShrinks(s: State, sid: SessionId, how: Option<CallId>)
    ensures Shrinks(s, Revoke(s, sid, how))
  {
  }

  lemma RefreshChecksShrinks(s: State, call: CallId)
    requires call in s.refreshes
    ensures Shrinks(s, Checked(s, call))
  {
  }

  lemma RevokeUnlistsShrinks(s: State, call: CallId)
    requires call in s.revocations
    ensures Shrinks(s, Unlisted(s, call))
  {
  }

  lemma KeyMovesShrink(s: State, step: Step)
    requires Enabled(s, step) && (step.SessionDropped? || step.RevokeDeletes? || step.IndexDropped?)
    ensures Shrinks(s, Next(s, step))
  {
  }

  lemma LoginMovesShrink(s: State, step: Step)
    requires Enabled(s, step)
    requires step.LoginAdds? || step.LoginExtends? || step.LoginIndexes? || step.LoginReadsAgain?
    ensures Shrinks(s, Next(s, step))
  {
  }

  lemma ChangeMovesShrink(s: State, step: Step)
    requires Enabled(s, step) && OfChange(step)
    ensures Shrinks(s, Next(s, step))
  {
  }

  lemma OtherStepsShrink(s: State, step: Step)
    requires Enabled(s, step) && !Brings(step)
    ensures Shrinks(s, Next(s, step))
  {
    match step
    case LoginRevokes(sid, how) => RevokingShrinks(s.(logins := s.logins - {sid}), sid, how);
    case RefreshChecks(call) => RefreshChecksShrinks(s, call);
    case RefreshRevokes(call, how) =>
      RevokingShrinks(s.(refreshes := s.refreshes - {call}), s.refreshes[call].sid, how);
    case SessionRevoked(sid, how) => RevokingShrinks(s, sid, how);
    case RevokeUnlists(call) => RevokeUnlistsShrinks(s, call);
    case _ =>
      if OfKeys(step) {
        KeyMovesShrink(s, step);
      } else if OfChange(step) {
        ChangeMovesShrink(s, step);
      } else {
        LoginMovesShrink(s, step);
      }
  }

  lemma LoginStoresKeepsInv(s: State, sid: SessionId)
    requires Inv(s) && Enabled(s, LoginStores(sid))
    ensures Inv(Next(s, LoginStores(sid)))
  {
  }

  /** A call that has read a live record carries that record's bearer. */
  lemma FetchKeepsInv(s: State, call: CallId, sid: SessionId, stage: RefreshStage)
    requires Inv(s) && sid in s.sessions && call !in s.refreshes
    ensures Inv(s.(refreshes := s.refreshes[call := Refresh(sid, s.sessions[sid], stage)]))
  {
  }

  lemma RefreshWritesKeepsInv(s: State, call: CallId)
    requires Inv(s) && call in s.refreshes
    ensures Inv(WrittenBack(s, call))
  {
    var t, sid := WrittenBack(s, call), s.refreshes[call].sid;
    assert RefreshAgrees(s, call) && (sid in s.logins ==> s.logins[sid].stage != RowRead);
    forall c | c in t.refreshes ensures RefreshAgrees(t, c) { assert RefreshAgrees(s, c); }
  }

  lemma LoginReadsRowKeepsInv(s: State, sid: SessionId, session: Session)
    requires Inv(s) && sid !in s.used
    ensures Inv(s.(logins := s.logins[sid := Login(session, RowRead)], used := s.used + {sid}))
  {
  }

  lemma ShrinkingKeepsInv(s: State, t: State)
    requires Inv(s) && Shrinks(s, t)
    ensures Inv(t)
  {
    forall c | c in t.refreshes ensures RefreshAgrees(t, c) { assert RefreshAgrees(s, c); }
  }

  lemma StepKeepsInv(s: State, step: Step)
    requires Inv(s) && Enabled(s, step)
    ensures Inv(Next(s, step))
  {
    if Brings(step) {
      match step
      case LoginReadsRow(sid, user) => LoginReadsRowKeepsInv(s, sid, Session(user, s.rows[user].standing));
      case LoginStores(sid) => LoginStoresKeepsInv(s, sid);
      case RefreshReads(call, sid) => FetchKeepsInv(s, call, sid, Fetched);
      case RefreshRenews(call, sid) => FetchKeepsInv(s, call, sid, Written);
      case RefreshWrites(call) => RefreshWritesKeepsInv(s, call);
    } else {
      OtherStepsShrink(s, step);
      ShrinkingKeepsInv(s, Next(s, step));
    }
  }

  // ------------------------------------------------------------------------------ runs

  /** Every step of the run is enabled when it is taken. */
  predicate Runs(s: State, steps: seq<Step>)
    decreases |steps|
  {
    steps == [] || (Enabled(s, steps[0]) && Runs(Next(s, steps[0]), steps[1..]))
  }

  function After(s: State, steps: seq<Step>): State
    requires Runs(s, steps)
    decreases |steps|
  {
    if steps == [] then s else After(Next(s, steps[0]), steps[1..])
  }

  function Start(rows: map<UserId, Row>): State {
    State(rows, map[], map[], {}, map[], map[], map[], map[], {})
  }
}
