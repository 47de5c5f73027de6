/**
 What the interleaved calls of LoginProtocol leave behind whenever none of them is midway: which
 live sessions agree with their user's row, and what that means for the request guard
 (birr-track-backend/src/auth/guards/optional-jwt-auth.guard.ts).
 */
module SessionsAtRest {
  import opened Common
  import opened LoginProtocol
  import opened ListedSessions

  // -------------------------------------------------- runs in which no step strays

  /** Why a live session may disagree with the row: some call in progress will still see to it. */
  ghost predicate Settled(s: State, sid: SessionId) {
    sid in s.sessions ==>
      var session := s.sessions[sid];
      || sid in s.logins || s.Current(session) || s.Threatened(session.user, sid)
      || s.Renewing(sid) || s.Revoking(sid)
  }

  ghost predicate AllSettled(s: State) { forall sid :: Settled(s, sid) }

  /** Calls in progress that stay in progress as far as this session goes. */
  lemma StaysSettled(s: State, t: State, sid: SessionId)
    requires Settled(s, sid) && t.rows == s.rows
    requires sid in t.sessions ==> sid in s.sessions && t.sessions[sid] == s.sessions[sid]
    requires sid in s.logins ==> sid in t.logins
    requires forall c :: c in s.changes ==> c in t.changes && t.changes[c] == s.changes[c]
    requires forall c :: c in s.refreshes && s.refreshes[c].sid == sid && !s.refreshes[c].stage.Fetched? ==>
               c in t.refreshes && t.refreshes[c].sid == sid && !t.refreshes[c].stage.Fetched?
    requires forall c :: c in s.revocations && s.revocations[c].sid == sid && !s.revocations[c].deleted ==>
               c in t.revocations && t.revocations[c].sid == sid && !t.revocations[c].deleted
    ensures Settled(t, sid)
  {
    if sid in t.sessions {
      if s.Threatened(s.sessions[sid].user, sid) { assert t.Threatened(s.sessions[sid].user, sid); }
      if s.Renewing(sid) { assert t.Renewing(sid); }
      if s.Revoking(sid) { assert t.Revoking(sid); }
    }
  }

  /** The same calls in progress, and this session and its login as they were. */
  lemma SameCallsSettle(s: State, t: State, sid: SessionId)
    requires Settled(s, sid) && t.rows == s.rows
    requires t.changes == s.changes && t.refreshes == s.refreshes && t.revocations == s.revocations
    requires sid in t.sessions ==> sid in s.sessions && t.sessions[sid] == s.sessions[sid]
    requires sid in s.logins ==> sid in t.logins
    ensures Settled(t, sid)
  {
    if sid in t.sessions {
      assert s.Threatened(s.sessions[sid].user, sid) ==> t.Threatened(s.sessions[sid].user, sid);
      assert s.Renewing(sid) ==> t.Renewing(sid);
      assert s.Revoking(sid) ==> t.Revoking(sid);
    }
  }

  lemma RevokingSettles(s: State, sid: SessionId, how: Option<CallId>, x: SessionId)
    requires MayRevoke(s, how) && (x != sid ==> Settled(s, x))
    ensures Settled(Revoke(s, sid, how), x)
  {
    var t := Revoke(s, sid, how);
    if x != sid {
      StaysSettled(s, t, x);
    } else if how.Some? {
      assert t.revocations[how.value].sid == x && !t.revocations[how.value].deleted;
      assert t.Revoking(x);
    }
  }

  lemma LoginReadsAgainSettles(s: State, sid: SessionId, x: SessionId)
    requires Settled(s, x) && sid in s.logins
    requires sid in s.sessions ==> s.sessions[sid] == s.logins[sid].session
    ensures Settled(RowReadAgain(s, sid), x)
  {
    if x != sid {
      SameCallsSettle(s, RowReadAgain(s, sid), x);
    }
  }

  lemma LoginStartSettles(s: State, step: Step, x: SessionId)
    requires Settled(s, x) && Enabled(s, step) && (step.LoginReadsRow? || step.LoginStores?)
    ensures Settled(Next(s, step), x)
  {
    if x != step.sid {
      SameCallsSettle(s, Next(s, step), x);
    }
  }

  lemma IndexingSettles(s: State, sid: SessionId, x: SessionId)
    requires Settled(s, x) && sid in s.logins
    ensures Settled(Add(s, sid), x) && Settled(Extend(s, sid), x)
  {
    SameCallsSettle(s, Add(s, sid), x);
    SameCallsSettle(s, Extend(s, sid), x);
  }

  lemma LoginRevokesSettles(s: State, sid: SessionId, how: Option<CallId>, x: SessionId)
    requires Settled(s, x) && Enabled(s, LoginRevokes(sid, how))
    ensures Settled(Next(s, LoginRevokes(sid, how)), x)
  {
    var u := s.(logins := s.logins - {sid});
    if x != sid { SameCallsSettle(s, u, x); }
    RevokingSettles(u, sid, how, x);
  }

  /** A saved change threatens every session of its user, whatever it does to the row. */
  lemma ChangeSavesSettles(s: State, call: CallId, user: UserId, row: Row, x: SessionId)
    requires Settled(s, x) && Enabled(s, ChangeSaves(call, user, row))
    ensures Settled(Next(s, ChangeSaves(call, user, row)), x)
  {
    var t := Next(s, ChangeSaves(call, user, row));
    if x in s.sessions {
      if s.sessions[x].user == user {
        assert t.changes[call].Threatens(user, x);
      } else {
        StaysSettled(s.(rows := t.rows), t, x);
      }
    }
  }

  /** A change that moves on still threatens the sessions it threatened, if the index lists them. */
  lemma ChangeListsSettles(s: State, call: CallId, x: SessionId)
    requires ListedAt(s, x) && Settled(s, x) && Enabled(s, ChangeLists(call))
    ensures Settled(Next(s, ChangeLists(call)), x)
  {
    var t := Next(s, ChangeLists(call));
    if x in s.sessions && x !in s.logins && s.Threatened(s.sessions[x].user, x) {
      var c :| c in s.changes && s.changes[c].Threatens(s.sessions[x].user, x);
      assert t.changes[c].Threatens(s.sessions[x].user, x);
    }
  }

  /** The pipeline leaves the sessions of other users, and those whose login is still to check. */
  lemma DeletingSettles(s: State, call: CallId, ids: set<SessionId>, x: SessionId)
    requires Settled(s, x) && call in s.changes
    requires Exposed(s, s.changes[call].user, x) ==> x in ids
    ensures Settled(DeleteListed(s.(changes := s.changes - {call}), s.changes[call].user, ids), x)
  {
    var t := DeleteListed(s.(changes := s.changes - {call}), s.changes[call].user, ids);
    if x in t.sessions && x !in s.logins && s.Threatened(s.sessions[x].user, x) {
      var c :| c in s.changes && s.changes[c].Threatens(s.sessions[x].user, x);
      assert t.changes[c].Threatens(s.sessions[x].user, x);
    }
  }

  lemma RejoinsSettles(s: State, user: UserId, standing: Standing, x: SessionId)
    requires Settled(s, x) && Enabled(s, Rejoins(user, standing))
    ensures Settled(Next(s, Rejoins(user, standing)), x)
  {
    var t := Next(s, Rejoins(user, standing));
    if x in s.sessions && s.sessions[x].user == user {
      assert !s.Current(s.sessions[x]);
      if s.Threatened(user, x) { assert t.Threatened(user, x); }
      if s.Renewing(x) { assert t.Renewing(x); }
      if s.Revoking(x) { assert t.Revoking(x); }
    } else {
      StaysSettled(s.(rows := t.rows), t, x);
    }
  }

  lemma RefreshWritesSettles(s: State, call: CallId, x: SessionId)
    requires Settled(s, x) && call in s.refreshes
    ensures Settled(WrittenBack(s, call), x)
  {
    var t := WrittenBack(s, call);
    if x == s.refreshes[call].sid {
      assert t.refreshes[call].sid == x && !t.refreshes[call].stage.Fetched?;
      assert t.Renewing(x);
    } else {
      StaysSettled(s, t, x);
    }
  }

  lemma RefreshChecksSettles(s: State, call: CallId, x: SessionId)
    requires Settled(s, x) && call in s.refreshes && RefreshAgrees(s, call)
    ensures Settled(Checked(s, call), x)
  {
    if x != s.refreshes[call].sid || !s.Current(s.refreshes[call].session) {
      StaysSettled(s, Checked(s, call), x);
    }
  }

  lemma FetchSettles(s: State, call: CallId, refresh: Refresh, x: SessionId)
    requires Settled(s, x) && call !in s.refreshes
    ensures Settled(s.(refreshes := s.refreshes[call := refresh]), x)
  {
    StaysSettled(s, s.(refreshes := s.refreshes[call := refresh]), x);
  }

  lemma RefreshRevokesSettles(s: State, call: CallId, how: Option<CallId>, x: SessionId)
    requires Settled(s, x) && Enabled(s, RefreshRevokes(call, how))
    ensures Settled(Next(s, RefreshRevokes(call, how)), x)
  {
    var u, sid := s.(refreshes := s.refreshes - {call}), s.refreshes[call].sid;
    if x != sid { StaysSettled(s, u, x); }
    RevokingSettles(u, sid, how, x);
  }

  lemma RevokeDeletesSettles(s: State, call: CallId, x: SessionId)
    requires Settled(s, x) && call in s.revocations
    ensures Settled(KeyDeleted(s, call), x)
  {
    if x != s.revocations[call].sid {
      StaysSettled(s, KeyDeleted(s, call), x);
    }
  }

  lemma RevokeUnlistsSettles(s: State, call: CallId, x: SessionId)
    requires Settled(s, x) && call in s.revocations && s.revocations[call].deleted
    ensures Settled(Unlisted(s, call), x)
  {
    StaysSettled(s, Unlisted(s, call), x);
  }

  lemma KeyStepSettles(s: State, step: Step, x: SessionId)
    requires Settled(s, x) && Enabled(s, step) && OfKeys(step)
    ensures Settled(Next(s, step), x)
  {
    match step
    case SessionRevoked(sid, how) => RevokingSettles(s, sid, how, x);
    case RevokeDeletes(call) => RevokeDeletesSettles(s, call, x);
    case RevokeUnlists(call) => RevokeUnlistsSettles(s, call, x);
    case SessionDropped(sid) => SameCallsSettle(s, s.(sessions := s.sessions - {sid}), x);
    case IndexDropped(user) => SameCallsSettle(s, SetMembers(s, user, {}), x);
  }

  lemma ChangeStepSettles(s: State, step: Step, x: SessionId)
    requires Listed(s) && Settled(s, x) && Enabled(s, step) && OfChange(step) && !Strays(s, step)
    ensures Settled(Next(s, step), x)
  {
    assert ListedAt(s, x);
    match step
    case ChangeSaves(call, user, row) => ChangeSavesSettles(s, call, user, row, x);
    case ChangeLists(call) => ChangeListsSettles(s, call, x);
    case ChangeDeletes(call) => DeletingSettles(s, call, s.changes[call].ids, x);
    case ChangeRevokes(call) => DeletingSettles(s, call, s.Members(s.changes[call].user), x);
    case Rejoins(user, standing) => RejoinsSettles(s, user, standing, x);
  }

  lemma StepSettles(s: State, step: Step, x: SessionId)
    requires Inv(s) && Listed(s) && Settled(s, x) && Enabled(s, step) && !Strays(s, step)
    ensures Settled(Next(s, step), x)
  {
    if OfChange(step) {
      ChangeStepSettles(s, step, x);
    } else if OfKeys(step) {
      KeyStepSettles(s, step, x);
    } else {
      match step
      case LoginRevokes(sid, how) => LoginRevokesSettles(s, sid, how, x);
      case LoginReadsAgain(sid) => LoginReadsAgainSettles(s, sid, x);
      case RefreshRevokes(call, how) => RefreshRevokesSettles(s, call, how, x);
      case RefreshReads(call, sid) => FetchSettles(s, call, Refresh(sid, s.sessions[sid], Fetched), x);
      case RefreshRenews(call, sid) => FetchSettles(s, call, Refresh(sid, s.sessions[sid], Written), x);
      case RefreshWrites(call) => RefreshWritesSettles(s, call, x);
      case RefreshChecks(call) => RefreshChecksSettles(s, call, x);
      case LoginReadsRow(_, _) => LoginStartSettles(s, step, x);
      case LoginStores(_) => LoginStartSettles(s, step, x);
      case LoginAdds(sid) => IndexingSettles(s, sid, x);
      case LoginExtends(sid) => IndexingSettles(s, sid, x);
      case LoginIndexes(sid) =>
        IndexingSettles(s, sid, x);
        IndexingSettles(Add(s, sid), sid, x);
    }
  }

  lemma {:induction false} RunSettles(s: State, steps: seq<Step>)
    requires Inv(s) && Listed(s) && AllSettled(s) && Runs(s, steps) && NeverStrays(s, steps)
    ensures Listed(After(s, steps)) && AllSettled(After(s, steps))
    decreases |steps|
  {
    if steps != [] {
      StepKeepsInv(s, steps[0]);
      StepListsExactlyIf(s, steps[0]);
      forall x ensures Settled(Next(s, steps[0]), x) { StepSettles(s, steps[0], x); }
      RunSettles(Next(s, steps[0]), steps[1..]);
    }
  }

  /** What the protocol promises about one live session at rest. */
  predicate MatchesRow(s: State, sid: SessionId) {
    sid in s.sessions ==> s.Current(s.sessions[sid]) && sid in s.Members(s.sessions[sid].user)
  }

  /**
   At rest after any run without a step that strays, every live session is in its user's index
   and agrees with the user's current active row, also when the row changed away and back.
   */
  lemma AtRestSessionsMatchRows(rows: map<UserId, Row>, steps: seq<Step>, sid: SessionId)
    requires Runs(Start(rows), steps) && NeverStrays(Start(rows), steps) && After(Start(rows), steps).Quiescent()
    ensures MatchesRow(After(Start(rows), steps), sid)
  {
    RunSettles(Start(rows), steps);
    var s := After(Start(rows), steps);
    assert ListedAt(s, sid) && Settled(s, sid);
  }

  // ------------------------------------------------------------------ whole exchanges

  /** The step does what two calls do one behind the other, with nothing in between. */
  predicate InTwo(s: State, step: Step, first: Step, second: Step) {
    && Enabled(s, step) && Enabled(s, first) && Enabled(Next(s, first), second)
    && Next(Next(s, first), second) == Next(s, step)
  }

  lemma WholeIndexingIsItsCalls(s: State, sid: SessionId)
    requires Enabled(s, LoginIndexes(sid))
    ensures InTwo(s, LoginIndexes(sid), LoginAdds(sid), LoginExtends(sid))
  {
  }

  lemma WholeChangeIsItsCalls(s: State, call: CallId)
    requires Enabled(s, ChangeRevokes(call))
    ensures InTwo(s, ChangeRevokes(call), ChangeLists(call), ChangeDeletes(call))
  {
    assert s.changes[call := IndexListed(s.changes[call].user, s.Members(s.changes[call].user))] - {call}
        == s.changes - {call};
  }

  lemma WholeRenewalIsItsCalls(s: State, call: CallId, sid: SessionId)
    requires Enabled(s, RefreshRenews(call, sid))
    ensures InTwo(s, RefreshRenews(call, sid), RefreshReads(call, sid), RefreshWrites(call))
  {
    assert s.sessions[sid := s.sessions[sid]] == s.sessions;
  }

  /** So does a revocation taken as one with its three calls, whether or not the session was live. */
  lemma WholeRevocationIsItsCalls(s: State, sid: SessionId, call: CallId)
    requires call !in s.revocations
    ensures var found := Revoke(s, sid, Some(call));
            && call in found.revocations && call in KeyDeleted(found, call).revocations
            && Unlisted(KeyDeleted(found, call), call) == Revoke(s, sid, None)
  {
    var deleted := KeyDeleted(Revoke(s, sid, Some(call)), call);
    assert deleted.revocations - {call} == s.revocations;
    if sid !in s.sessions {
      assert deleted.sessions == s.sessions;
    }
  }

  /** Steps of a run in which each Redis exchange is taken as one. */
  predicate Whole(step: Step) {
    match step
    case LoginAdds(_) => false
    case ChangeLists(_) => false
    case RefreshReads(_, _) => false
    case LoginRevokes(_, how) => how.None?
    case RefreshRevokes(_, how) => how.None?
    case SessionRevoked(_, how) => how.None?
    case _ => true
  }

  ghost predicate NoneSplit(s: State) {
    && (forall sid :: sid in s.logins ==> s.logins[sid].stage != Added)
    && (forall c :: c in s.changes ==> s.changes[c].RowSaved?)
    && (forall c :: c in s.refreshes ==> s.refreshes[c].stage != Fetched)
    && s.revocations == map[]
  }

  lemma WholeRevocationSplitsNothing(s: State, sid: SessionId)
    requires NoneSplit(s)
    ensures NoneSplit(Revoke(s, sid, None))
  {
  }

  lemma CheckSplitsNothing(s: State, call: CallId)
    requires NoneSplit(s) && call in s.refreshes
    ensures NoneSplit(Checked(s, call))
  {
  }

  lemma WholeChangeSplitsNothing(s: State, step: Step)
    requires NoneSplit(s) && Enabled(s, step) && Whole(step) && OfChange(step)
    ensures NoneSplit(Next(s, step))
  {
  }

  lemma WholeLoginSplitsNothing(s: State, step: Step)
    requires NoneSplit(s) && Enabled(s, step) && Whole(step)
    requires step.LoginReadsRow? || step.LoginStores? || step.LoginExtends? || step.LoginIndexes?
             || step.LoginReadsAgain?
    ensures NoneSplit(Next(s, step))
  {
  }

  lemma RenewalSplitsNothing(s: State, step: Step)
    requires NoneSplit(s) && Enabled(s, step) && (step.RefreshRenews? || step.RefreshWrites?)
    ensures NoneSplit(Next(s, step))
  {
  }

  lemma WholeStepSplitsNothing(s: State, step: Step)
    requires NoneSplit(s) && Enabled(s, step) && Whole(step)
    ensures NoneSplit(Next(s, step))
  {
    if OfChange(step) {
      WholeChangeSplitsNothing(s, step);
    } else if OfRefresh(step) {
      WholeRefreshSplitsNothing(s, step);
    } else if step.LoginRevokes? {
      WholeRevocationSplitsNothing(s.(logins := s.logins - {step.sid}), step.sid);
    } else if step.SessionRevoked? {
      WholeRevocationSplitsNothing(s, step.sid);
    } else if step.RefreshRenews? || step.RefreshWrites? {
      RenewalSplitsNothing(s, step);
    } else if !OfKeys(step) {
      WholeLoginSplitsNothing(s, step);
    }
  }

  lemma WholeRefreshSplitsNothing(s: State, step: Step)
    requires NoneSplit(s) && Enabled(s, step) && Whole(step) && OfRefresh(step)
    ensures NoneSplit(Next(s, step))
  {
    match step
    case RefreshChecks(call) => CheckSplitsNothing(s, call);
    case RefreshRevokes(call, _) =>
      WholeRevocationSplitsNothing(s.(refreshes := s.refreshes - {call}), s.refreshes[call].sid);
  }

  lemma WholeStepStraysNot(s: State, step: Step)
    requires Listed(s) && NoneSplit(s) && Enabled(s, step) && Whole(step)
    ensures !Strays(s, step)
  {
    if step.IndexDropped? {
      forall sid ensures !Exposed(s, step.user, sid) { assert ListedAt(s, sid); }
    }
  }

  lemma {:induction false} WholeRunStraysNot(s: State, steps: seq<Step>)
    requires Inv(s) && Listed(s) && NoneSplit(s) && Runs(s, steps)
    requires forall i :: 0 <= i < |steps| ==> Whole(steps[i])
    ensures NeverStrays(s, steps)
    decreases |steps|
  {
    if steps != [] {
      WholeStepStraysNot(s, steps[0]);
      StepKeepsInv(s, steps[0]);
      StepListsExactlyIf(s, steps[0]);
      WholeStepSplitsNothing(s, steps[0]);
      WholeRunStraysNot(Next(s, steps[0]), steps[1..]);
    }
  }

  /** With each Redis exchange taken as one, no step strays and so every session at rest matches its row. */
  lemma WholeRunsMatchRows(rows: map<UserId, Row>, steps: seq<Step>, sid: SessionId)
    requires Runs(Start(rows), steps) && After(Start(rows), steps).Quiescent()
    requires forall i :: 0 <= i < |steps| ==> Whole(steps[i])
    ensures NeverStrays(Start(rows), steps) && MatchesRow(After(Start(rows), steps), sid)
  {
    WholeRunStraysNot(Start(rows), steps);
    AtRestSessionsMatchRows(rows, steps, sid);
  }

  // --------------------------------------------------------------- the request guard

  /** The guard's two checks: the session key is live and the row still says what the token says. */
  predicate GuardAdmits(s: State, sid: SessionId, token: Session) {
    sid in s.sessions && s.Current(token)
  }

  /** Bearers of the access tokens handed out so far, by session: at the end of a login or a refresh. */
  function HandedOut(s: State, step: Step, issued: map<SessionId, Session>): map<SessionId, Session>
    requires Enabled(s, step)
  {
    match step
    case LoginReadsAgain(sid) =>
      var session := s.logins[sid].session;
      if s.Current(session) then issued[sid := session] else issued
    case RefreshChecks(call) =>
      var r := s.refreshes[call];
      if s.Current(r.session) then issued[r.sid := r.session] else issued
    case _ => issued
  }

  function IssuedAfter(s: State, steps: seq<Step>, issued: map<SessionId, Session>): map<SessionId, Session>
    requires Runs(s, steps)
    decreases |steps|
  {
    if steps == [] then issued else IssuedAfter(Next(s, steps[0]), steps[1..], HandedOut(s, steps[0], issued))
  }

  /** Whatever carries the session id of a token carries the bearer that the token was issued to. */
  predicate TokenOk(s: State, sid: SessionId, bearer: Session) {
    && sid in s.used
    && (sid in s.sessions ==> s.sessions[sid] == bearer)
    && (sid in s.logins ==> s.logins[sid].session == bearer)
    && (forall c :: c in s.refreshes && s.refreshes[c].sid == sid ==> s.refreshes[c].session == bearer)
  }

  lemma StepKeepsToken(s: State, step: Step, sid: SessionId, bearer: Session)
    requires PayloadsAgree(s) && TokenOk(s, sid, bearer) && Enabled(s, step)
    ensures TokenOk(Next(s, step), sid, bearer)
  {
    if !Brings(step) {
      OtherStepsShrink(s, step);
    }
  }

  ghost predicate TokensOk(s: State, issued: map<SessionId, Session>) {
    forall sid :: sid in issued ==> TokenOk(s, sid, issued[sid])
  }

  lemma StepKeepsTokens(s: State, step: Step, issued: map<SessionId, Session>)
    requires IdsOk(s) && PayloadsAgree(s) && Enabled(s, step) && TokensOk(s, issued)
    ensures TokensOk(Next(s, step), HandedOut(s, step, issued))
  {
    var next := HandedOut(s, step, issued);
    forall sid | sid in next ensures TokenOk(Next(s, step), sid, next[sid]) {
      assert TokenOk(s, sid, next[sid]);
      StepKeepsToken(s, step, sid, next[sid]);
    }
  }

  lemma {:induction false} RunKeepsTokens(s: State, steps: seq<Step>, issued: map<SessionId, Session>)
    requires Inv(s) && Runs(s, steps) && TokensOk(s, issued)
    ensures TokensOk(After(s, steps), IssuedAfter(s, steps, issued))
    decreases |steps|
  {
    if steps != [] {
      StepKeepsTokens(s, steps[0], issued);
      StepKeepsInv(s, steps[0]);
      RunKeepsTokens(Next(s, steps[0]), steps[1..], HandedOut(s, steps[0], issued));
    }
  }

  /**
   In runs without a step that strays the guard's row check refuses no token at rest: a token
   passes exactly while the key of the session it was issued for is live.
   */
  lemma GuardNeedsOnlyTheKey(rows: map<UserId, Row>, steps: seq<Step>, sid: SessionId)
    requires Runs(Start(rows), steps) && After(Start(rows), steps).Quiescent()
    requires NeverStrays(Start(rows), steps)
    requires sid in IssuedAfter(Start(rows), steps, map[])
    ensures var s, token := After(Start(rows), steps), IssuedAfter(Start(rows), steps, map[])[sid];
            GuardAdmits(s, sid, token) <==> sid in s.sessions
  {
    AtRestSessionsMatchRows(rows, steps, sid);
    RunKeepsTokens(Start(rows), steps, map[]);
    assert TokenOk(After(Start(rows), steps), sid, IssuedAfter(Start(rows), steps, map[])[sid]);
  }

  /** At rest again, the session is gone or left behind, and left behind it is refused. */
  predicate AtRestBehind(s: State, after: State, sid: SessionId)
    requires sid in s.sessions
  {
    && after.Quiescent()
    && (sid in after.sessions <==> sid !in s.Members(s.sessions[sid].user))
    && (sid in after.sessions ==> !MatchesRow(after, sid) && !GuardAdmits(after, sid, s.sessions[sid]))
  }

  /**
   At rest, a membership change that alters a user's standing takes away exactly the sessions
   that the index lists; any other live session is left behind, disagreeing with the row, and
   only the guard's row check refuses it.
   */
  lemma ChangeReachesExactlyTheIndex(s: State, call: CallId, sid: SessionId, row: Row)
    requires s.Quiescent() && sid in s.sessions && s.Current(s.sessions[sid])
    requires row.removed || row.standing != s.sessions[sid].standing
    ensures var steps := [ChangeSaves(call, s.sessions[sid].user, row), ChangeRevokes(call)];
            Runs(s, steps) && AtRestBehind(s, After(s, steps), sid)
  {
    var user := s.sessions[sid].user;
    var first, second := ChangeSaves(call, user, row), ChangeRevokes(call);
    var steps := [first, second];
    var saved := Next(s, first);
    var done := Next(saved, second);
    assert steps[1..] == [second];
    assert Runs(done, []) && Runs(saved, [second]) && After(saved, [second]) == done;
    assert After(s, steps) == done;
    assert saved.changes - {call} == map[];
  }
}
