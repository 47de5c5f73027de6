/**
 Exactly which of LoginProtocol's steps leave a live session outside its user's index
 (birr-track-backend/src/auth/admin-panel-session.service.ts).
 */
module ListedSessions {
  import opened Common
  import opened LoginProtocol

  lemma {:induction false} RunKeepsInv(s: State, steps: seq<Step>)
    requires Inv(s) && Runs(s, steps)
    ensures Inv(After(s, steps))
    decreases |steps|
  {
    if steps != [] {
      StepKeepsInv(s, steps[0]);
      RunKeepsInv(Next(s, steps[0]), steps[1..]);
    }
  }

  // --------------------------------------------------------- exactly which steps stray

  /** Its login has not added it to the index yet. */
  predicate Early(s: State, sid: SessionId) {
    sid in s.logins && (s.logins[sid].stage == RowRead || s.logins[sid].stage == Stored)
  }

  /** A live session of the user that should be in the index by now. */
  predicate Exposed(s: State, user: UserId, sid: SessionId) {
    sid in s.sessions && s.sessions[sid].user == user && !Early(s, sid)
  }

  predicate ListedAt(s: State, sid: SessionId) {
    sid in s.sessions && !Early(s, sid) ==> sid in s.Members(s.sessions[sid].user)
  }

  ghost predicate Listed(s: State) {
    forall sid :: ListedAt(s, sid)
  }

  /**
   The steps that leave a live session outside its user's index: a refresh that writes back a
   session which is gone from both, the pipeline of a revocation of all that has not seen a
   session, an index that runs out before the EXPIRE of a new session, and the SREM of a
   session that a refresh has written back since its DEL.
   */
  ghost predicate Strays(s: State, step: Step)
    requires Enabled(s, step)
  {
    match step
    case RefreshWrites(call) => StraysWriting(s, call)
    case ChangeDeletes(call) => exists sid :: Exposed(s, s.changes[call].user, sid) && sid !in s.changes[call].ids
    case IndexDropped(user) => exists sid :: Exposed(s, user, sid)
    case RevokeUnlists(call) => StraysUnlisting(s, call)
    case _ => false
  }

  predicate StraysWriting(s: State, call: CallId)
    requires call in s.refreshes
  {
    var r := s.refreshes[call];
    r.sid !in s.sessions && !Early(s, r.sid) && r.sid !in s.Members(r.session.user)
  }

  predicate StraysUnlisting(s: State, call: CallId)
    requires call in s.revocations
  {
    var r := s.revocations[call];
    r.owner.Some? && Exposed(s, r.owner.value, r.sid)
  }

  lemma RefreshWritesListsExactlyIf(s: State, call: CallId)
    requires Inv(s) && Listed(s) && call in s.refreshes
    ensures Listed(WrittenBack(s, call)) <==> !StraysWriting(s, call)
  {
    var t, r := WrittenBack(s, call), s.refreshes[call];
    assert RefreshAgrees(s, call) && ListedAt(s, r.sid);
    forall x | x != r.sid ensures ListedAt(t, x) { assert ListedAt(s, x); }
    assert ListedAt(t, r.sid) <==> !StraysWriting(s, call);
  }

  lemma ChangeDeletesListsExactlyIf(s: State, call: CallId)
    requires Listed(s) && Enabled(s, ChangeDeletes(call))
    ensures Listed(Next(s, ChangeDeletes(call))) <==> !Strays(s, ChangeDeletes(call))
  {
    var t, change := Next(s, ChangeDeletes(call)), s.changes[call];
    forall x ensures ListedAt(t, x) <==> !(Exposed(s, change.user, x) && x !in change.ids) { assert ListedAt(s, x); }
  }

  lemma IndexDroppedListsExactlyIf(s: State, user: UserId)
    requires Listed(s) && Enabled(s, IndexDropped(user))
    ensures Listed(Next(s, IndexDropped(user))) <==> !Strays(s, IndexDropped(user))
  {
    var t := Next(s, IndexDropped(user));
    forall x ensures ListedAt(t, x) <==> !Exposed(s, user, x) { assert ListedAt(s, x); }
  }

  lemma RevokeUnlistsListsExactlyIf(s: State, call: CallId)
    requires Listed(s) && call in s.revocations
    ensures Listed(Unlisted(s, call)) <==> !StraysUnlisting(s, call)
  {
    var t, r := Unlisted(s, call), s.revocations[call];
    forall x | x != r.sid ensures ListedAt(t, x) { assert ListedAt(s, x); }
    assert ListedAt(s, r.sid);
    assert ListedAt(t, r.sid) <==> !StraysUnlisting(s, call);
  }

  lemma LoginStepLists(s: State, step: Step)
    requires Inv(s) && Listed(s) && Enabled(s, step)
    requires step.LoginReadsRow? || step.LoginStores? || step.LoginAdds? || step.LoginExtends? || step.LoginIndexes?
             || step.LoginReadsAgain?
    ensures Listed(Next(s, step))
  {
    forall x ensures ListedAt(Next(s, step), x) { assert ListedAt(s, x); }
  }

  lemma RevokingLists(s: State, sid: SessionId, how: Option<CallId>)
    requires Listed(s)
    ensures Listed(Revoke(s, sid, how))
  {
    forall x ensures ListedAt(Revoke(s, sid, how), x) { assert ListedAt(s, x); }
  }

  lemma ChangeRevokesLists(s: State, call: CallId)
    requires Listed(s) && Enabled(s, ChangeRevokes(call))
    ensures Listed(Next(s, ChangeRevokes(call)))
  {
    forall x ensures ListedAt(Next(s, ChangeRevokes(call)), x) { assert ListedAt(s, x); }
  }

  /** Sessions only go, and what the index and the logins know of the others stays. */
  lemma GoingLists(s: State, t: State)
    requires Listed(s) && t.index == s.index && t.logins == s.logins
    requires forall x :: x in t.sessions ==> x in s.sessions && t.sessions[x] == s.sessions[x]
    ensures Listed(t)
  {
    forall x ensures ListedAt(t, x) { assert ListedAt(s, x); }
  }

  lemma LoginRevokesLists(s: State, sid: SessionId, how: Option<CallId>)
    requires Listed(s) && Enabled(s, LoginRevokes(sid, how))
    ensures Listed(Next(s, LoginRevokes(sid, how)))
  {
    var u := s.(logins := s.logins - {sid});
    forall x ensures ListedAt(u, x) { assert ListedAt(s, x); }
    RevokingLists(u, sid, how);
  }

  lemma KeyStepListsExactlyIf(s: State, step: Step)
    requires Listed(s) && Enabled(s, step) && OfKeys(step)
    ensures Listed(Next(s, step)) <==> !Strays(s, step)
  {
    match step
    case SessionRevoked(sid, how) => RevokingLists(s, sid, how);
    case RevokeUnlists(call) => RevokeUnlistsListsExactlyIf(s, call);
    case IndexDropped(user) => IndexDroppedListsExactlyIf(s, user);
    case SessionDropped(_) => GoingLists(s, Next(s, step));
    case RevokeDeletes(_) => GoingLists(s, Next(s, step));
  }

  lemma StepListsExactlyIf(s: State, step: Step)
    requires Inv(s) && Listed(s) && Enabled(s, step)
    ensures Listed(Next(s, step)) <==> !Strays(s, step)
  {
    if OfKeys(step) {
      KeyStepListsExactlyIf(s, step);
    } else {
      match step
      case RefreshWrites(call) => RefreshWritesListsExactlyIf(s, call);
      case ChangeDeletes(call) => ChangeDeletesListsExactlyIf(s, call);
      case LoginRevokes(sid, how) => LoginRevokesLists(s, sid, how);
      case ChangeRevokes(call) => ChangeRevokesLists(s, call);
      case RefreshRevokes(call, how) =>
        var u := s.(refreshes := s.refreshes - {call});
        GoingLists(s, u);
        RevokingLists(u, s.refreshes[call].sid, how);
      case _ => OtherStepLists(s, step);
    }
  }

  lemma OtherStepLists(s: State, step: Step)
    requires Inv(s) && Listed(s) && Enabled(s, step)
    requires !OfKeys(step) && !step.RefreshWrites? && !step.ChangeDeletes?
    requires !step.LoginRevokes? && !step.ChangeRevokes? && !step.RefreshRevokes?
    ensures Listed(Next(s, step))
  {
    if step.LoginReadsRow? || step.LoginStores? || step.LoginAdds? || step.LoginExtends? || step.LoginIndexes?
       || step.LoginReadsAgain? {
      LoginStepLists(s, step);
    } else {
      GoingLists(s, Next(s, step));
    }
  }

  /** In every state of the run each live session is in its user's index, or its login is on the way there. */
  ghost predicate ListedThroughout(s: State, steps: seq<Step>)
    requires Runs(s, steps)
    decreases |steps|
  {
    Listed(s) && (steps == [] || ListedThroughout(Next(s, steps[0]), steps[1..]))
  }

  ghost predicate NeverStrays(s: State, steps: seq<Step>)
    requires Runs(s, steps)
    decreases |steps|
  {
    steps == [] || (!Strays(s, steps[0]) && NeverStrays(Next(s, steps[0]), steps[1..]))
  }

  /** The index never loses a live session exactly in the runs without a step that strays. */
  lemma {:induction false} ListedExactlyIf(s: State, steps: seq<Step>)
    requires Inv(s) && Listed(s) && Runs(s, steps)
    ensures ListedThroughout(s, steps) <==> NeverStrays(s, steps)
    decreases |steps|
  {
    if steps != [] {
      StepKeepsInv(s, steps[0]);
      StepListsExactlyIf(s, steps[0]);
      if Listed(Next(s, steps[0])) {
        ListedExactlyIf(Next(s, steps[0]), steps[1..]);
      }
    }
  }
}
