/**
 Runs of LoginProtocol's calls that leave a live session outside its user's index, one for each
 of the four ways: a login between listing and deleting, an index that runs out before its new
 expiry, a refresh that writes back what was removed, and one that does so in the middle of a
 logout (birr-track-backend/src/auth/admin-panel-session.service.ts).
 */
module LostSessions {
  import opened Common
  import opened LoginProtocol

  /** One more enabled step, with the state it leads to. */
  lemma {:induction false} Then(s: State, steps: seq<Step>, step: Step) returns (more: seq<Step>, t: State)
    requires Runs(s, steps) && Enabled(After(s, steps), step)
    ensures more == steps + [step] && Runs(s, more) && t == After(s, more) && t == Next(After(s, steps), step)
    decreases |steps|
  {
    more := steps + [step];
    if steps == [] {
      assert [step][1..] == [] && [] + [step] == [step];
    } else {
      assert more[1..] == steps[1..] + [step];
      var rest, _ := Then(Next(s, steps[0]), steps[1..], step);
    }
    t := After(s, more);
  }

  const WAITER := Row(Standing(1, Waiter), false)

  const MANAGER := Row(Standing(1, Manager), false)

  /** User 5 is a waiter. */
  function Opening(): State { Start(map[5 := WAITER]) }

  /** A live session at rest that agrees with its row but that no index lists. */
  predicate StrayAtRest(s: State, sid: SessionId) {
    s.Quiescent() && sid in s.sessions && s.Current(s.sessions[sid]) && sid !in s.Members(s.sessions[sid].user)
  }

  /** A run that ends in one. */
  ghost predicate RunStrays(steps: seq<Step>, sid: SessionId) {
    Runs(Opening(), steps) && StrayAtRest(After(Opening(), steps), sid)
  }

  /** A promotion that has saved the row and read an empty index. */
  lemma {:induction false} PromotionUpToList(s: State) returns (steps: seq<Step>, t: State)
    requires s == Opening()
    ensures Runs(s, steps) && t == After(s, steps)
    ensures t == s.(rows := map[5 := MANAGER], changes := map[0 := IndexListed(5, {})])
  {
    var saves, saved := Then(s, [], ChangeSaves(0, 5, MANAGER));
    assert saved == s.(rows := map[5 := MANAGER], changes := map[0 := RowSaved(5)]);
    steps, t := Then(s, saves, ChangeLists(0));
  }

  /** A login as far as its SET. */
  lemma {:induction false} LoginUpToStore(s: State, steps: seq<Step>, sid: SessionId, user: UserId)
    returns (more: seq<Step>, t: State)
    requires Runs(s, steps)
    requires var before := After(s, steps);
             Enabled(before, LoginReadsRow(sid, user)) && sid !in before.logins && sid !in before.sessions
    ensures Runs(s, more) && t == After(s, more)
    ensures var before := After(s, steps);
            var session := Session(user, before.rows[user].standing);
            t == before.(used := before.used + {sid}, sessions := before.sessions[sid := session],
                         logins := before.logins[sid := Login(session, Stored)])
  {
    var a, t1 := Then(s, steps, LoginReadsRow(sid, user));
    more, t := Then(s, a, LoginStores(sid));
  }

  /** SADD with EXPIRE of a stored login on top of a run. */
  lemma {:induction false} IndexedOnTop(s: State, steps: seq<Step>, sid: SessionId)
    returns (more: seq<Step>, t: State)
    requires Runs(s, steps)
    requires sid in After(s, steps).logins && After(s, steps).logins[sid].stage == Stored
    ensures Runs(s, more) && t == After(s, more)
    ensures var before := After(s, steps);
            var session := before.logins[sid].session;
            t == before.(index := before.index[session.user := before.Members(session.user) + {sid}],
                         lasting := before.lasting + {session.user},
                         logins := before.logins[sid := Login(session, Indexed)])
  {
    more, t := Then(s, steps, LoginIndexes(sid));
  }

  /** A login as far as its EXPIRE. */
  lemma {:induction false} LoginUpToExpire(s: State, steps: seq<Step>, sid: SessionId, user: UserId)
    returns (more: seq<Step>, t: State)
    requires Runs(s, steps)
    requires var before := After(s, steps);
             Enabled(before, LoginReadsRow(sid, user)) && sid !in before.logins && sid !in before.sessions
    ensures Runs(s, more) && t == After(s, more)
    ensures var before := After(s, steps);
            var session := Session(user, before.rows[user].standing);
            t == before.(used := before.used + {sid}, sessions := before.sessions[sid := session],
                         index := before.index[user := before.Members(user) + {sid}],
                         lasting := before.lasting + {user}, logins := before.logins[sid := Login(session, Indexed)])
  {
    var a, t1 := LoginUpToStore(s, steps, sid, user);
    more, t := IndexedOnTop(s, a, sid);
    assert t1.Members(user) == After(s, steps).Members(user);
    assert t.logins == After(s, steps).logins[sid := Login(t1.logins[sid].session, Indexed)];
  }

  /** A whole login on top of a run. */
  lemma {:induction false} LoginOf(s: State, steps: seq<Step>, sid: SessionId, user: UserId)
    returns (more: seq<Step>, t: State)
    requires Runs(s, steps)
    requires var before := After(s, steps);
             Enabled(before, LoginReadsRow(sid, user)) && sid !in before.logins && sid !in before.sessions
    ensures Runs(s, more) && t == After(s, more)
    ensures var before := After(s, steps);
            t == before.(used := before.used + {sid},
                         sessions := before.sessions[sid := Session(user, before.rows[user].standing)],
                         index := before.index[user := before.Members(user) + {sid}],
                         lasting := before.lasting + {user})
  {
    var a, t1 := LoginUpToExpire(s, steps, sid, user);
    more, t := Then(s, a, LoginReadsAgain(sid));
    assert t.logins == After(s, steps).logins;
  }

  /** SMEMBERS of a promotion, a whole login of the promoted user, then the promotion's pipeline. */
  lemma SplitRevocationStraysASession()
    ensures exists steps :: RunStrays(steps, 7)
  {
    var s := Opening();
    var listing, listed := PromotionUpToList(s);
    var login, in7 := LoginOf(s, listing, 7, 5);
    var steps, t := Then(s, login, ChangeDeletes(0));
    assert t.changes == map[] && t.index[5] == {};
    assert RunStrays(steps, 7);
  }

  /** An earlier session of the user that ran out, leaving its index with an expiry. */
  lemma {:induction false} IndexLeftBehind(s: State) returns (steps: seq<Step>, t: State)
    requires s == Opening()
    ensures Runs(s, steps) && t == After(s, steps)
    ensures t == s.(used := {6}, index := map[5 := {6}], lasting := {5})
  {
    var login, in6 := LoginOf(s, [], 6, 5);
    steps, t := Then(s, login, SessionDropped(6));
    assert t.sessions == map[] && t.used == {6} && t.lasting == {5} && t.index == map[5 := {6}];
  }

  /** The next login as far as its SADD, and the old index runs out. */
  lemma {:induction false} IndexRunsOut(s: State) returns (steps: seq<Step>, t: State)
    requires s == Opening()
    ensures Runs(s, steps) && t == After(s, steps)
    ensures var session := Session(5, WAITER.standing);
            t == s.(used := {6, 7}, sessions := map[7 := session], index := map[5 := {}],
                    logins := map[7 := Login(session, Added)])
  {
    var left, t1 := IndexLeftBehind(s);
    var stored, t2 := LoginUpToStore(s, left, 7, 5);
    var added, t3 := Then(s, stored, LoginAdds(7));
    steps, t := Then(s, added, IndexDropped(5));
    assert t.lasting == {};
  }

  /** An index that runs out between SADD and EXPIRE. */
  lemma SplitIndexingStraysASession()
    ensures exists steps :: RunStrays(steps, 7)
  {
    var s := Opening();
    var gone, t1 := IndexRunsOut(s);
    var b, t2 := Then(s, gone, LoginExtends(7));
    assert t2 == t1.(logins := map[7 := Login(Session(5, WAITER.standing), Indexed)]);
    var steps, t3 := Then(s, b, LoginReadsAgain(7));
    assert t3.logins == map[];
    assert RunStrays(steps, 7);
  }

  /** A login, and a refresh of its session that has read the record. */
  lemma {:induction false} RefreshUpToRead(s: State) returns (steps: seq<Step>, t: State)
    requires s == Opening()
    ensures Runs(s, steps) && t == After(s, steps)
    ensures var session := Session(5, WAITER.standing);
            t == s.(used := {7}, sessions := map[7 := session], index := map[5 := {7}], lasting := {5},
                    refreshes := map[0 := Refresh(7, session, Fetched)])
  {
    var login, in7 := LoginOf(s, [], 7, 5);
    assert in7.used == {7} && in7.lasting == {5} && in7.index == map[5 := {7}];
    steps, t := Then(s, login, RefreshReads(0, 7));
  }

  /** The refresh goes on after its session was taken away, and finds the row unchanged. */
  lemma {:induction false} RefreshLands(s: State, steps: seq<Step>) returns (more: seq<Step>, t: State)
    requires Runs(s, steps)
    requires var before := After(s, steps);
             && before.refreshes == map[0 := Refresh(7, Session(5, WAITER.standing), Fetched)]
             && before.rows == map[5 := WAITER] && before.sessions == map[]
    ensures Runs(s, more) && t == After(s, more)
    ensures t == After(s, steps).(sessions := map[7 := Session(5, WAITER.standing)], refreshes := map[])
  {
    var a, written := Then(s, steps, RefreshWrites(0));
    more, t := Then(s, a, RefreshChecks(0));
    assert t.refreshes == map[];
  }

  /** `revokeAllForUser` of a change that has saved its row, on top of a run. */
  lemma {:induction false} Revokes(s: State, steps: seq<Step>, call: CallId, user: UserId)
    returns (more: seq<Step>, t: State)
    requires Runs(s, steps)
    requires call in After(s, steps).changes && After(s, steps).changes[call] == RowSaved(user)
    ensures Runs(s, more) && t == After(s, more)
    ensures var before := After(s, steps);
            t == before.(sessions := before.sessions - before.Members(user), index := before.index[user := {}],
                         lasting := before.lasting - {user}, changes := before.changes - {call})
  {
    more, t := Then(s, steps, ChangeRevokes(call));
  }

  /** A member is removed, with all indexed sessions. */
  lemma {:induction false} Departs(s: State, steps: seq<Step>) returns (more: seq<Step>, t: State)
    requires Runs(s, steps)
    requires var before := After(s, steps);
             before.rows == map[5 := WAITER] && before.changes == map[] && before.index == map[5 := {7}]
    ensures Runs(s, more) && t == After(s, more)
    ensures var before := After(s, steps);
            t == before.(rows := map[5 := WAITER.(removed := true)], sessions := before.sessions - {7},
                         index := map[5 := {}], lasting := before.lasting - {5})
  {
    var a, saved := Then(s, steps, ChangeSaves(1, 5, WAITER.(removed := true)));
    more, t := Revokes(s, a, 1, 5);
    assert t.changes == map[] && t.rows == map[5 := WAITER.(removed := true)];
  }

  /** And rejoins in the same standing. */
  lemma {:induction false} AwayAndBack(s: State, steps: seq<Step>) returns (more: seq<Step>, t: State)
    requires Runs(s, steps)
    requires var before := After(s, steps);
             before.rows == map[5 := WAITER] && before.changes == map[] && before.index == map[5 := {7}]
    ensures Runs(s, more) && t == After(s, more)
    ensures var before := After(s, steps);
            t == before.(sessions := before.sessions - {7}, index := map[5 := {}], lasting := before.lasting - {5})
  {
    var a, gone := Departs(s, steps);
    more, t := Then(s, a, Rejoins(5, WAITER.standing));
    assert t.rows == map[5 := WAITER];
  }

  /** A refresh that reads its record before a removal and writes it back after the member rejoined. */
  lemma SplitRefreshStraysASession()
    ensures exists steps :: RunStrays(steps, 7)
  {
    var s := Opening();
    var a, t1 := RefreshUpToRead(s);
    var b, t2 := AwayAndBack(s, a);
    assert t2.sessions == map[];
    var c, t3 := RefreshLands(s, b);
    assert RunStrays(c, 7);
  }

  /** A logout of the session as far as its DEL. */
  lemma {:induction false} LogoutUpToDelete(s: State, steps: seq<Step>) returns (more: seq<Step>, t: State)
    requires Runs(s, steps)
    requires var before := After(s, steps);
             before.sessions == map[7 := Session(5, WAITER.standing)] && before.revocations == map[]
    ensures Runs(s, more) && t == After(s, more)
    ensures t == After(s, steps).(sessions := map[], revocations := map[1 := Revocation(7, Some(5), true)])
  {
    var a, found := Then(s, steps, SessionRevoked(7, Some(1)));
    more, t := Then(s, a, RevokeDeletes(1));
    assert t.sessions == map[];
  }

  /** A refresh that writes its record back between the DEL and the SREM of a logout. */
  lemma SplitLogoutStraysASession()
    ensures exists steps :: RunStrays(steps, 7)
  {
    var s := Opening();
    var a, t1 := RefreshUpToRead(s);
    var b, t2 := LogoutUpToDelete(s, a);
    var c, t3 := RefreshLands(s, b);
    var steps, t4 := Then(s, c, RevokeUnlists(1));
    assert t4.revocations == map[] && 7 !in t4.index[5];
    assert RunStrays(steps, 7);
  }
}
