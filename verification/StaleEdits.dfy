/**
 Promotion, demotion and the choice of a language read a user's row and save the whole row later
 without a lock (birr-track-backend/src/users/users.service.ts). Every run of the membership
 services with these edits split into their read and their save.
 */
module StaleEdits {
  import opened Common
  import opened Membership
  import opened MembershipKeeps
  import Tenancy

  datatype Edit = Promotion | Demotion | Language

  /** A row about to be saved over whatever its user's row has become. */
  datatype Draft = Draft(userId: UserId, row: User)

  datatype World = World(tenancy: Tenancy.World, drafts: set<Draft>)

  datatype Step = Calls(call: Tenancy.Step) | Reads(userId: UserId, edit: Edit) | Saves(draft: Draft)

  /** The edits that an active row allows. */
  predicate MayEdit(db: Db, u: UserId, edit: Edit) {
    && db.ActiveUser(u)
    && (edit == Promotion ==> db.users[u].role == Waiter)
    && (edit == Demotion ==> db.users[u].role == Manager)
  }

  function Edited(row: User, edit: Edit): User {
    match edit
    case Promotion => row.(role := Manager)
    case Demotion => row.(role := Waiter)
    case Language => row
  }

  predicate Enabled(w: World, step: Step) {
    match step
    case Calls(call) => Tenancy.Enabled(w.tenancy, call)
    case Reads(_, _) => true
    case Saves(draft) => draft in w.drafts && draft.userId in w.tenancy.db.users
  }

  function Next(w: World, step: Step): World
    requires Enabled(w, step)
  {
    match step
    case Calls(call) => w.(tenancy := Tenancy.Next(w.tenancy, call))
    case Reads(u, edit) =>
      if MayEdit(w.tenancy.db, u, edit)
      then w.(drafts := w.drafts + {Draft(u, Edited(w.tenancy.db.users[u], edit))}) else w
    case Saves(draft) =>
      World(w.tenancy.(db := SetUser(w.tenancy.db, draft.userId, draft.row)), w.drafts - {draft})
  }

  // ------------------------------------------------------------------------- invariant

  /** An owner's draft is the owner's row; any other is a staff row of the same account. */
  predicate DraftOk(db: Db, draft: Draft) {
    && draft.userId in db.users && !draft.row.removed
    && draft.row.telegramId == db.users[draft.userId].telegramId
    && draft.row.businessId in db.businesses
    && if draft.row.role == Owner then draft.row == db.users[draft.userId]
       else db.users[draft.userId].role != Owner && (draft.row.role == Waiter || draft.row.role == Manager)
  }

  ghost predicate Sound(w: World) {
    Tenancy.Sound(w.tenancy) && forall draft :: draft in w.drafts ==> DraftOk(w.tenancy.db, draft)
  }

  /** Rows keep their accounts, Owners their rows, and nobody else becomes an Owner. */
  ghost predicate KeepsAccounts(db: Db, after: Db) {
    forall u :: u in db.users ==>
      && u in after.users && after.users[u].telegramId == db.users[u].telegramId
      && (after.users[u].role == Owner <==> db.users[u].role == Owner)
      && (db.users[u].role == Owner ==> after.users[u] == db.users[u])
  }

  lemma JoiningKeepsAccounts(db: Db, t: TelegramId)
    requires Inv(db)
    ensures KeepsAccounts(db, RedeemInvite(db, t).0)
  {
    FindPendingKeeps(db, t);
    var found := FindPending(db, t).0;
    assert AccountOk(found, t) && UserOk(found, found.nextUser);
    if found.PendingInvite(t).Some? {
      assert InviteOk(found, found.pending[t]);
    }
    if found.AnyByTelegramId(t).Some? {
      assert UserOk(found, found.accounts[t]);
    }
  }

  lemma SubmittingKeepsAccounts(db: Db, t: TelegramId)
    requires Inv(db)
    ensures KeepsAccounts(db, SubmitSelfRegistration(db, t).0)
  {
    FindPendingKeeps(db, t);
    assert UserOk(db, db.nextUser);
  }

  lemma EndingKeepsAccounts(db: Db, actor: Actor, target: UserId, kind: Departure)
    ensures KeepsAccounts(db, EndMembership(db, actor, target, kind).0)
  {
  }

  lemma StaffCallsKeepAccounts(w: Tenancy.World, call: Tenancy.Step)
    requires Tenancy.Enabled(w, call) && (call.Promotes? || call.Demotes? || call.Removes? || call.Leaves?)
    ensures KeepsAccounts(w.db, Tenancy.Next(w, call).db)
  {
    match call
    case Removes(c, u) => EndingKeepsAccounts(w.db, c.actor, u, Removed);
    case Leaves(u) =>
      if w.db.ActiveUser(u) {
        EndingKeepsAccounts(w.db, Actor(u, w.db.users[u].businessId, w.db.users[u].role), u, Left);
      }
    case _ =>
  }

  lemma CallKeepsAccounts(w: Tenancy.World, call: Tenancy.Step)
    requires Tenancy.Sound(w) && Tenancy.Enabled(w, call)
    ensures KeepsAccounts(w.db, Tenancy.Next(w, call).db)
  {
    match call
    case Redeems(t) => JoiningKeepsAccounts(w.db, t);
    case Submits(t) => SubmittingKeepsAccounts(w.db, t);
    case Decides(d) => ApprovedKeeps(w.db, d.businessId);
    case _ =>
      if call.Promotes? || call.Demotes? || call.Removes? || call.Leaves? {
        StaffCallsKeepAccounts(w, call);
      }
  }

  lemma CallKeepsSound(w: World, call: Tenancy.Step)
    requires Sound(w) && Enabled(w, Calls(call))
    ensures Sound(Next(w, Calls(call)))
  {
    Tenancy.StepIsSound(w.tenancy, call);
    CallKeepsAccounts(w.tenancy, call);
    forall draft | draft in w.drafts ensures DraftOk(Tenancy.Next(w.tenancy, call).db, draft) {
      assert DraftOk(w.tenancy.db, draft);
    }
  }

  lemma ReadKeepsSound(w: World, u: UserId, edit: Edit)
    requires Sound(w)
    ensures Sound(Next(w, Reads(u, edit)))
  {
    assert UserOk(w.tenancy.db, u);
  }

  // --------------------------------------------------------- exactly which saves are harmless

  /** The account has no pending Invite when the row is saved. */
  predicate Timely(db: Db, draft: Draft) { draft.row.telegramId !in db.pending }

  /** However stale the row, saving it keeps the tables in order exactly if its account has no pending Invite. */
  lemma SaveKeepsInvExactlyIf(db: Db, draft: Draft)
    requires Inv(db) && DraftOk(db, draft)
    ensures Inv(SetUser(db, draft.userId, draft.row)) <==> Timely(db, draft)
  {
    var u, t, after := draft.userId, draft.row.telegramId, SetUser(db, draft.userId, draft.row);
    assert UserOk(db, u) && PendingOk(db, t);
    if draft.row.role == Owner {
      assert after.users == db.users;
      assert after == db;
    } else if Timely(db, draft) {
      SetUserKeeps(db, u, draft.row);
    } else {
      assert after.ActiveByTelegramId(t) == Some(u);
      assert !PendingOk(after, t);
    }
  }

  lemma SaveKeepsDrafts(db: Db, draft: Draft, other: Draft)
    requires DraftOk(db, draft) && DraftOk(db, other)
    ensures DraftOk(SetUser(db, draft.userId, draft.row), other)
  {
  }

  lemma SaveKeepsSound(w: World, draft: Draft)
    requires Sound(w) && Enabled(w, Saves(draft)) && Timely(w.tenancy.db, draft)
    ensures Sound(Next(w, Saves(draft)))
  {
    SaveKeepsInvExactlyIf(w.tenancy.db, draft);
    var after := Next(w, Saves(draft));
    forall other | other in after.drafts ensures DraftOk(after.tenancy.db, other) {
      SaveKeepsDrafts(w.tenancy.db, draft, other);
    }
    forall c | c in after.tenancy.contexts ensures Tenancy.ContextOk(after.tenancy.db, c) {
      assert Tenancy.ContextOk(w.tenancy.db, c);
    }
  }

  // ------------------------------------------------------------------------------ runs

  predicate Runs(w: World, steps: seq<Step>)
    decreases |steps|
  {
    steps == [] || (Enabled(w, steps[0]) && Runs(Next(w, steps[0]), steps[1..]))
  }

  function After(w: World, steps: seq<Step>): World
    requires Runs(w, steps)
    decreases |steps|
  {
    if steps == [] then w else After(Next(w, steps[0]), steps[1..])
  }

  /** The tables are in order in every state of the run. */
  ghost predicate InvThroughout(w: World, steps: seq<Step>)
    requires Runs(w, steps)
    decreases |steps|
  {
    Inv(w.tenancy.db) && (steps == [] || InvThroughout(Next(w, steps[0]), steps[1..]))
  }

  /** No row is saved over an account with a pending Invite. */
  predicate TimelyRun(w: World, steps: seq<Step>)
    requires Runs(w, steps)
    decreases |steps|
  {
    steps == []
    || ((steps[0].Saves? ==> Timely(w.tenancy.db, steps[0].draft)) && TimelyRun(Next(w, steps[0]), steps[1..]))
  }

  /** The tables stay in order exactly in the runs that save no row over an account with a pending Invite. */
  lemma {:induction false} TablesKeepInOrderExactlyIf(w: World, steps: seq<Step>)
    requires Sound(w) && Runs(w, steps)
    ensures InvThroughout(w, steps) <==> TimelyRun(w, steps)
    decreases |steps|
  {
    if steps != [] {
      match steps[0]
      case Calls(call) =>
        CallKeepsSound(w, call);
        TablesKeepInOrderExactlyIf(Next(w, steps[0]), steps[1..]);
      case Reads(u, edit) =>
        ReadKeepsSound(w, u, edit);
        TablesKeepInOrderExactlyIf(Next(w, steps[0]), steps[1..]);
      case Saves(draft) =>
        SaveKeepsInvExactlyIf(w.tenancy.db, draft);
        if Timely(w.tenancy.db, draft) {
          SaveKeepsSound(w, draft);
          TablesKeepInOrderExactlyIf(Next(w, steps[0]), steps[1..]);
        }
    }
  }

  /** An edit saved right behind its read is the whole call of an owner, or changes nothing but a language. */
  lemma EditAtOnceIsTheCall(w: World, u: UserId, edit: Edit, owner: Actor)
    requires MayEdit(w.tenancy.db, u, edit) && owner.role == Owner
    requires owner.businessId == w.tenancy.db.users[u].businessId
    ensures var db := w.tenancy.db;
            exists draft ::
              && draft in Next(w, Reads(u, edit)).drafts && draft.userId == u
              && SetUser(db, u, draft.row) ==
                 match edit
                 case Promotion => PromoteToManager(db, owner, u).0
                 case Demotion => DemoteToWaiter(db, owner, u).0
                 case Language => db
  {
    var db, draft := w.tenancy.db, Draft(u, Edited(w.tenancy.db.users[u], edit));
    assert draft in Next(w, Reads(u, edit)).drafts;
    assert edit == Language ==> SetUser(db, u, draft.row).users == db.users;
  }

  /** Whoever leaves and is invited again waits for an answer, and drafts of their row stay. */
  lemma {:induction false} LeavesAndIsInvited(w: World, u: UserId, c: Tenancy.Context, role: Role)
    returns (w1: World, w2: World)
    requires Sound(w) && c in w.tenancy.contexts && Tenancy.MayInvite(c, role)
    requires w.tenancy.db.ActiveUser(u) && w.tenancy.db.users[u].role == Waiter
    ensures Enabled(w, Calls(Tenancy.Leaves(u))) && w1 == Next(w, Calls(Tenancy.Leaves(u)))
    ensures var invite := Calls(Tenancy.Invites(c, w.tenancy.db.users[u].telegramId, role));
            Enabled(w1, invite) && w2 == Next(w1, invite)
    ensures Sound(w2) && w2.drafts == w.drafts && w.tenancy.db.users[u].telegramId in w2.tenancy.db.pending
  {
    var t := w.tenancy.db.users[u].telegramId;
    w1 := Next(w, Calls(Tenancy.Leaves(u)));
    CallKeepsSound(w, Tenancy.Leaves(u));
    w2 := Next(w1, Calls(Tenancy.Invites(c, t, role)));
    CallKeepsSound(w1, Tenancy.Invites(c, t, role));
    LeaverIsInvited(w.tenancy.db, u, Offer(c.actor.businessId, role, c.actor.userId));
  }

  /** Leaving and being invited again between the read and the save of a promotion. */
  lemma StalePromotionRevivesAMember(w: World, u: UserId, c: Tenancy.Context, role: Role)
    requires Sound(w) && c in w.tenancy.contexts && Tenancy.MayInvite(c, role)
    requires w.tenancy.db.ActiveUser(u) && w.tenancy.db.users[u].role == Waiter
    ensures var row := w.tenancy.db.users[u];
            var leave, invite := Calls(Tenancy.Leaves(u)), Calls(Tenancy.Invites(c, row.telegramId, role));
            var steps := [Reads(u, Promotion), leave, invite, Saves(Draft(u, row.(role := Manager)))];
            Runs(w, steps) && !Inv(After(w, steps).tenancy.db)
  {
    var row := w.tenancy.db.users[u];
    var draft := Draft(u, row.(role := Manager));
    var leave, invite := Calls(Tenancy.Leaves(u)), Calls(Tenancy.Invites(c, row.telegramId, role));
    var w1 := Next(w, Reads(u, Promotion));
    ReadKeepsSound(w, u, Promotion);
    var w2, w3 := LeavesAndIsInvited(w1, u, c, role);
    assert draft in w3.drafts;
    SaveKeepsInvExactlyIf(w3.tenancy.db, draft);
    RunOfFour(w, w1, w2, w3, Next(w3, Saves(draft)), [Reads(u, Promotion), leave, invite, Saves(draft)]);
  }

  lemma RunOfFour(w: World, w1: World, w2: World, w3: World, w4: World, steps: seq<Step>)
    requires |steps| == 4
    requires Enabled(w, steps[0]) && w1 == Next(w, steps[0]) && Enabled(w1, steps[1]) && w2 == Next(w1, steps[1])
    requires Enabled(w2, steps[2]) && w3 == Next(w2, steps[2]) && Enabled(w3, steps[3]) && w4 == Next(w3, steps[3])
    ensures Runs(w, steps) && After(w, steps) == w4
  {
    assert steps[3..][1..] == [] && steps[2..][1..] == steps[3..] && steps[1..][1..] == steps[2..];
    assert Runs(w4, []) && After(w4, []) == w4;
    assert Runs(w3, steps[3..]) && After(w3, steps[3..]) == w4;
    assert Runs(w2, steps[2..]) && After(w2, steps[2..]) == w4;
    assert Runs(w1, steps[1..]) && After(w1, steps[1..]) == w4;
  }

  lemma LeaverIsInvited(db: Db, u: UserId, offer: Offer)
    requires Inv(db) && db.ActiveUser(u) && db.users[u].role == Waiter
    ensures db.users[u].telegramId in CreateInvite(LeaveBusiness(db, u).0, db.users[u].telegramId, offer).0.pending
  {
    assert UserOk(db, u);
  }
}
