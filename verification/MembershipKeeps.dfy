/**
 Every call of the services for users, Invites, registrations and Businesses keeps the invariant of
 the tables and takes no row and no owner away, call by call, from the changes of single rows up to
 whole calls with all their branches (birr-track-backend/src/users/users.service.ts,
 invites/invites.service.ts, registrations/registrations.service.ts and
 businesses/businesses.service.ts).
 */
module MembershipKeeps {
  import opened Common
  import opened Membership

  lemma CloseInvitesKeeps(db: Db, which: set<InviteId>, status: InviteStatus)
    requires Inv(db) && status != Waiting
    ensures Inv(CloseInvites(db, which, status)) && Grows(db, CloseInvites(db, which, status))
  {
    var after := CloseInvites(db, which, status);
    forall t ensures AccountOk(after, t) { assert AccountOk(db, t); }
    forall u ensures UserOk(after, u) { assert UserOk(db, u); }
    forall b ensures BusinessOk(after, b) { assert BusinessOk(db, b); }
    forall i ensures InviteOk(after, i) { assert InviteOk(db, i); }
    forall t ensures PendingOk(after, t) { assert PendingOk(db, t); }
  }

  /** A row that stays one account's and keeps its place in its Business may change. */
  lemma SetUserKeeps(db: Db, u: UserId, user: User)
    requires Inv(db) && u in db.users && user.telegramId == db.users[u].telegramId
    requires db.users[u].role != Owner && (user.role == Waiter || user.role == Manager)
             && user.businessId in db.businesses
    requires !user.removed ==> user.telegramId !in db.pending || db.users[u].removed == user.removed
    ensures Inv(SetUser(db, u, user)) && Grows(db, SetUser(db, u, user))
  {
    var after := SetUser(db, u, user);
    forall t ensures AccountOk(after, t) { assert AccountOk(db, t); }
    forall x ensures UserOk(after, x) { assert UserOk(db, x); }
    forall b ensures BusinessOk(after, b) { assert BusinessOk(db, b); }
    forall i ensures InviteOk(after, i) { assert InviteOk(db, i); }
    forall t ensures PendingOk(after, t) { assert PendingOk(db, t) && AccountOk(db, t) && UserOk(db, u); }
  }

  lemma SetStatusKeeps(db: Db, b: BusinessId, status: BusinessStatus)
    requires Inv(db) && b in db.businesses
    ensures Inv(SetStatus(db, b, status)) && Grows(db, SetStatus(db, b, status))
  {
    var after := SetStatus(db, b, status);
    forall t ensures AccountOk(after, t) { assert AccountOk(db, t); }
    forall x ensures UserOk(after, x) { assert UserOk(db, x); }
    forall x ensures BusinessOk(after, x) { assert BusinessOk(db, x); }
    forall i ensures InviteOk(after, i) { assert InviteOk(db, i); }
    forall t ensures PendingOk(after, t) { assert PendingOk(db, t); }
  }

  lemma InsertMemberKeeps(db: Db, user: User)
    requires Inv(db) && user.telegramId !in db.accounts && user.telegramId !in db.pending && !user.removed
    requires (user.role == Waiter || user.role == Manager) && user.businessId in db.businesses
    ensures Inv(InsertUser(db, user)) && Grows(db, InsertUser(db, user))
  {
    var after := InsertUser(db, user);
    assert UserOk(db, db.nextUser);
    forall t ensures AccountOk(after, t) { assert AccountOk(db, t); }
    forall x ensures UserOk(after, x) { assert UserOk(db, x); }
    forall b ensures BusinessOk(after, b) { assert BusinessOk(db, b); }
    forall i ensures InviteOk(after, i) { assert InviteOk(db, i); }
    forall t ensures PendingOk(after, t) { assert PendingOk(db, t) && AccountOk(db, t); }
  }

  lemma RegisterBusinessKeeps(db: Db, t: TelegramId)
    requires Inv(db) && t !in db.accounts && t !in db.pending
    ensures Inv(RegisterBusiness(db, t)) && Grows(db, RegisterBusiness(db, t))
  {
    var after := RegisterBusiness(db, t);
    assert UserOk(db, db.nextUser) && BusinessOk(db, db.nextBusiness);
    forall x ensures AccountOk(after, x) { assert AccountOk(db, x); }
    forall x ensures UserOk(after, x) { assert UserOk(db, x); }
    forall b ensures BusinessOk(after, b) { assert BusinessOk(db, b); }
    forall i ensures InviteOk(after, i) { assert InviteOk(db, i); }
    forall x ensures PendingOk(after, x) { assert PendingOk(db, x) && AccountOk(db, x); }
  }

  lemma InsertInviteKeeps(db: Db, invite: Invite)
    requires Inv(db) && invite.invitee !in db.pending && invite.status == Waiting
    requires db.ActiveByTelegramId(invite.invitee).None?
    requires invite.businessId in db.businesses
    requires invite.role == Waiter || (invite.role == Manager && OwnedBy(db, invite.businessId, invite.createdBy))
    ensures Inv(InsertInvite(db, invite)) && Grows(db, InsertInvite(db, invite))
  {
    var after := InsertInvite(db, invite);
    assert InviteOk(db, db.nextInvite);
    forall x ensures AccountOk(after, x) { assert AccountOk(db, x); }
    forall x ensures UserOk(after, x) { assert UserOk(db, x); }
    forall b ensures BusinessOk(after, b) { assert BusinessOk(db, b); }
    forall i ensures InviteOk(after, i) { assert InviteOk(db, i); }
    forall t ensures PendingOk(after, t) { assert PendingOk(db, t); }
  }

  /** Every pending Invite of the account is closed before a new one is stored. */
  lemma CreateInviteKeeps(db: Db, t: TelegramId, offer: Offer)
    requires Inv(db) && Permitted(db, offer)
    ensures Inv(CreateInvite(db, t, offer).0) && Grows(db, CreateInvite(db, t, offer).0)
  {
    if db.ActiveByTelegramId(t).None? {
      var cleared := CloseInvites(db, db.WaitingFor(t), Withdrawn);
      CloseInvitesKeeps(db, db.WaitingFor(t), Withdrawn);
      assert PendingOk(db, t);
      InsertInviteKeeps(cleared,
                        Invite(t, offer.businessId, offer.role, offer.createdBy, Waiting, db.clock + db.inviteTtl));
    }
  }

  lemma FindPendingKeeps(db: Db, t: TelegramId)
    requires Inv(db)
    ensures Inv(FindPending(db, t).0) && Grows(db, FindPending(db, t).0)
    ensures FindPending(db, t).1 == FindPending(db, t).0.PendingInvite(t)
    ensures FindPending(db, t).1.None? ==> t !in FindPending(db, t).0.pending
    ensures FindPending(db, t).0.users == db.users && FindPending(db, t).0.accounts == db.accounts
  {
    assert PendingOk(db, t);
    if db.PendingInvite(t).Some? {
      CloseInvitesKeeps(db, {db.pending[t]}, Expired);
    }
  }

  /**
   Joining is the one place where an account becomes active while its Invite is still pending:
   the Invite that is being redeemed is closed in the same call.
   */
  lemma RedeemInviteKeeps(db: Db, t: TelegramId)
    requires Inv(db)
    ensures Inv(RedeemInvite(db, t).0) && Grows(db, RedeemInvite(db, t).0)
  {
    FindPendingKeeps(db, t);
    var (found, pending) := FindPending(db, t);
    match pending
    case None =>
    case Some(i) =>
      assert PendingOk(found, t) && InviteOk(found, i) && AccountOk(found, t);
      var closed := CloseInvites(found, {i}, Redeemed);
      CloseInvitesKeeps(found, {i}, Redeemed);
      var b, role := found.invites[i].businessId, found.invites[i].role;
      match closed.AnyByTelegramId(t)
      case Some(u) =>
        assert UserOk(closed, u);
        if closed.users[u].removed {
          SetUserKeeps(closed, u, closed.users[u].(businessId := b, role := role, removed := false));
        }
      case None => InsertMemberKeeps(closed, User(t, b, role, false));
  }

  lemma SubmitSelfRegistrationKeeps(db: Db, t: TelegramId)
    requires Inv(db)
    ensures Inv(SubmitSelfRegistration(db, t).0) && Grows(db, SubmitSelfRegistration(db, t).0)
  {
    FindPendingKeeps(db, t);
    var (found, pending) := FindPending(db, t);
    if pending.None? {
      assert AccountOk(found, t);
      match found.AnyByTelegramId(t)
      case None => RegisterBusinessKeeps(found, t);
      case Some(u) =>
        if !found.users[u].removed && found.users[u].businessId in found.businesses {
          if found.businesses[found.users[u].businessId].status == Rejected {
            SetStatusKeeps(found, found.users[u].businessId, Pending);
          }
        }
    }
  }

  lemma RoleChangesKeep(db: Db, actor: Actor, target: UserId)
    requires Inv(db)
    ensures Inv(PromoteToManager(db, actor, target).0) && Grows(db, PromoteToManager(db, actor, target).0)
    ensures Inv(DemoteToWaiter(db, actor, target).0) && Grows(db, DemoteToWaiter(db, actor, target).0)
  {
    if db.ActiveUser(target) && db.users[target].role != Owner {
      assert UserOk(db, target);
      SetUserKeeps(db, target, db.users[target].(role := Manager));
      SetUserKeeps(db, target, db.users[target].(role := Waiter));
    }
  }

  lemma EndMembershipKeeps(db: Db, actor: Actor, target: UserId, kind: Departure)
    requires Inv(db)
    ensures Inv(EndMembership(db, actor, target, kind).0) && Grows(db, EndMembership(db, actor, target, kind).0)
  {
    if EndMembership(db, actor, target, kind).1.Ok? {
      assert UserOk(db, target);
      var user := db.users[target];
      var ended := SetUser(db, target, user.(removed := true));
      SetUserKeeps(db, target, user.(removed := true));
      CloseInvitesKeeps(ended, ended.WaitingFrom(user.businessId, target), Withdrawn);
    }
  }

  /** Approval finds its registrant already in the owner role. */
  lemma ApprovedKeeps(db: Db, b: BusinessId)
    requires Inv(db) && b in db.businesses
    ensures Approved(db, b) == SetStatus(db, b, Active)
    ensures Inv(Approved(db, b)) && Grows(db, Approved(db, b))
  {
    SetStatusKeeps(db, b, Active);
    assert BusinessOk(SetStatus(db, b, Active), b);
  }

  lemma DecisionsKeep(db: Db, b: BusinessId)
    requires Inv(db)
    ensures Inv(ApproveBusiness(db, b).0) && Grows(db, ApproveBusiness(db, b).0)
    ensures Inv(RejectBusiness(db, b).0) && Grows(db, RejectBusiness(db, b).0)
  {
    if b in db.businesses {
      ApprovedKeeps(db, b);
      SetStatusKeeps(db, b, Rejected);
    }
  }

  lemma SuspensionsKeep(db: Db, b: BusinessId)
    requires Inv(db)
    ensures Inv(SuspendBusiness(db, b).0) && Grows(db, SuspendBusiness(db, b).0)
    ensures Inv(UnsuspendBusiness(db, b).0) && Grows(db, UnsuspendBusiness(db, b).0)
  {
    if b in db.businesses {
      SetStatusKeeps(db, b, Suspended);
      SetStatusKeeps(db, b, Active);
    }
  }

  lemma ClosingCallsKeep(db: Db, i: InviteId, b: BusinessId)
    requires Inv(db)
    ensures Inv(RevokeInvite(db, i, b).0) && Grows(db, RevokeInvite(db, i, b).0)
    ensures Inv(ExpirePending(db).0) && Grows(db, ExpirePending(db).0)
  {
    CloseInvitesKeeps(db, {i}, Withdrawn);
    CloseInvitesKeeps(db, db.WaitingTooLong(), Expired);
  }
}
