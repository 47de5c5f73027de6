/**
 The services that change users, Invites and Businesses, over their shared tables. Each call is
 specified by its function in module Membership.
 */
module MembershipServices {
  import opened Common
  import opened Membership
  import opened MembershipKeeps
  import opened InviteBatches

  class MembershipDatabase {
    var users: map<UserId, User>
    var accounts: map<TelegramId, UserId>
    var businesses: map<BusinessId, Business>
    var invites: map<InviteId, Invite>
    var pending: map<TelegramId, InviteId>
    var nextUser: UserId
    var nextBusiness: BusinessId
    var nextInvite: InviteId
    var clock: nat
    const inviteTtl: nat

    /** The users whose sessions were revoked, in order. */
    var revocations: seq<UserId>

    /** The `rejectionReason` of the Businesses that have one. */
    var reasons: map<BusinessId, string>

    function State(): Db
      reads this
    {
      Db(users, accounts, businesses, invites, pending, nextUser, nextBusiness, nextInvite, clock, inviteTtl)
    }

    ghost predicate Valid()
      reads this
    {
      Inv(State())
    }

    // ----------------------------------------------------------------- users.service

    method Join(t: TelegramId, b: BusinessId, role: Role) returns (outcome: Result<UserId, Fault>)
      modifies this
      ensures (State(), outcome) == JoinBusiness(old(State()), t, b, role)
      ensures unchanged(this`revocations, this`reasons)
    {
      var existing := State().AnyByTelegramId(t);
      if existing.Some? && !users[existing.value].removed {
        return Err(Conflict);
      }
      if existing.Some? {
        var u := existing.value;
        users := users[u := users[u].(businessId := b, role := role, removed := false)];
        return Ok(u);
      }
      var u := nextUser;
      users := users[u := User(t, b, role, false)];
      accounts := accounts[t := u];
      nextUser := u + 1;
      return Ok(u);
    }

    method Promote(actor: Actor, target: UserId) returns (outcome: Result<(), Fault>)
      requires Valid()
      modifies this
      ensures (State(), outcome) == PromoteToManager(old(State()), actor, target)
      ensures Valid() && Grows(old(State()), State())
      ensures revocations == old(revocations) + if outcome.Ok? then [target] else []
      ensures unchanged(this`reasons)
    {
      RoleChangesKeep(State(), actor, target);
      if !Teammate(State(), actor, target) {
        return Err(NotFound);
      }
      if actor.role != Owner {
        return Err(Forbidden);
      }
      if users[target].role != Waiter {
        return Err(Conflict);
      }
      users := users[target := users[target].(role := Manager)];
      revocations := revocations + [target];
      return Ok(());
    }

    method Demote(actor: Actor, target: UserId) returns (outcome: Result<(), Fault>)
      requires Valid()
      modifies this
      ensures (State(), outcome) == DemoteToWaiter(old(State()), actor, target)
      ensures Valid() && Grows(old(State()), State())
      ensures revocations == old(revocations) + if outcome.Ok? then [target] else []
      ensures unchanged(this`reasons)
    {
      RoleChangesKeep(State(), actor, target);
      if !Teammate(State(), actor, target) {
        return Err(NotFound);
      }
      if users[target].role == Owner {
        return Err(Forbidden);
      }
      if actor.role != Owner {
        return Err(Forbidden);
      }
      if users[target].role != Manager {
        return Err(Conflict);
      }
      users := users[target := users[target].(role := Waiter)];
      revocations := revocations + [target];
      return Ok(());
    }

    method End(actor: Actor, target: UserId, kind: Departure) returns (outcome: Result<(), Fault>)
      requires Valid()
      modifies this
      ensures (State(), outcome) == EndMembership(old(State()), actor, target, kind)
      ensures Valid() && Grows(old(State()), State())
      ensures revocations == old(revocations) + if outcome.Ok? then [target] else []
      ensures unchanged(this`reasons)
    {
      EndMembershipKeeps(State(), actor, target, kind);
      if !Teammate(State(), actor, target) {
        return Err(NotFound);
      }
      var user := users[target];
      if user.role == Owner {
        return Err(Forbidden);
      }
      if kind == Removed {
        if user.role == Manager && actor.role != Owner {
          return Err(Forbidden);
        }
        if user.role == Waiter && !HasRoleAtLeast(actor, Manager) {
          return Err(Forbidden);
        }
      }
      users := users[target := user.(removed := true)];
      if user.role == Manager {
        Close(State().WaitingFrom(user.businessId, target), Withdrawn);
      }
      revocations := revocations + [target];
      return Ok(());
    }

    method Leave(u: UserId) returns (outcome: Result<(), Fault>)
      requires Valid()
      modifies this
      ensures (State(), outcome) == LeaveBusiness(old(State()), u)
      ensures Valid() && Grows(old(State()), State())
      ensures revocations == old(revocations) + if outcome.Ok? then [u] else []
      ensures unchanged(this`reasons)
    {
      if u !in users || users[u].removed {
        return Err(NotFound);
      }
      outcome := End(Actor(u, users[u].businessId, users[u].role), u, Left);
    }

    // --------------------------------------------------------------- invites.service

    /** `inviteRepository.update({ ..., status: 'pending' }, { status })`. */
    method Close(which: set<InviteId>, status: InviteStatus)
      modifies this
      ensures State() == CloseInvites(old(State()), which, status)
      ensures unchanged(this`revocations, this`reasons)
    {
      invites := map i | i in invites ::
                   if i in which && invites[i].status == Waiting then invites[i].(status := status) else invites[i];
      pending := map t | t in pending && pending[t] !in which :: pending[t];
    }

    method Create(t: TelegramId, offer: Offer, failure: Option<DatabaseCall>)
      returns (outcome: Result<InviteId, Fault>)
      modifies this
      ensures (State(), outcome) == TryInvite(old(State()), t, offer, failure)
      ensures unchanged(this`revocations, this`reasons)
      ensures old(Valid()) && Permitted(old(State()), offer) ==> Valid() && Grows(old(State()), State())
    {
      if Valid() && Permitted(State(), offer) {
        TryInviteKeeps(State(), t, offer, failure);
      }
      if failure == Some(Lookup) {
        return Err(DatabaseError);
      }
      if State().ActiveByTelegramId(t).Some? {
        return Err(Conflict);
      }
      if failure == Some(Withdrawal) {
        return Err(DatabaseError);
      }
      Close(State().WaitingFor(t), Withdrawn);
      if failure == Some(Saving) {
        return Err(DatabaseError);
      }
      var i := nextInvite;
      invites := invites[i := Invite(t, offer.businessId, offer.role, offer.createdBy, Waiting, clock + inviteTtl)];
      pending := pending[t := i];
      nextInvite := i + 1;
      return Ok(i);
    }

    method CreateAll(texts: seq<string>, offer: Offer, failures: Failures)
      returns (outcome: Result<seq<BatchOutcome>, Fault>)
      modifies this
      ensures (State(), outcome) == CreateBatch(old(State()), texts, offer, failures)
      ensures unchanged(this`revocations, this`reasons)
      ensures old(Valid()) && Permitted(old(State()), offer) ==> Valid() && Grows(old(State()), State())
    {
      var ids := Distinct(Trimmed(texts));
      if Valid() && Permitted(State(), offer) {
        CreateEachKeeps(State(), ids, offer, failures);
      }
      if |ids| == 0 || |ids| > MAX_INVITE_BATCH_SIZE {
        return Err(BadRequest);
      }
      ghost var start := State();
      var outcomes: seq<BatchOutcome> := [];
      for k := 0 to |ids|
        invariant revocations == old(revocations) && reasons == old(reasons)
        invariant (State(), outcomes) == CreateEach(start, ids[..k], offer, failures)
      {
        OneMoreInvited(start, ids, offer, failures, k);
        var created := Create(ids[k], offer, FailureOf(failures, ids[k]));
        outcomes := outcomes + [OutcomeOf(ids[k], created)];
      }
      assert ids[..|ids|] == ids;
      return Ok(outcomes);
    }

    method Find(t: TelegramId) returns (found: Option<InviteId>)
      requires Valid()
      modifies this
      ensures (State(), found) == FindPending(old(State()), t)
      ensures Valid() && Grows(old(State()), State())
      ensures unchanged(this`revocations, this`reasons)
    {
      FindPendingKeeps(State(), t);
      found := State().PendingInvite(t);
      if found.None? {
        return;
      }
      if invites[found.value].expiresAt <= clock {
        Close({found.value}, Expired);
        return None;
      }
    }

    method Redeem(t: TelegramId) returns (outcome: Result<Option<UserId>, Fault>)
      requires Valid()
      modifies this
      ensures (State(), outcome) == RedeemInvite(old(State()), t)
      ensures Valid() && Grows(old(State()), State())
      ensures unchanged(this`revocations, this`reasons)
    {
      RedeemInviteKeeps(State(), t);
      var found := Find(t);
      if found.None? {
        return Ok(None);
      }
      var i := found.value;
      var joined := Join(t, invites[i].businessId, invites[i].role);
      match joined {
        case Err(e) => return Err(e);
        case Ok(u) =>
          Close({i}, InviteStatus.Redeemed);
          return Ok(Some(u));
      }
    }

    method Withdraw(i: InviteId, b: BusinessId) returns (outcome: Result<(), Fault>)
      requires Valid()
      modifies this
      ensures (State(), outcome) == RevokeInvite(old(State()), i, b)
      ensures Valid() && Grows(old(State()), State())
      ensures unchanged(this`revocations, this`reasons)
    {
      ClosingCallsKeep(State(), i, b);
      if i !in invites || invites[i].businessId != b {
        return Err(NotFound);
      }
      if invites[i].status != Waiting {
        return Err(Conflict);
      }
      Close({i}, Withdrawn);
      return Ok(());
    }

    method ExpireDue() returns (affected: nat)
      requires Valid()
      modifies this
      ensures (State(), affected) == ExpirePending(old(State()))
      ensures Valid() && Grows(old(State()), State())
      ensures unchanged(this`revocations, this`reasons)
    {
      ClosingCallsKeep(State(), 0, 0);
      var due := State().WaitingTooLong();
      affected := |due|;
      Close(due, Expired);
    }

    // ------------------------------------- registrations.service, businesses.service

    /** Only the resubmission of a rejected Business takes the reason of its rejection away. */
    method Submit(t: TelegramId, businessName: string, platformOwner: bool)
      returns (outcome: Result<EntryState, Fault>)
      requires Valid()
      modifies this
      ensures (State(), outcome) == Submission(old(State()), t, businessName, platformOwner)
      ensures Valid() && Grows(old(State()), State())
      ensures unchanged(this`revocations)
      ensures reasons == old(reasons) - Revised(old(State()), outcome)
    {
      if platformOwner {
        return Err(Conflict);
      }
      SubmitSelfRegistrationKeeps(State(), t);
      FindPendingKeeps(State(), t);
      var invite := Find(t);
      if invite.Some? {
        return Ok(Invited(invite.value));
      }
      if Trim(businessName) == "" {
        return Err(BadRequest);
      }
      var existing := State().AnyByTelegramId(t);
      if existing.Some? {
        var u := existing.value;
        if users[u].removed {
          return Err(Conflict);
        }
        if users[u].businessId !in businesses {
          return Ok(Unregistered);
        }
        var b := users[u].businessId;
        if businesses[b].status == Rejected {
          businesses := businesses[b := businesses[b].(status := Pending)];
          reasons := reasons - {b};
        }
        return Ok(Registered(u, businesses[b].status));
      }
      assert UserOk(old(State()), nextUser);
      var u := Register(t);
      return Ok(Registered(u, Pending));
    }

    /** The transaction that creates the Business, its Owner, and the link between them. */
    method Register(t: TelegramId) returns (u: UserId)
      modifies this
      ensures State() == RegisterBusiness(old(State()), t) && u == old(nextUser)
      ensures unchanged(this`revocations, this`reasons)
    {
      u := nextUser;
      var b := nextBusiness;
      businesses := businesses[b := Business(Pending, None)];
      nextBusiness := b + 1;
      users := users[u := User(t, b, Owner, false)];
      accounts := accounts[t := u];
      nextUser := u + 1;
      businesses := businesses[b := businesses[b].(ownerUserId := Some(u))];
      assert businesses == old(businesses)[b := Business(Pending, Some(u))];
    }

    method Approve(b: BusinessId) returns (outcome: Result<bool, Fault>)
      requires Valid()
      modifies this
      ensures (State(), outcome) == ApproveBusiness(old(State()), b)
      ensures Valid() && Grows(old(State()), State())
      ensures unchanged(this`revocations, this`reasons)
    {
      DecisionsKeep(State(), b);
      if b !in businesses {
        return Err(NotFound);
      }
      if businesses[b].status == Active {
        return Ok(false);
      }
      if businesses[b].status == Rejected || businesses[b].status == Suspended {
        return Err(Conflict);
      }
      businesses := businesses[b := businesses[b].(status := Active)];
      PromoteRegistrantToOwner(b);
      return Ok(true);
    }

    method PromoteRegistrantToOwner(b: BusinessId)
      requires b in businesses
      modifies this
      ensures State() == PromoteRegistrant(old(State()), b)
      ensures unchanged(this`revocations, this`reasons)
    {
      var owner := businesses[b].ownerUserId;
      if owner.Some? && owner.value in users && users[owner.value].role != Owner {
        users := users[owner.value := users[owner.value].(role := Owner)];
      }
    }

    /** The trimmed reason is saved, also for a Business that is rejected already unless it is blank. */
    method Reject(b: BusinessId, reason: string) returns (outcome: Result<bool, Fault>)
      requires Valid()
      modifies this
      ensures (State(), outcome) == RejectBusiness(old(State()), b)
      ensures Valid() && Grows(old(State()), State())
      ensures unchanged(this`revocations)
      ensures reasons ==
              if outcome.Err? || (outcome == Ok(false) && Trim(reason) == "") then old(reasons)
              else if Trim(reason) == "" then old(reasons) - {b}
              else old(reasons)[b := Trim(reason)]
    {
      DecisionsKeep(State(), b);
      if b !in businesses {
        return Err(NotFound);
      }
      if businesses[b].status == Rejected {
        if Trim(reason) != "" && !(b in reasons && reasons[b] == Trim(reason)) {
          reasons := reasons[b := Trim(reason)];
        }
        return Ok(false);
      }
      if businesses[b].status == Active || businesses[b].status == Suspended {
        return Err(Conflict);
      }
      businesses := businesses[b := businesses[b].(status := Rejected)];
      reasons := if Trim(reason) == "" then reasons - {b} else reasons[b := Trim(reason)];
      return Ok(true);
    }

    method Suspend(b: BusinessId) returns (outcome: Result<bool, Fault>)
      requires Valid()
      modifies this
      ensures (State(), outcome) == SuspendBusiness(old(State()), b)
      ensures Valid() && Grows(old(State()), State())
      ensures unchanged(this`revocations, this`reasons)
    {
      SuspensionsKeep(State(), b);
      if b !in businesses {
        return Err(NotFound);
      }
      if businesses[b].status == Suspended {
        return Ok(false);
      }
      businesses := businesses[b := businesses[b].(status := Suspended)];
      return Ok(true);
    }

    method Unsuspend(b: BusinessId) returns (outcome: Result<bool, Fault>)
      requires Valid()
      modifies this
      ensures (State(), outcome) == UnsuspendBusiness(old(State()), b)
      ensures Valid() && Grows(old(State()), State())
      ensures unchanged(this`revocations, this`reasons)
    {
      SuspensionsKeep(State(), b);
      if b !in businesses {
        return Err(NotFound);
      }
      if businesses[b].status != Suspended {
        return Err(Conflict);
      }
      businesses := businesses[b := businesses[b].(status := Active)];
      return Ok(true);
    }
  }
}
