/**
 One account, one Invite and one Business in the runs of Tenancy: the rule by which every step
 moves what the tables say about each (birr-track-backend/src/users/users.service.ts,
 invites/invites.service.ts and businesses/businesses.service.ts).
 */
module MemberLedger {
  import opened Common
  import opened Membership
  import opened MembershipKeeps
  import opened Tenancy

  datatype Member = Member(businessId: BusinessId, role: Role)

  /** A pending Invite. */
  datatype Offered = Offered(businessId: BusinessId, role: Role, createdBy: UserId, expiresAt: nat)

  /** `known` accounts have a row, active or removed. */
  datatype Account = Account(known: bool, member: Option<Member>, offer: Option<Offered>)

  function AccountOf(db: Db, t: TelegramId): Account {
    Account(
      t in db.accounts,
      if t in db.accounts && db.accounts[t] in db.users && !db.users[db.accounts[t]].removed
      then Some(Member(db.users[db.accounts[t]].businessId, db.users[db.accounts[t]].role)) else None,
      if t in db.pending && db.pending[t] in db.invites then Some(OfferOf(db.invites[db.pending[t]])) else None)
  }

  function OfferOf(i: Invite): Offered { Offered(i.businessId, i.role, i.createdBy, i.expiresAt) }

  /** A removed row makes no member, and an active one the member that it names. */
  predicate MemberSays(a: Account, user: User) {
    a.member == if user.removed then None else Some(Member(user.businessId, user.role))
  }

  /** The entry against all rows of the tables: none is left out and none is somebody else's. */
  lemma AccountIsInTheRows(db: Db, t: TelegramId)
    requires Inv(db)
    ensures AccountOf(db, t).known <==> exists u :: u in db.users && db.users[u].telegramId == t
    ensures forall u :: u in db.users && db.users[u].telegramId == t ==> MemberSays(AccountOf(db, t), db.users[u])
    ensures AccountOf(db, t).member.Some? ==> AccountOf(db, t).known
    ensures forall i :: db.Waits(i) && db.invites[i].invitee == t ==>
              AccountOf(db, t).offer == Some(OfferOf(db.invites[i]))
    ensures AccountOf(db, t).offer.Some? ==> exists i :: db.Waits(i) && db.invites[i].invitee == t
    ensures AccountOf(db, t).offer.Some? ==> AccountOf(db, t).member.None?
  {
    assert AccountOk(db, t) && PendingOk(db, t);
    forall u | u in db.users && db.users[u].telegramId == t ensures t in db.accounts && db.accounts[t] == u {
      assert UserOk(db, u);
    }
    forall i | i in db.invites && db.invites[i].invitee == t && db.invites[i].status == Waiting
      ensures t in db.pending && db.pending[t] == i
    {
      assert InviteOk(db, i);
    }
    if t in db.accounts {
      assert db.accounts[t] in db.users;
    }
    if t in db.pending {
      assert db.Waits(db.pending[t]);
    }
  }

  // ------------------------------------------------------------------------------ the rules

  predicate MayOffer(actor: Role, role: Role) {
    (role == Waiter && (actor == Manager || actor == Owner)) || (role == Manager && actor == Owner)
  }

  predicate MayRemove(actor: Role, role: Role) {
    (role == Waiter && actor != Waiter) || (role == Manager && actor == Owner)
  }

  /** The step ends the membership of row `u`. */
  predicate Ends(w: World, step: Step, u: UserId) {
    && u in w.db.users && !w.db.users[u].removed
    && match step
       case Removes(c, target) =>
         target == u && w.db.users[u].businessId == c.actor.businessId && MayRemove(c.actor.role, w.db.users[u].role)
       case Leaves(target) => target == u && w.db.users[u].role != Owner
       case _ => false
  }

  predicate IsRowOf(db: Db, u: UserId, t: TelegramId) { u in db.users && db.users[u].telegramId == t }

  predicate Overdue(a: Account, clock: nat) { a.offer.Some? && a.offer.value.expiresAt <= clock }

  function MovedMember(w: World, step: Step, t: TelegramId, a: Account): Option<Member> {
    match step
    case Promotes(c, u) =>
      if IsRowOf(w.db, u, t) && c.actor.role == Owner && a.member == Some(Member(c.actor.businessId, Waiter))
      then Some(Member(c.actor.businessId, Manager)) else a.member
    case Demotes(c, u) =>
      if IsRowOf(w.db, u, t) && c.actor.role == Owner && a.member == Some(Member(c.actor.businessId, Manager))
      then Some(Member(c.actor.businessId, Waiter)) else a.member
    case Removes(_, u) => if IsRowOf(w.db, u, t) && Ends(w, step, u) then None else a.member
    case Leaves(u) => if IsRowOf(w.db, u, t) && Ends(w, step, u) then None else a.member
    case Redeems(x) =>
      if x == t && a.member.None? && a.offer.Some? && !Overdue(a, w.db.clock)
      then Some(Member(a.offer.value.businessId, a.offer.value.role)) else a.member
    case Submits(x) =>
      if x == t && !a.known && (a.offer.None? || Overdue(a, w.db.clock))
      then Some(Member(w.db.nextBusiness, Owner)) else a.member
    case _ => a.member
  }

  function MovedOffer(w: World, step: Step, t: TelegramId, a: Account): Option<Offered> {
    match step
    case Invites(c, x, role) =>
      if x == t && c.status == Active && MayOffer(c.actor.role, role) && a.member.None?
      then Some(Offered(c.actor.businessId, role, c.actor.userId, w.db.clock + w.db.inviteTtl)) else a.offer
    case Redeems(x) => if x == t then None else a.offer
    case Submits(x) => if x == t && Overdue(a, w.db.clock) then None else a.offer
    case FindsInvite(x) => if x == t && Overdue(a, w.db.clock) then None else a.offer
    case ExpiresInvites => if Overdue(a, w.db.clock) then None else a.offer
    case RevokesInvite(c, i) =>
      if t in w.db.pending && w.db.pending[t] == i && a.offer.Some? && a.offer.value.businessId == c.actor.businessId
      then None else a.offer
    case Removes(_, u) => if TakesAlong(w, step, u, a) then None else a.offer
    case Leaves(u) => if TakesAlong(w, step, u, a) then None else a.offer
    case _ => a.offer
  }

  /** A departing manager's own Invites for the Business go as well. */
  predicate TakesAlong(w: World, step: Step, u: UserId, a: Account) {
    && Ends(w, step, u) && w.db.users[u].role == Manager
    && a.offer.Some? && a.offer.value.createdBy == u && a.offer.value.businessId == w.db.users[u].businessId
  }

  function Moved(w: World, step: Step, t: TelegramId, a: Account): Account {
    var member := MovedMember(w, step, t, a);
    Account(a.known || member.Some?, member, MovedOffer(w, step, t, a))
  }

  // --------------------------------------------------------------- every step follows them

  lemma RoleChangeMoves(w: World, step: Step, t: TelegramId)
    requires Sound(w) && Enabled(w, step) && (step.Promotes? || step.Demotes?)
    ensures AccountOf(Next(w, step).db, t) == Moved(w, step, t, AccountOf(w.db, t))
  {
    assert AccountOk(w.db, t) && UserOk(w.db, step.target) && PendingOk(w.db, t);
  }

  /** What a departure does to an entry, once the call has let it through. */
  lemma DepartureMoves(db: Db, actor: Actor, u: UserId, kind: Departure, t: TelegramId)
    requires Inv(db) && EndMembership(db, actor, u, kind).1.Ok?
    ensures var a, after := AccountOf(db, t), AccountOf(EndMembership(db, actor, u, kind).0, t);
            && after.known == a.known && after.member == (if db.users[u].telegramId == t then None else a.member)
            && after.offer == if db.users[u].role == Manager && a.offer.Some? && a.offer.value.createdBy == u
                                && a.offer.value.businessId == db.users[u].businessId then None else a.offer
  {
    assert AccountOk(db, t) && UserOk(db, u) && PendingOk(db, t);
  }

  lemma EndMoves(w: World, step: Step, u: UserId, t: TelegramId)
    requires Sound(w) && Enabled(w, step) && ((step.Removes? && step.target == u) || (step.Leaves? && step.u == u))
    ensures AccountOf(Next(w, step).db, t) == Moved(w, step, t, AccountOf(w.db, t))
  {
    assert UserOk(w.db, u);
    if Ends(w, step, u) {
      match step
      case Removes(c, _) => DepartureMoves(w.db, c.actor, u, Removed, t);
      case Leaves(_) => DepartureMoves(w.db, Actor(u, w.db.users[u].businessId, w.db.users[u].role), u, Left, t);
    } else {
      assert Next(w, step).db == w.db;
    }
  }

  lemma RedeemMoves(w: World, x: TelegramId, t: TelegramId)
    requires Sound(w)
    ensures AccountOf(Next(w, Redeems(x)).db, t) == Moved(w, Redeems(x), t, AccountOf(w.db, t))
  {
    FindingMoves(w.db, x, t);
    FindPendingKeeps(w.db, x);
    var found := FindPending(w.db, x).0;
    assert AccountOk(found, t) && AccountOk(found, x) && PendingOk(found, t) && PendingOk(found, x);
    assert UserOk(found, found.nextUser);
  }

  lemma FindingMoves(db: Db, x: TelegramId, t: TelegramId)
    requires Inv(db)
    ensures var a := AccountOf(db, t);
            AccountOf(FindPending(db, x).0, t) == a.(offer := if x == t && Overdue(a, db.clock) then None else a.offer)
    ensures FindPending(db, x).1.Some? <==> AccountOf(db, x).offer.Some? && !Overdue(AccountOf(db, x), db.clock)
    ensures FindPending(db, x).0.clock == db.clock && FindPending(db, x).0.nextBusiness == db.nextBusiness
  {
    assert PendingOk(db, t) && PendingOk(db, x);
  }

  lemma SubmitMoves(w: World, x: TelegramId, t: TelegramId)
    requires Sound(w)
    ensures AccountOf(Next(w, Submits(x)).db, t) == Moved(w, Submits(x), t, AccountOf(w.db, t))
  {
    FindingMoves(w.db, x, t);
    FindPendingKeeps(w.db, x);
    var found := FindPending(w.db, x).0;
    assert AccountOk(found, t) && AccountOk(found, x) && UserOk(found, found.nextUser);
  }

  lemma InviteMoves(w: World, step: Step, t: TelegramId)
    requires Sound(w) && Enabled(w, step) && step.Invites?
    ensures AccountOf(Next(w, step).db, t) == Moved(w, step, t, AccountOf(w.db, t))
  {
    assert AccountOk(w.db, t) && AccountOk(w.db, step.t) && PendingOk(w.db, t);
    assert InviteOk(w.db, w.db.nextInvite);
  }

  lemma ClosingMoves(w: World, step: Step, t: TelegramId)
    requires Sound(w) && Enabled(w, step) && (step.FindsInvite? || step.RevokesInvite? || step.ExpiresInvites?)
    ensures AccountOf(Next(w, step).db, t) == Moved(w, step, t, AccountOf(w.db, t))
  {
    assert AccountOk(w.db, t) && PendingOk(w.db, t);
    if step.FindsInvite? {
      assert PendingOk(w.db, step.t);
    }
  }

  /** Every step moves the entry of every account by its rule, whatever was read before. */
  lemma StepMovesAccount(w: World, step: Step, t: TelegramId)
    requires Sound(w) && Enabled(w, step)
    ensures AccountOf(Next(w, step).db, t) == Moved(w, step, t, AccountOf(w.db, t))
  {
    match step
    case Promotes(_, _) => RoleChangeMoves(w, step, t);
    case Demotes(_, _) => RoleChangeMoves(w, step, t);
    case Removes(_, u) => EndMoves(w, step, u, t);
    case Leaves(u) => EndMoves(w, step, u, t);
    case Redeems(x) => RedeemMoves(w, x, t);
    case Submits(x) => SubmitMoves(w, x, t);
    case Invites(_, _, _) => InviteMoves(w, step, t);
    case FindsInvite(_) => ClosingMoves(w, step, t);
    case RevokesInvite(_, _) => ClosingMoves(w, step, t);
    case ExpiresInvites => ClosingMoves(w, step, t);
    case Decides(d) =>
      assert AccountOk(w.db, t);
      ApprovedKeeps(w.db, d.businessId);
    case _ =>
  }

  // -------------------------------------------------------------------------------- Invites

  /** The status that the step gives to an Invite; only a waiting one ever changes. */
  function MovedInvite(w: World, step: Step, i: InviteId): InviteStatus
    requires i in w.db.invites
  {
    var invite := w.db.invites[i];
    if invite.status != Waiting then invite.status
    else match step
      case Invites(c, t, role) =>
        if t == invite.invitee && c.status == Active && MayOffer(c.actor.role, role) then Withdrawn else Waiting
      case Redeems(t) =>
        if t != invite.invitee then Waiting else if invite.expiresAt <= w.db.clock then Expired else Redeemed
      case Submits(t) => if t == invite.invitee && invite.expiresAt <= w.db.clock then Expired else Waiting
      case FindsInvite(t) => if t == invite.invitee && invite.expiresAt <= w.db.clock then Expired else Waiting
      case ExpiresInvites => if invite.expiresAt <= w.db.clock then Expired else Waiting
      case RevokesInvite(c, x) => if x == i && c.actor.businessId == invite.businessId then Withdrawn else Waiting
      case Removes(_, u) => if GoesWith(w, step, u, invite) then Withdrawn else Waiting
      case Leaves(u) => if GoesWith(w, step, u, invite) then Withdrawn else Waiting
      case _ => Waiting
  }

  predicate GoesWith(w: World, step: Step, u: UserId, invite: Invite) {
    && Ends(w, step, u) && w.db.users[u].role == Manager
    && invite.createdBy == u && invite.businessId == w.db.users[u].businessId
  }

  /** No step changes anything about an Invite but its status, and that by the rule. */
  ghost predicate InviteMovesByRule(w: World, step: Step, i: InviteId)
    requires Enabled(w, step)
  {
    i in w.db.invites ==>
      && i in Next(w, step).db.invites
      && Next(w, step).db.invites[i] == w.db.invites[i].(status := MovedInvite(w, step, i))
  }

  lemma EndMovesInvite(w: World, step: Step, u: UserId, i: InviteId)
    requires Sound(w) && Enabled(w, step) && ((step.Removes? && step.target == u) || (step.Leaves? && step.u == u))
    ensures InviteMovesByRule(w, step, i)
  {
    assert UserOk(w.db, u);
    if !Ends(w, step, u) {
      assert Next(w, step).db == w.db;
    }
  }

  lemma FindingMovesInvite(db: Db, t: TelegramId, i: InviteId)
    requires Inv(db) && i in db.invites
    ensures var invite, after := db.invites[i], FindPending(db, t).0;
            i in after.invites && after.invites[i] == invite.(
              status := if invite.status == Waiting && t == invite.invitee && invite.expiresAt <= db.clock
                        then Expired else invite.status)
  {
    assert InviteOk(db, i) && PendingOk(db, t);
  }

  lemma RedeemMovesInvite(w: World, t: TelegramId, i: InviteId)
    requires Sound(w)
    ensures InviteMovesByRule(w, Redeems(t), i)
  {
    if i in w.db.invites {
      FindingMovesInvite(w.db, t, i);
      assert InviteOk(w.db, i) && PendingOk(w.db, t) && AccountOk(w.db, t);
    }
  }

  lemma CreateMovesInvite(w: World, step: Step, i: InviteId)
    requires Sound(w) && Enabled(w, step) && step.Invites?
    ensures InviteMovesByRule(w, step, i)
  {
    assert InviteOk(w.db, i) && InviteOk(w.db, w.db.nextInvite) && PendingOk(w.db, step.t);
  }

  lemma StepMovesInvite(w: World, step: Step, i: InviteId)
    requires Sound(w) && Enabled(w, step)
    ensures InviteMovesByRule(w, step, i)
  {
    match step
    case Removes(_, u) => EndMovesInvite(w, step, u, i);
    case Leaves(u) => EndMovesInvite(w, step, u, i);
    case Redeems(t) => RedeemMovesInvite(w, t, i);
    case Invites(_, _, _) => CreateMovesInvite(w, step, i);
    case Submits(t) =>
      if i in w.db.invites {
        FindingMovesInvite(w.db, t, i);
      }
    case FindsInvite(t) =>
      if i in w.db.invites {
        FindingMovesInvite(w.db, t, i);
      }
    case Decides(d) => ApprovedKeeps(w.db, d.businessId);
    case _ =>
  }

  // ----------------------------------------------------------------------------- Businesses

  function StatusOf(db: Db, b: BusinessId): Option<BusinessStatus> {
    if b in db.businesses then Some(db.businesses[b].status) else None
  }

  /** A saved decision gives its verdict; self-registration opens a new Business or sends a rejected one in again. */
  function MovedStatus(w: World, step: Step, b: BusinessId): Option<BusinessStatus> {
    match step
    case Decides(d) => if d.businessId == b then Some(d.verdict) else StatusOf(w.db, b)
    case Submits(t) =>
      var a := AccountOf(w.db, t);
      if a.offer.Some? && !Overdue(a, w.db.clock) then StatusOf(w.db, b)
      else if !a.known && b == w.db.nextBusiness then Some(Pending)
      else if a.member.Some? && a.member.value.businessId == b && StatusOf(w.db, b) == Some(Rejected) then Some(Pending)
      else StatusOf(w.db, b)
    case _ => StatusOf(w.db, b)
  }

  lemma StepMovesStatus(w: World, step: Step, b: BusinessId)
    requires Sound(w) && Enabled(w, step)
    ensures StatusOf(Next(w, step).db, b) == MovedStatus(w, step, b)
  {
    if step.Submits? {
      FindingMoves(w.db, step.t, step.t);
      FindPendingKeeps(w.db, step.t);
      assert AccountOk(w.db, step.t) && BusinessOk(w.db, w.db.nextBusiness);
      if step.t in w.db.accounts {
        assert UserOk(w.db, w.db.accounts[step.t]);
      }
    } else if step.Decides? {
      ApprovedKeeps(w.db, step.decision.businessId);
    }
  }

  // ------------------------------------------------------------------------------ over runs

  predicate NoneRedeems(steps: seq<Step>, t: TelegramId) {
    forall i :: 0 <= i < |steps| ==> steps[i] != Redeems(t)
  }

  lemma {:induction false} StrangerStaysOut(w: World, steps: seq<Step>, t: TelegramId)
    requires Sound(w) && Runs(w, steps) && NoneRedeems(steps, t)
    requires AccountOf(w.db, t).known && AccountOf(w.db, t).member.None?
    ensures AccountOf(After(w, steps).db, t).known && AccountOf(After(w, steps).db, t).member.None?
    decreases |steps|
  {
    if steps != [] {
      assert steps[0] != Redeems(t);
      StepMovesAccount(w, steps[0], t);
      StepIsSound(w, steps[0]);
      StrangerStaysOut(Next(w, steps[0]), steps[1..], t);
    }
  }

  /**
   Whoever leaves or is removed is a member no longer: no row of theirs is active and no identity
   is found for them, in any run, until they redeem an Invite.
   */
  lemma DepartedStayOut(w: World, step: Step, u: UserId, steps: seq<Step>)
    requires Sound(w) && Enabled(w, step) && Ends(w, step, u)
    requires Runs(Next(w, step), steps) && NoneRedeems(steps, w.db.users[u].telegramId)
    ensures var t, after := w.db.users[u].telegramId, After(Next(w, step), steps).db;
            && Identify(after, t) == {}
            && forall v :: v in after.users && after.users[v].telegramId == t ==> after.users[v].removed
  {
    var t := w.db.users[u].telegramId;
    assert UserOk(w.db, u);
    StepMovesAccount(w, step, t);
    StepIsSound(w, step);
    StrangerStaysOut(Next(w, step), steps, t);
    RunIsSound(Next(w, step), steps);
    AccountIsInTheRows(After(Next(w, step), steps).db, t);
  }

  /** A step that takes the offer away before its time, or puts another in its place. */
  predicate Disturbs(w: World, step: Step, t: TelegramId, o: Offered) {
    match step
    case Invites(_, x, _) => x == t
    case Redeems(x) => x == t
    case RevokesInvite(c, i) => t in w.db.pending && w.db.pending[t] == i && c.actor.businessId == o.businessId
    case Removes(_, u) => u == o.createdBy
    case Leaves(u) => u == o.createdBy
    case _ => false
  }

  predicate Undisturbed(w: World, steps: seq<Step>, t: TelegramId, o: Offered)
    requires Runs(w, steps)
    decreases |steps|
  {
    steps == [] || (!Disturbs(w, steps[0], t, o) && Undisturbed(Next(w, steps[0]), steps[1..], t, o))
  }

  lemma CallsKeepClock(db: Db, t: TelegramId, actor: Actor, u: UserId, kind: Departure)
    ensures SubmitSelfRegistration(db, t).0.clock == db.clock && RedeemInvite(db, t).0.clock == db.clock
    ensures FindPending(db, t).0.clock == db.clock && EndMembership(db, actor, u, kind).0.clock == db.clock
  {
  }

  lemma ClockNeverGoesBack(w: World, step: Step)
    requires Enabled(w, step)
    ensures w.db.clock <= Next(w, step).db.clock
  {
    match step
    case Submits(t) => CallsKeepClock(w.db, t, Actor(0, 0, Waiter), 0, Left);
    case Redeems(t) => CallsKeepClock(w.db, t, Actor(0, 0, Waiter), 0, Left);
    case FindsInvite(t) => CallsKeepClock(w.db, t, Actor(0, 0, Waiter), 0, Left);
    case Removes(c, u) => CallsKeepClock(w.db, "", c.actor, u, Removed);
    case Leaves(u) =>
      if w.db.ActiveUser(u) {
        CallsKeepClock(w.db, "", Actor(u, w.db.users[u].businessId, w.db.users[u].role), u, Left);
      }
    case _ =>
  }

  lemma {:induction false} ClockGrows(w: World, steps: seq<Step>)
    requires Runs(w, steps)
    ensures w.db.clock <= After(w, steps).db.clock
    decreases |steps|
  {
    if steps != [] {
      ClockNeverGoesBack(w, steps[0]);
      ClockGrows(Next(w, steps[0]), steps[1..]);
    }
  }

  lemma {:induction false} OfferStands(w: World, steps: seq<Step>, t: TelegramId, o: Offered)
    requires Sound(w) && Runs(w, steps) && Undisturbed(w, steps, t, o)
    requires AccountOf(w.db, t).offer == Some(o) && After(w, steps).db.clock < o.expiresAt
    ensures AccountOf(After(w, steps).db, t).offer == Some(o)
    decreases |steps|
  {
    if steps != [] {
      ClockGrows(w, steps);
      StepMovesAccount(w, steps[0], t);
      StepIsSound(w, steps[0]);
      OfferStands(Next(w, steps[0]), steps[1..], t, o);
    }
  }

  /** An offer in time is redeemed for the role and the Business that it names, and is gone. */
  lemma RedeemingGivesTheOffer(w: World, t: TelegramId, o: Offered)
    requires Sound(w) && AccountOf(w.db, t).offer == Some(o) && w.db.clock < o.expiresAt
    ensures AccountOf(Next(w, Redeems(t)).db, t) == Account(true, Some(Member(o.businessId, o.role)), None)
  {
    assert PendingOk(w.db, t);
    StepMovesAccount(w, Redeems(t), t);
  }

  /**
   An Invite can be redeemed for its whole lifetime, and gives the role and the Business that it
   names: unless it was replaced, redeemed, revoked by its own Business, or its creator left.
   */
  lemma InviteLastsItsLifetime(w: World, c: Context, t: TelegramId, role: Role, steps: seq<Step>)
    requires Sound(w) && c in w.contexts && c.status == Active && MayOffer(c.actor.role, role)
    requires AccountOf(w.db, t).member.None? && Runs(Next(w, Invites(c, t, role)), steps)
    requires var o := Offered(c.actor.businessId, role, c.actor.userId, w.db.clock + w.db.inviteTtl);
             Undisturbed(Next(w, Invites(c, t, role)), steps, t, o)
    requires After(Next(w, Invites(c, t, role)), steps).db.clock < w.db.clock + w.db.inviteTtl
    ensures var end := After(Next(w, Invites(c, t, role)), steps);
            AccountOf(Next(end, Redeems(t)).db, t) == Account(true, Some(Member(c.actor.businessId, role)), None)
  {
    var o := Offered(c.actor.businessId, role, c.actor.userId, w.db.clock + w.db.inviteTtl);
    var offered := Next(w, Invites(c, t, role));
    StepMovesAccount(w, Invites(c, t, role), t);
    StepIsSound(w, Invites(c, t, role));
    OfferStands(offered, steps, t, o);
    RunIsSound(offered, steps);
    RedeemingGivesTheOffer(After(offered, steps), t, o);
  }

  // ----------------------------------------------------------------------------- identities

  /** An account is identified exactly if it is a member, as what it is and with its Business's status. */
  lemma IdentifiedExactlyIf(w: World, t: TelegramId, c: Context)
    requires Sound(w)
    ensures c in Identify(w.db, t) <==>
            && AccountOf(w.db, t).member == Some(Member(c.actor.businessId, c.actor.role))
            && IsRowOf(w.db, c.actor.userId, t) && StatusOf(w.db, c.actor.businessId) == Some(c.status)
  {
    assert AccountOk(w.db, t);
    if t in w.db.accounts {
      assert UserOk(w.db, w.db.accounts[t]);
    }
    if c.actor.userId in w.db.users {
      assert UserOk(w.db, c.actor.userId);
    }
  }

  /** A login is given a session exactly if the Business was active or suspended when it was read. */
  lemma LoggedInExactlyIf(w: World, c: Context)
    requires Enabled(w, LogsIn(c)) && Grant(c.actor.userId, c.actor.businessId) !in w.sessions
    ensures Grant(c.actor.userId, c.actor.businessId) in Next(w, LogsIn(c)).sessions <==>
            c.status == Active || c.status == Suspended
  {
  }

  // -------------------------------------------------------------------------------- answers

  /** The account has a pending Invite that is not overdue. */
  predicate InTime(db: Db, t: TelegramId) {
    AccountOf(db, t).offer.Some? && db.clock < AccountOf(db, t).offer.value.expiresAt
  }

  /** Nothing stands before the tables: not the platform owner, no Invite and a name that is not blank. */
  predicate Considered(db: Db, t: TelegramId, businessName: string, platformOwner: bool) {
    !platformOwner && !InTime(db, t) && Trim(businessName) != ""
  }

  /** What an invitee is told, and who joined; an overdue Invite is none. */
  lemma InviteeAnswers(db: Db, t: TelegramId)
    requires Inv(db)
    ensures FindPending(db, t).1.Some? <==> InTime(db, t)
    ensures var found := FindPending(db, t).1;
            found.Some? ==> db.Waits(found.value) && db.invites[found.value].invitee == t
    ensures RedeemInvite(db, t).1 == Ok(None) <==> !InTime(db, t)
    ensures var (after, answer) := RedeemInvite(db, t);
            InTime(db, t) ==> answer.Ok? && answer.value.Some? && IsRowOf(after, answer.value.value, t)
  {
    assert PendingOk(db, t) && AccountOk(db, t);
  }

  /** Who may revoke which Invite, and how many are closed as overdue. */
  lemma ClosingAnswers(db: Db, i: InviteId, b: BusinessId)
    ensures var (after, answer) := RevokeInvite(db, i, b);
            && (answer.Ok? <==> db.Waits(i) && db.invites[i].businessId == b)
            && (answer == Err(NotFound) <==> !(i in db.invites && db.invites[i].businessId == b))
            && (answer == Err(Conflict) <==> i in db.invites && db.invites[i].businessId == b && !db.Waits(i))
            && (answer.Err? ==> after == db)
    ensures ExpirePending(db).1 ==
            |set x | x in db.invites && db.invites[x].status == Waiting && db.invites[x].expiresAt <= db.clock|
  {
    assert db.WaitingTooLong() ==
           set x | x in db.invites && db.invites[x].status == Waiting && db.invites[x].expiresAt <= db.clock;
  }

  /** The rejected Business that the account is a member of. */
  function RejectedOf(db: Db, t: TelegramId): set<BusinessId> {
    match AccountOf(db, t).member
    case Some(m) => if StatusOf(db, m.businessId) == Some(Rejected) then {m.businessId} else {}
    case None => {}
  }

  /** What a registrant is told, by what the tables say about the account. */
  lemma RegistrantAnswers(db: Db, t: TelegramId, businessName: string, platformOwner: bool)
    requires Inv(db)
    ensures var a, answer := AccountOf(db, t), Submission(db, t, businessName, platformOwner).1;
            answer == Err(Conflict) <==>
            platformOwner || (Considered(db, t, businessName, platformOwner) && a.known && a.member.None?)
    ensures Submission(db, t, businessName, platformOwner).1 == Err(BadRequest) <==>
            !platformOwner && !InTime(db, t) && Trim(businessName) == ""
    ensures var answer := Submission(db, t, businessName, platformOwner).1;
            answer.Ok? && answer.value.Invited? <==> !platformOwner && InTime(db, t)
    ensures var a, answer := AccountOf(db, t), Submission(db, t, businessName, platformOwner).1;
            answer.Ok? && answer.value.Registered? <==>
            Considered(db, t, businessName, platformOwner) && (a.member.Some? || !a.known)
    ensures platformOwner ==> Submission(db, t, businessName, platformOwner).0 == db
    ensures Revised(db, Submission(db, t, businessName, platformOwner).1) ==
            if Considered(db, t, businessName, platformOwner) then RejectedOf(db, t) else {}
  {
    assert PendingOk(db, t) && AccountOk(db, t);
    assert UserOk(db, db.nextUser);
    if t in db.accounts {
      assert UserOk(db, db.accounts[t]);
    }
  }

  /** Which batches are refused. */
  lemma BatchAnswers(db: Db, texts: seq<string>, offer: Offer, failures: Failures)
    ensures var (after, answer) := CreateBatch(db, texts, offer, failures);
            && (answer == Err(BadRequest) <==> Distinct(Trimmed(texts)) == [] || |Distinct(Trimmed(texts))| > 10)
            && (answer.Err? ==> answer == Err(BadRequest) && after == db)
  {
  }

  /** An active row of the caller's own Business. */
  predicate Colleague(db: Db, actor: Actor, target: UserId) {
    target in db.users && !db.users[target].removed && db.users[target].businessId == actor.businessId
  }

  /** Who gets which answer from the three calls that change a membership; a refusal changes nothing. */
  lemma StaffAnswers(db: Db, actor: Actor, target: UserId, kind: Departure)
    ensures var (after, answer) := PromoteToManager(db, actor, target);
            && (answer.Ok? <==> Colleague(db, actor, target) && actor.role == Owner && db.users[target].role == Waiter)
            && (answer == Err(NotFound) <==> !Colleague(db, actor, target))
            && (answer == Err(Forbidden) <==> Colleague(db, actor, target) && actor.role != Owner)
            && (answer.Err? ==> after == db)
    ensures var (after, answer) := DemoteToWaiter(db, actor, target);
            && (answer.Ok? <==> Colleague(db, actor, target) && actor.role == Owner && db.users[target].role == Manager)
            && (answer == Err(NotFound) <==> !Colleague(db, actor, target))
            && (answer == Err(Forbidden) <==>
                  Colleague(db, actor, target) && (actor.role != Owner || db.users[target].role == Owner))
            && (answer.Err? ==> after == db)
    ensures var (after, answer) := EndMembership(db, actor, target, kind);
            && (answer == Err(NotFound) <==> !Colleague(db, actor, target))
            && (Colleague(db, actor, target) && db.users[target].role in {Waiter, Manager} ==>
                  (answer.Ok? <==> kind == Left || MayRemove(actor.role, db.users[target].role)))
            && (Colleague(db, actor, target) && db.users[target].role == Owner ==> answer == Err(Forbidden))
            && (answer.Err? ==> after == db)
  {
  }

  /** Which statuses each decision accepts, and where it leads; a refusal changes nothing. */
  lemma DecisionAnswers(db: Db, b: BusinessId)
    requires Inv(db)
    ensures var (after, answer) := ApproveBusiness(db, b);
            && (answer == Ok(true) <==> StatusOf(db, b) == Some(Pending))
            && (answer == Ok(false) <==> StatusOf(db, b) == Some(Active))
            && (answer == Err(NotFound) <==> StatusOf(db, b) == None)
            && after == if answer == Ok(true) then SetStatus(db, b, Active) else db
    ensures var (after, answer) := RejectBusiness(db, b);
            && (answer == Ok(true) <==> StatusOf(db, b) == Some(Pending))
            && (answer == Ok(false) <==> StatusOf(db, b) == Some(Rejected))
            && (answer == Err(NotFound) <==> StatusOf(db, b) == None)
            && after == if answer == Ok(true) then SetStatus(db, b, Rejected) else db
    ensures var (after, answer) := SuspendBusiness(db, b);
            && (answer == Ok(false) <==> StatusOf(db, b) == Some(Suspended))
            && (answer == Err(NotFound) <==> StatusOf(db, b) == None)
            && (answer.Err? ==> answer == Err(NotFound))
            && after == if answer == Ok(true) then SetStatus(db, b, Suspended) else db
    ensures var (after, answer) := UnsuspendBusiness(db, b);
            && (answer == Ok(true) <==> StatusOf(db, b) == Some(Suspended))
            && (answer == Err(NotFound) <==> StatusOf(db, b) == None)
            && (answer.Ok? ==> answer == Ok(true))
            && after == if answer == Ok(true) then SetStatus(db, b, Active) else db
  {
    if b in db.businesses {
      ApprovedKeeps(db, b);
    }
  }
}
