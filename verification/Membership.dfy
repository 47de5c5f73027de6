/**
 Users, Businesses and Invites: what each service call does to the stored rows
 (birr-track-backend/src/users, invites, registrations and businesses).
 */
module Membership {
  import opened Common

  type UserId = nat

  /** The decimal text of an account's number. */
  type TelegramId = string

  type BusinessId = nat

  type InviteId = nat

  /** One row per Telegram account, kept when its membership ends. */
  datatype User = User(telegramId: TelegramId, businessId: BusinessId, role: Role, removed: bool)

  datatype BusinessStatus = Pending | Active | Rejected | Suspended

  datatype Business = Business(status: BusinessStatus, ownerUserId: Option<UserId>)

  datatype InviteStatus = Waiting | Redeemed | Withdrawn | Expired

  datatype Invite = Invite(
    invitee: TelegramId, businessId: BusinessId, role: Role, createdBy: UserId, status: InviteStatus, expiresAt: nat)

  /**
   The tables. `accounts` is the unique index on `telegramUserId`, `pending` the partial unique
   index of Invites whose status is pending. Generated ids count up. `inviteTtl` is configured.
   */
  datatype Db = Db(
    users: map<UserId, User>, accounts: map<TelegramId, UserId>,
    businesses: map<BusinessId, Business>,
    invites: map<InviteId, Invite>, pending: map<TelegramId, InviteId>,
    nextUser: UserId, nextBusiness: BusinessId, nextInvite: InviteId,
    clock: nat, inviteTtl: nat)
  {
    /** Any row of the account, also a removed one. */
    function AnyByTelegramId(t: TelegramId): Option<UserId> {
      if t in accounts && accounts[t] in users then Some(accounts[t]) else None
    }

    predicate ActiveUser(u: UserId) { u in users && !users[u].removed }

    /** The account's row, if its membership is active. */
    function ActiveByTelegramId(t: TelegramId): Option<UserId> {
      if AnyByTelegramId(t).Some? && ActiveUser(accounts[t]) then AnyByTelegramId(t) else None
    }

    function PendingInvite(t: TelegramId): Option<InviteId> {
      if t in pending && pending[t] in invites then Some(pending[t]) else None
    }

    predicate Waits(i: InviteId) { i in invites && invites[i].status == Waiting }

    /** The three selections of pending Invites that are closed together. */
    function WaitingFor(t: TelegramId): set<InviteId> {
      set i | i in invites && Waits(i) && invites[i].invitee == t
    }

    function WaitingFrom(b: BusinessId, creator: UserId): set<InviteId> {
      set i | i in invites && Waits(i) && invites[i].businessId == b && invites[i].createdBy == creator
    }

    function WaitingTooLong(): set<InviteId> {
      set i | i in invites && Waits(i) && invites[i].expiresAt <= clock
    }
  }

  datatype Fault = NotFound | Forbidden | Conflict | BadRequest | DatabaseError

  /** A caller as some earlier read found it. */
  datatype Actor = Actor(userId: UserId, businessId: BusinessId, role: Role)

  function Rank(role: Role): nat {
    match role
    case Waiter => 1
    case Manager => 2
    case _ => 3
  }

  predicate HasRoleAtLeast(actor: Actor, role: Role) { Rank(actor.role) >= Rank(role) }

  function InvitableRoles(role: Role): set<Role> {
    match role
    case Manager => {Waiter}
    case Owner => {Waiter, Manager}
    case _ => {}
  }

  predicate CanInviteRole(actorRole: Role, inviteRole: Role) { inviteRole in InvitableRoles(actorRole) }

  // ------------------------------------------------------------------- users.service

  function SetUser(db: Db, u: UserId, user: User): Db { db.(users := db.users[u := user]) }

  function SetRole(db: Db, u: UserId, role: Role): Db
    requires u in db.users
  {
    SetUser(db, u, db.users[u].(role := role))
  }

  /** Moves pending Invites in `which` to a final status. */
  function CloseInvites(db: Db, which: set<InviteId>, status: InviteStatus): Db {
    db.(invites := map i | i in db.invites ::
                     if i in which && db.invites[i].status == Waiting
                     then db.invites[i].(status := status) else db.invites[i],
        pending := map t | t in db.pending && db.pending[t] !in which :: db.pending[t])
  }

  function JoinBusiness(db: Db, t: TelegramId, b: BusinessId, role: Role): (Db, Result<UserId, Fault>) {
    match db.AnyByTelegramId(t)
    case Some(u) =>
      if !db.users[u].removed then (db, Err(Conflict))
      else (SetUser(db, u, db.users[u].(businessId := b, role := role, removed := false)), Ok(u))
    case None =>
      (InsertUser(db, User(t, b, role, false)), Ok(db.nextUser))
  }

  function InsertUser(db: Db, user: User): Db {
    db.(users := db.users[db.nextUser := user], accounts := db.accounts[user.telegramId := db.nextUser],
        nextUser := db.nextUser + 1)
  }

  predicate Teammate(db: Db, actor: Actor, target: UserId) {
    db.ActiveUser(target) && db.users[target].businessId == actor.businessId
  }

  function PromoteToManager(db: Db, actor: Actor, target: UserId): (Db, Result<(), Fault>) {
    if !Teammate(db, actor, target) then (db, Err(NotFound))
    else if actor.role != Owner then (db, Err(Forbidden))
    else if db.users[target].role != Waiter then (db, Err(Conflict))
    else (SetRole(db, target, Manager), Ok(()))
  }

  function DemoteToWaiter(db: Db, actor: Actor, target: UserId): (Db, Result<(), Fault>) {
    if !Teammate(db, actor, target) then (db, Err(NotFound))
    else if db.users[target].role == Owner || actor.role != Owner then (db, Err(Forbidden))
    else if db.users[target].role != Manager then (db, Err(Conflict))
    else (SetRole(db, target, Waiter), Ok(()))
  }

  datatype Departure = Left | Removed

  /** The row is soft-removed; a departing manager's own pending Invites for the Business go with it. */
  function EndMembership(db: Db, actor: Actor, target: UserId, kind: Departure): (Db, Result<(), Fault>) {
    if !Teammate(db, actor, target) then (db, Err(NotFound))
    else
      var user := db.users[target];
      if user.role == Owner then (db, Err(Forbidden))
      else if kind == Removed && user.role == Manager && actor.role != Owner then (db, Err(Forbidden))
      else if kind == Removed && user.role == Waiter && !HasRoleAtLeast(actor, Manager) then (db, Err(Forbidden))
      else
        var ended := SetUser(db, target, user.(removed := true));
        (if user.role == Manager
         then CloseInvites(ended, ended.WaitingFrom(user.businessId, target), Withdrawn)
         else ended,
         Ok(()))
  }

  function LeaveBusiness(db: Db, u: UserId): (Db, Result<(), Fault>) {
    if !db.ActiveUser(u) then (db, Err(NotFound))
    else EndMembership(db, Actor(u, db.users[u].businessId, db.users[u].role), u, Left)
  }

  // ------------------------------------------------------------ String.prototype.trim

  /** The characters that `trim` takes off: white space and line terminators of ECMAScript. */
  predicate IsSpace(c: char) {
    || '\U{9}' <= c <= '\U{D}' || c == ' ' || c == '\U{A0}' || c == '\U{1680}' || '\U{2000}' <= c <= '\U{200A}'
    || c == '\U{2028}' || c == '\U{2029}' || c == '\U{202F}' || c == '\U{205F}' || c == '\U{3000}' || c == '\U{FEFF}'
  }

  predicate AllSpace(s: string) { forall c :: c in s ==> IsSpace(c) }

  function TrimStart(s: string): string {
    if s != "" && IsSpace(s[0]) then TrimStart(s[1..]) else s
  }

  function TrimEnd(s: string): string {
    if s != "" && IsSpace(s[|s| - 1]) then TrimEnd(s[..|s| - 1]) else s
  }

  function Trim(s: string): string { TrimEnd(TrimStart(s)) }

  lemma {:induction false} TrimStartSplits(s: string) returns (a: string)
    ensures AllSpace(a) && s == a + TrimStart(s)
    ensures TrimStart(s) != "" ==> !IsSpace(TrimStart(s)[0])
  {
    if s != "" && IsSpace(s[0]) {
      var rest := TrimStartSplits(s[1..]);
      a := [s[0]] + rest;
    } else {
      a := "";
    }
  }

  lemma {:induction false} TrimEndSplits(s: string) returns (b: string)
    ensures AllSpace(b) && s == TrimEnd(s) + b
    ensures TrimEnd(s) != "" ==> !IsSpace(TrimEnd(s)[|TrimEnd(s)| - 1])
    decreases |s|
  {
    if s != "" && IsSpace(s[|s| - 1]) {
      var rest := TrimEndSplits(s[..|s| - 1]);
      b := rest + [s[|s| - 1]];
    } else {
      b := "";
    }
  }

  /** The middle of a text between its outer white space. */
  lemma TrimIsTheMiddle(s: string)
    ensures exists a, b :: AllSpace(a) && AllSpace(b) && s == a + Trim(s) + b
    ensures Trim(s) != "" ==> !IsSpace(Trim(s)[0]) && !IsSpace(Trim(s)[|Trim(s)| - 1])
  {
    var a := TrimStartSplits(s);
    var b := TrimEndSplits(TrimStart(s));
    assert Trim(s) != "" ==> Trim(s)[0] == (Trim(s) + b)[0];
    assert s == a + Trim(s) + b;
  }

  // ----------------------------------------------------------------- invites.service

  const MAX_INVITE_BATCH_SIZE: nat := 10

  /** Who is invited where, as what, and by whom. */
  datatype Offer = Offer(businessId: BusinessId, role: Role, createdBy: UserId)

  function InsertInvite(db: Db, invite: Invite): Db {
    db.(invites := db.invites[db.nextInvite := invite],
        pending := db.pending[invite.invitee := db.nextInvite],
        nextInvite := db.nextInvite + 1)
  }

  function CreateInvite(db: Db, t: TelegramId, offer: Offer): (Db, Result<InviteId, Fault>) {
    if db.ActiveByTelegramId(t).Some? then (db, Err(Conflict))
    else
      var cleared := CloseInvites(db, db.WaitingFor(t), Withdrawn);
      (InsertInvite(cleared, Invite(t, offer.businessId, offer.role, offer.createdBy, Waiting,
                                    db.clock + db.inviteTtl)),
       Ok(db.nextInvite))
  }

  /** The database calls of one invitation: the member looked up, the older Invite withdrawn, the new one saved. */
  datatype DatabaseCall = Lookup | Withdrawal | Saving

  /** An invitation of which one call may throw; a save that throws comes behind the withdrawal. */
  function TryInvite(db: Db, t: TelegramId, offer: Offer, failure: Option<DatabaseCall>)
    : (Db, Result<InviteId, Fault>)
  {
    if failure == Some(Lookup) then (db, Err(DatabaseError))
    else if db.ActiveByTelegramId(t).Some? then (db, Err(Conflict))
    else match failure
      case None => CreateInvite(db, t, offer)
      case Some(Saving) => (CloseInvites(db, db.WaitingFor(t), Withdrawn), Err(DatabaseError))
      case Some(_) => (db, Err(DatabaseError))
  }

  datatype BatchOutcome =
    | Created(invitee: TelegramId, invite: InviteId)
    | SkippedActiveMember(invitee: TelegramId)
    | Failed(invitee: TelegramId)

  function OutcomeOf(t: TelegramId, result: Result<InviteId, Fault>): BatchOutcome {
    match result
    case Ok(i) => Created(t, i)
    case Err(Conflict) => SkippedActiveMember(t)
    case Err(_) => Failed(t)
  }

  function Trimmed(texts: seq<string>): seq<TelegramId> {
    seq(|texts|, i requires 0 <= i < |texts| => Trim(texts[i]))
  }

  /** The distinct ids that are not blank, in order of first appearance. */
  function Distinct(ids: seq<TelegramId>): seq<TelegramId> {
    if ids == [] then []
    else
      var before, last := Distinct(ids[..|ids| - 1]), ids[|ids| - 1];
      if last == "" || last in before then before else before + [last]
  }

  /** The call of a batch that throws for each account, if one does. */
  type Failures = map<TelegramId, DatabaseCall>

  function FailureOf(failures: Failures, t: TelegramId): Option<DatabaseCall> {
    if t in failures then Some(failures[t]) else None
  }

  /** Independent Invites, one after the other. */
  function CreateEach(db: Db, ids: seq<TelegramId>, offer: Offer, failures: Failures): (Db, seq<BatchOutcome>) {
    if ids == [] then (db, [])
    else
      var (before, outcomes) := CreateEach(db, ids[..|ids| - 1], offer, failures);
      var t := ids[|ids| - 1];
      var (after, result) := TryInvite(before, t, offer, FailureOf(failures, t));
      (after, outcomes + [OutcomeOf(t, result)])
  }

  function CreateBatch(db: Db, texts: seq<string>, offer: Offer, failures: Failures)
    : (Db, Result<seq<BatchOutcome>, Fault>)
  {
    var ids := Distinct(Trimmed(texts));
    if |ids| == 0 || |ids| > MAX_INVITE_BATCH_SIZE then (db, Err(BadRequest))
    else
      var (after, outcomes) := CreateEach(db, ids, offer, failures);
      (after, Ok(outcomes))
  }

  /** The pending Invite of an account, after one past its expiry has been marked expired. */
  function FindPending(db: Db, t: TelegramId): (Db, Option<InviteId>) {
    match db.PendingInvite(t)
    case None => (db, None)
    case Some(i) =>
      if db.invites[i].expiresAt <= db.clock then (CloseInvites(db, {i}, Expired), None) else (db, Some(i))
  }

  function RedeemInvite(db: Db, t: TelegramId): (Db, Result<Option<UserId>, Fault>) {
    match FindPending(db, t)
    case (after, None) => (after, Ok(None))
    case (after, Some(i)) =>
      match JoinBusiness(after, t, after.invites[i].businessId, after.invites[i].role)
      case (joined, Ok(u)) => (CloseInvites(joined, {i}, Redeemed), Ok(Some(u)))
      case (_, Err(e)) => (after, Err(e))
  }

  /** Revocation by a manager of the Business. */
  function RevokeInvite(db: Db, i: InviteId, b: BusinessId): (Db, Result<(), Fault>) {
    if i !in db.invites || db.invites[i].businessId != b then (db, Err(NotFound))
    else if db.invites[i].status != Waiting then (db, Err(Conflict))
    else (CloseInvites(db, {i}, Withdrawn), Ok(()))
  }

  function ExpirePending(db: Db): (Db, nat) {
    var due := db.WaitingTooLong();
    (CloseInvites(db, due, Expired), |due|)
  }

  // -------------------------------------------- registrations.service, businesses.service

  function SetStatus(db: Db, b: BusinessId, status: BusinessStatus): Db
    requires b in db.businesses
  {
    db.(businesses := db.businesses[b := db.businesses[b].(status := status)])
  }

  datatype EntryState = Invited(invite: InviteId) | Registered(user: UserId, status: BusinessStatus) | Unregistered

  /** The transaction that creates a Business together with its prospective Owner. */
  function RegisterBusiness(db: Db, t: TelegramId): Db {
    var b, u := db.nextBusiness, db.nextUser;
    InsertUser(db.(businesses := db.businesses[b := Business(Pending, Some(u))], nextBusiness := b + 1),
               User(t, b, Owner, false))
  }

  function SubmitSelfRegistration(db: Db, t: TelegramId): (Db, Result<EntryState, Fault>) {
    match FindPending(db, t)
    case (after, Some(i)) => (after, Ok(Invited(i)))
    case (after, None) =>
      match after.AnyByTelegramId(t)
      case None => (RegisterBusiness(after, t), Ok(Registered(after.nextUser, Pending)))
      case Some(u) =>
        if after.users[u].removed then (after, Err(Conflict))
        else if after.users[u].businessId !in after.businesses then (after, Ok(Unregistered))
        else
          var b := after.users[u].businessId;
          if after.businesses[b].status == Rejected
          then (SetStatus(after, b, Pending), Ok(Registered(u, Pending)))
          else (after, Ok(Registered(u, after.businesses[b].status)))
  }

  /** The Business that was rejected before and is the one of the answer. */
  function Revised(db: Db, outcome: Result<EntryState, Fault>): set<BusinessId> {
    match outcome
    case Ok(Registered(u, _)) =>
      if u in db.users && OfStatus(db, db.users[u].businessId, Rejected) then {db.users[u].businessId} else {}
    case _ => {}
  }

  predicate OfStatus(db: Db, b: BusinessId, status: BusinessStatus) {
    b in db.businesses && db.businesses[b].status == status
  }

  /** The whole call, with its refusals of the platform owner and of a blank name. */
  function Submission(db: Db, t: TelegramId, businessName: string, platformOwner: bool)
    : (Db, Result<EntryState, Fault>)
  {
    if platformOwner then (db, Err(Conflict))
    else if FindPending(db, t).1.None? && Trim(businessName) == "" then (FindPending(db, t).0, Err(BadRequest))
    else SubmitSelfRegistration(db, t)
  }

  /** On approval the registrant becomes Owner, unless that is already so or the row is missing. */
  function PromoteRegistrant(db: Db, b: BusinessId): Db
    requires b in db.businesses
  {
    match db.businesses[b].ownerUserId
    case None => db
    case Some(u) => if u in db.users && db.users[u].role != Owner then SetRole(db, u, Owner) else db
  }

  function Approved(db: Db, b: BusinessId): Db
    requires b in db.businesses
  {
    PromoteRegistrant(SetStatus(db, b, Active), b)
  }

  /** Ok(true) when the decision changed the status, Ok(false) when it was already so. */
  function ApproveBusiness(db: Db, b: BusinessId): (Db, Result<bool, Fault>) {
    if b !in db.businesses then (db, Err(NotFound))
    else match db.businesses[b].status
      case Active => (db, Ok(false))
      case Pending => (Approved(db, b), Ok(true))
      case _ => (db, Err(Conflict))
  }

  function RejectBusiness(db: Db, b: BusinessId): (Db, Result<bool, Fault>) {
    if b !in db.businesses then (db, Err(NotFound))
    else match db.businesses[b].status
      case Rejected => (db, Ok(false))
      case Pending => (SetStatus(db, b, Rejected), Ok(true))
      case _ => (db, Err(Conflict))
  }

  /** Any status can be suspended. */
  function SuspendBusiness(db: Db, b: BusinessId): (Db, Result<bool, Fault>) {
    if b !in db.businesses then (db, Err(NotFound))
    else if db.businesses[b].status == Suspended then (db, Ok(false))
    else (SetStatus(db, b, Suspended), Ok(true))
  }

  function UnsuspendBusiness(db: Db, b: BusinessId): (Db, Result<bool, Fault>) {
    if b !in db.businesses then (db, Err(NotFound))
    else if db.businesses[b].status != Suspended then (db, Err(Conflict))
    else (SetStatus(db, b, Active), Ok(true))
  }

  // ------------------------------------------------------------------- the invariant

  /** A Business that has been let in: it never goes back to pending or rejected. */
  predicate Opened(status: BusinessStatus) { status == Active || status == Suspended }

  predicate OpenBusiness(db: Db, b: BusinessId) { b in db.businesses && Opened(db.businesses[b].status) }

  predicate OwnedBy(db: Db, b: BusinessId, u: UserId) { b in db.businesses && db.businesses[b].ownerUserId == Some(u) }

  predicate AccountOk(db: Db, t: TelegramId) {
    t in db.accounts ==> db.accounts[t] in db.users && db.users[db.accounts[t]].telegramId == t
  }

  predicate UserOk(db: Db, u: UserId) {
    u in db.users ==>
      var user := db.users[u];
      && u < db.nextUser
      && user.telegramId in db.accounts && db.accounts[user.telegramId] == u
      && (if user.role == Owner then !user.removed && OwnedBy(db, user.businessId, u)
          else (user.role == Waiter || user.role == Manager) && user.businessId in db.businesses)
  }

  predicate BusinessOk(db: Db, b: BusinessId) {
    b in db.businesses ==>
      && b < db.nextBusiness
      && db.businesses[b].ownerUserId.Some?
      && var u := db.businesses[b].ownerUserId.value;
         u in db.users && db.users[u].role == Owner && !db.users[u].removed && db.users[u].businessId == b
  }

  predicate InviteOk(db: Db, i: InviteId) {
    i in db.invites ==>
      var invite := db.invites[i];
      && i < db.nextInvite
      && invite.businessId in db.businesses
      && (invite.role == Waiter || (invite.role == Manager && OwnedBy(db, invite.businessId, invite.createdBy)))
      && (invite.status == Waiting ==> invite.invitee in db.pending && db.pending[invite.invitee] == i)
  }

  predicate PendingOk(db: Db, t: TelegramId) {
    t in db.pending ==>
      && db.pending[t] in db.invites
      && db.invites[db.pending[t]].status == Waiting && db.invites[db.pending[t]].invitee == t
      && db.ActiveByTelegramId(t).None?
  }

  ghost predicate Inv(db: Db) {
    && (forall t :: AccountOk(db, t))
    && (forall u :: UserOk(db, u))
    && (forall b :: BusinessOk(db, b))
    && (forall i :: InviteOk(db, i))
    && (forall t :: PendingOk(db, t))
  }

  /** What no call takes away: rows, and Businesses with their owner. */
  ghost predicate Grows(db: Db, after: Db) {
    && (forall u :: u in db.users ==> u in after.users)
    && (forall b :: b in db.businesses ==>
        b in after.businesses && after.businesses[b].ownerUserId == db.businesses[b].ownerUserId)
  }

  /** The inviter may offer that role in that Business. */
  predicate Permitted(db: Db, offer: Offer) {
    && offer.businessId in db.businesses
    && (offer.role == Waiter || (offer.role == Manager && OwnedBy(db, offer.businessId, offer.createdBy)))
  }
}
