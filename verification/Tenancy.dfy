/**
 Every run of the membership services, with callers and their Business's status as some
 earlier read found them (birr-track-backend/src/telegram/flows/conversation.service.ts,
 telegram/services/identity.service.ts, users/users.controller.ts and the services behind them).
 */
module Tenancy {
  import opened Common
  import opened Membership
  import opened MembershipKeeps

  /** An identity captured by the bot's middleware, a controller or a login. */
  datatype Context = Context(actor: Actor, status: BusinessStatus)

  /** An issued session, as far as tenancy goes. */
  datatype Grant = Grant(userId: UserId, businessId: BusinessId)

  /** A status that a call is about to save, having read one that allowed it. */
  datatype Decision = Decision(businessId: BusinessId, read: BusinessStatus, verdict: BusinessStatus)

  datatype World = World(db: Db, contexts: set<Context>, sessions: set<Grant>, decisions: set<Decision>)

  datatype Step =
    | Identifies(t: TelegramId)
    | LogsIn(context: Context)
    | Submits(t: TelegramId)
    | Considers(b: BusinessId, verdict: BusinessStatus)
    | Decides(decision: Decision)
    | Invites(context: Context, t: TelegramId, role: Role)
    | Redeems(t: TelegramId)
    | FindsInvite(t: TelegramId)
    | RevokesInvite(context: Context, i: InviteId)
    | ExpiresInvites
    | Promotes(context: Context, target: UserId)
    | Demotes(context: Context, target: UserId)
    | Removes(context: Context, target: UserId)
    | Leaves(u: UserId)
    | Passes(ms: nat)

  /** Approval and rejection of a pending Business, a rejected one sent in again, suspension and its end. */
  predicate MayDecide(read: BusinessStatus, verdict: BusinessStatus) {
    match verdict
    case Active => read == Pending || read == Suspended
    case Rejected => read == Pending
    case Pending => read == Rejected
    case Suspended => read != Suspended
  }

  /** What the decision saves, whatever the row says by then. */
  function Saved(db: Db, d: Decision): Db
    requires d.businessId in db.businesses
  {
    if d.read == Pending && d.verdict == Active then Approved(db, d.businessId)
    else SetStatus(db, d.businessId, d.verdict)
  }

  /** A call acts for an identity, and a save on a status, that some read, however old, did find. */
  predicate Enabled(w: World, step: Step) {
    match step
    case LogsIn(c) => c in w.contexts
    case Decides(d) => d in w.decisions && d.businessId in w.db.businesses
    case Invites(c, _, _) => c in w.contexts
    case RevokesInvite(c, _) => c in w.contexts
    case Promotes(c, _) => c in w.contexts
    case Demotes(c, _) => c in w.contexts
    case Removes(c, _) => c in w.contexts
    case _ => true
  }

  /** What `resolveIdentity` finds for an account: its active row and its Business. */
  function Identify(db: Db, t: TelegramId): set<Context> {
    match db.ActiveByTelegramId(t)
    case None => {}
    case Some(u) =>
      var b := db.users[u].businessId;
      if b in db.businesses then {Context(Actor(u, b, db.users[u].role), db.businesses[b].status)} else {}
  }

  /** The gate of `handleUserShared` in front of one Invite of a batch. */
  predicate MayInvite(c: Context, role: Role) { c.status == Active && CanInviteRole(c.actor.role, role) }

  function Next(w: World, step: Step): World
    requires Enabled(w, step)
  {
    match step
    case Identifies(t) => w.(contexts := w.contexts + Identify(w.db, t))
    case LogsIn(c) =>
      if c.status == Pending || c.status == Rejected then w
      else w.(sessions := w.sessions + {Grant(c.actor.userId, c.actor.businessId)})
    case Submits(t) => w.(db := SubmitSelfRegistration(w.db, t).0)
    case Considers(b, verdict) =>
      if b in w.db.businesses && MayDecide(w.db.businesses[b].status, verdict)
      then w.(decisions := w.decisions + {Decision(b, w.db.businesses[b].status, verdict)}) else w
    case Decides(d) => w.(db := Saved(w.db, d), decisions := w.decisions - {d})
    case Invites(c, t, role) =>
      if MayInvite(c, role)
      then w.(db := CreateInvite(w.db, t, Offer(c.actor.businessId, role, c.actor.userId)).0) else w
    case Redeems(t) => w.(db := RedeemInvite(w.db, t).0)
    case FindsInvite(t) => w.(db := FindPending(w.db, t).0)
    case RevokesInvite(c, i) => w.(db := RevokeInvite(w.db, i, c.actor.businessId).0)
    case ExpiresInvites => w.(db := ExpirePending(w.db).0)
    case Promotes(c, u) => w.(db := PromoteToManager(w.db, c.actor, u).0)
    case Demotes(c, u) => w.(db := DemoteToWaiter(w.db, c.actor, u).0)
    case Removes(c, u) => w.(db := EndMembership(w.db, c.actor, u, Removed).0)
    case Leaves(u) => w.(db := LeaveBusiness(w.db, u).0)
    case Passes(ms) => w.(db := w.db.(clock := w.db.clock + ms))
  }

  // ------------------------------------------------------------------------- invariant

  /** However stale: an owner seen once is still the owner. */
  predicate ContextOk(db: Db, c: Context) {
    c.actor.businessId in db.businesses && (c.actor.role == Owner ==> OwnedBy(db, c.actor.businessId, c.actor.userId))
  }

  ghost predicate Sound(w: World) {
    && Inv(w.db)
    && (forall c :: c in w.contexts ==> ContextOk(w.db, c))
    && (forall d :: d in w.decisions ==> MayDecide(d.read, d.verdict))
  }

  lemma IdentifyIsSound(db: Db, t: TelegramId)
    requires Inv(db)
    ensures forall c :: c in Identify(db, t) ==> ContextOk(db, c)
  {
    if db.ActiveByTelegramId(t).Some? {
      assert UserOk(db, db.accounts[t]);
    }
  }

  lemma PassesKeeps(db: Db, ms: nat)
    requires Inv(db)
    ensures var after := db.(clock := db.clock + ms); Inv(after) && Grows(db, after)
  {
    var after := db.(clock := db.clock + ms);
    forall t ensures AccountOk(after, t) && PendingOk(after, t) { assert AccountOk(db, t) && PendingOk(db, t); }
    forall u ensures UserOk(after, u) { assert UserOk(db, u); }
    forall b ensures BusinessOk(after, b) { assert BusinessOk(db, b); }
    forall i ensures InviteOk(after, i) { assert InviteOk(db, i); }
  }

  /** Every call keeps the tables in order, whatever its caller had read before. */
  lemma CallsKeep(w: World, step: Step)
    requires Sound(w) && Enabled(w, step)
    ensures Inv(Next(w, step).db) && Grows(w.db, Next(w, step).db)
  {
    match step
    case Submits(t) => SubmitSelfRegistrationKeeps(w.db, t);
    case Decides(d) =>
      ApprovedKeeps(w.db, d.businessId);
      SetStatusKeeps(w.db, d.businessId, d.verdict);
    case Invites(c, t, role) =>
      assert ContextOk(w.db, c);
      if MayInvite(c, role) {
        CreateInviteKeeps(w.db, t, Offer(c.actor.businessId, role, c.actor.userId));
      }
    case Redeems(t) => RedeemInviteKeeps(w.db, t);
    case FindsInvite(t) => FindPendingKeeps(w.db, t);
    case RevokesInvite(c, i) => ClosingCallsKeep(w.db, i, c.actor.businessId);
    case ExpiresInvites => ClosingCallsKeep(w.db, 0, 0);
    case Promotes(c, u) => RoleChangesKeep(w.db, c.actor, u);
    case Demotes(c, u) => RoleChangesKeep(w.db, c.actor, u);
    case Removes(c, u) => EndMembershipKeeps(w.db, c.actor, u, Removed);
    case Leaves(u) =>
      if w.db.ActiveUser(u) {
        EndMembershipKeeps(w.db, Actor(u, w.db.users[u].businessId, w.db.users[u].role), u, Left);
      }
    case Passes(ms) => PassesKeeps(w.db, ms);
    case _ =>
  }

  lemma StepIsSound(w: World, step: Step)
    requires Sound(w) && Enabled(w, step)
    ensures Sound(Next(w, step)) && Grows(w.db, Next(w, step).db)
  {
    CallsKeep(w, step);
    if step.Identifies? {
      IdentifyIsSound(w.db, step.t);
    }
  }

  // ------------------------------------------------------------------------------ runs

  predicate Runs(w: World, steps: seq<Step>)
    decreases |steps|
  {
    steps == [] || (Enabled(w, steps[0]) && Runs(Next(w, steps[0]), steps[1..]))
  }

  function After(w: World, steps: seq<Step>): World
    requires Runs(w, steps)
    decreases |steps|
  {
    if steps == [] then w else After(Next(w, steps[0]), steps[1..])
  }

  function Empty(clock: nat, ttl: nat): World {
    World(Db(map[], map[], map[], map[], map[], 0, 0, 0, clock, ttl), {}, {}, {})
  }

  /** By any run whatever. */
  ghost predicate Reachable(w: World) {
    exists clock: nat, ttl: nat, steps :: Runs(Empty(clock, ttl), steps) && w == After(Empty(clock, ttl), steps)
  }

  lemma {:induction false} RunIsSound(w: World, steps: seq<Step>)
    requires Sound(w) && Runs(w, steps)
    ensures Sound(After(w, steps)) && Grows(w.db, After(w, steps).db)
    decreases |steps|
  {
    if steps != [] {
      StepIsSound(w, steps[0]);
      RunIsSound(Next(w, steps[0]), steps[1..]);
    }
  }

  lemma ReachableIsSound(w: World)
    requires Reachable(w)
    ensures Sound(w)
  {
    var clock: nat, ttl: nat, steps :| Runs(Empty(clock, ttl), steps) && w == After(Empty(clock, ttl), steps);
    RunIsSound(Empty(clock, ttl), steps);
  }

  /** In every reachable state each Business has exactly one non-removed Owner, its `ownerUserId`. */
  lemma ExactlyOneOwner(w: World, b: BusinessId)
    requires Reachable(w) && b in w.db.businesses
    ensures w.db.businesses[b].ownerUserId.Some?
    ensures forall u :: w.db.businesses[b].ownerUserId == Some(u) <==>
              w.db.ActiveUser(u) && w.db.users[u].role == Owner && w.db.users[u].businessId == b
  {
    ReachableIsSound(w);
    assert BusinessOk(w.db, b);
    forall u
      ensures w.db.businesses[b].ownerUserId == Some(u) <==>
              w.db.ActiveUser(u) && w.db.users[u].role == Owner && w.db.users[u].businessId == b
    {
      assert UserOk(w.db, u);
    }
  }

  /** An account has one row ever, one pending Invite at most, and no pending Invite while a member. */
  lemma OneRowOneInvite(w: World, t: TelegramId)
    requires Reachable(w)
    ensures forall u, v | u in w.db.users && v in w.db.users ::
              w.db.users[u].telegramId == t && w.db.users[v].telegramId == t ==> u == v
    ensures forall i, j | w.db.Waits(i) && w.db.Waits(j) ::
              w.db.invites[i].invitee == t && w.db.invites[j].invitee == t ==> i == j
    ensures forall i, u ::
              w.db.Waits(i) && w.db.invites[i].invitee == t && u in w.db.users && w.db.users[u].telegramId == t ==>
              w.db.users[u].removed
  {
    ReachableIsSound(w);
    forall u, v | u in w.db.users && v in w.db.users && w.db.users[u].telegramId == t && w.db.users[v].telegramId == t
      ensures u == v
    {
      assert UserOk(w.db, u) && UserOk(w.db, v);
    }
    forall i, j | w.db.Waits(i) && w.db.Waits(j) && w.db.invites[i].invitee == t && w.db.invites[j].invitee == t
      ensures i == j
    {
      assert InviteOk(w.db, i) && InviteOk(w.db, j);
    }
    forall i, u | w.db.Waits(i) && w.db.invites[i].invitee == t && u in w.db.users && w.db.users[u].telegramId == t
      ensures w.db.users[u].removed
    {
      assert InviteOk(w.db, i) && PendingOk(w.db, t) && UserOk(w.db, u);
    }
  }

  // ---------------------------------------------------------------- opening and closing

  lemma SubmitOpensNothing(db: Db, t: TelegramId, b: BusinessId)
    requires Inv(db)
    ensures OpenBusiness(SubmitSelfRegistration(db, t).0, b) <==> OpenBusiness(db, b)
  {
    FindPendingKeeps(db, t);
    assert BusinessOk(db, db.nextBusiness);
  }

  /** A decision alone settles whether its Business is open; nothing else changes that for any. */
  lemma OnlyDecisionsOpenOrClose(w: World, step: Step, b: BusinessId)
    requires Sound(w) && Enabled(w, step)
    ensures OpenBusiness(Next(w, step).db, b) <==>
            if step.Decides? && step.decision.businessId == b then Opened(step.decision.verdict)
            else OpenBusiness(w.db, b)
  {
    if step.Submits? {
      SubmitOpensNothing(w.db, step.t, b);
    }
  }

  /** No save closes a Business that was opened since its read. */
  predicate Timely(w: World, step: Step) {
    step.Decides? && OpenBusiness(w.db, step.decision.businessId) ==> Opened(step.decision.verdict)
  }

  /** A run in which every save is timely. */
  predicate TimelyRun(w: World, steps: seq<Step>)
    requires Runs(w, steps)
    decreases |steps|
  {
    steps == [] || (Timely(w, steps[0]) && TimelyRun(Next(w, steps[0]), steps[1..]))
  }

  /** No step of the run takes a Business that is open back to pending or rejected. */
  ghost predicate ClosesNone(w: World, steps: seq<Step>)
    requires Runs(w, steps)
    decreases |steps|
  {
    steps == []
    || ((forall b :: OpenBusiness(w.db, b) ==> OpenBusiness(Next(w, steps[0]).db, b))
        && ClosesNone(Next(w, steps[0]), steps[1..]))
  }

  /** A Business that is active or suspended stays so exactly in the runs whose saves are timely. */
  lemma {:induction false} OpenStaysOpenExactlyIf(w: World, steps: seq<Step>)
    requires Sound(w) && Runs(w, steps)
    ensures ClosesNone(w, steps) <==> TimelyRun(w, steps)
    decreases |steps|
  {
    if steps != [] {
      var step := steps[0];
      StepIsSound(w, step);
      OpenStaysOpenExactlyIf(Next(w, step), steps[1..]);
      forall b ensures OpenBusiness(w.db, b) && Timely(w, step) ==> OpenBusiness(Next(w, step).db, b) {
        OnlyDecisionsOpenOrClose(w, step, b);
      }
      if step.Decides? {
        OnlyDecisionsOpenOrClose(w, step, step.decision.businessId);
      }
    }
  }

  predicate Approves(step: Step, b: BusinessId) {
    step.Decides? && step.decision.businessId == b && step.decision.read == Pending && step.decision.verdict == Active
  }

  /** Throughout the run the Business is open only once it has been approved. */
  ghost predicate OpenOnceApproved(w: World, steps: seq<Step>, b: BusinessId, approved: bool)
    requires Runs(w, steps)
    decreases |steps|
  {
    && (OpenBusiness(w.db, b) ==> approved)
    && (steps == [] || OpenOnceApproved(Next(w, steps[0]), steps[1..], b, approved || Approves(steps[0], b)))
  }

  /** Before any approval the run saves a suspension, or the end of one, for the Business. */
  predicate OpensUnapproved(w: World, steps: seq<Step>, b: BusinessId)
    requires Runs(w, steps)
    decreases |steps|
  {
    && steps != [] && !Approves(steps[0], b)
    && ((steps[0].Decides? && steps[0].decision.businessId == b && Opened(steps[0].decision.verdict))
        || OpensUnapproved(Next(w, steps[0]), steps[1..], b))
  }

  lemma {:induction false} ApprovedStaysApproved(w: World, steps: seq<Step>, b: BusinessId)
    requires Runs(w, steps)
    ensures OpenOnceApproved(w, steps, b, true)
    decreases |steps|
  {
    if steps != [] {
      ApprovedStaysApproved(Next(w, steps[0]), steps[1..], b);
    }
  }

  /**
   A Business that is open was approved once, throughout a run, exactly if the run saves no
   suspension or end of one for it before its first approval.
   */
  lemma {:induction false} OpenMeansApprovedExactlyIf(w: World, steps: seq<Step>, b: BusinessId)
    requires Sound(w) && Runs(w, steps) && !OpenBusiness(w.db, b)
    ensures OpenOnceApproved(w, steps, b, false) <==> !OpensUnapproved(w, steps, b)
    decreases |steps|
  {
    if steps != [] {
      var after := Next(w, steps[0]);
      StepIsSound(w, steps[0]);
      OnlyDecisionsOpenOrClose(w, steps[0], b);
      if Approves(steps[0], b) {
        ApprovedStaysApproved(after, steps[1..], b);
      } else if !OpenBusiness(after.db, b) {
        OpenMeansApprovedExactlyIf(after, steps[1..], b);
      }
    }
  }

  /** A decision saved right behind its read is timely, and is the whole call. */
  lemma DecisionAtOnceIsTimely(w: World, b: BusinessId, verdict: BusinessStatus)
    requires b in w.db.businesses && MayDecide(w.db.businesses[b].status, verdict)
    ensures var read := Next(w, Considers(b, verdict));
            var d := Decision(b, w.db.businesses[b].status, verdict);
            && Enabled(read, Decides(d)) && Timely(read, Decides(d))
            && Next(read, Decides(d)).db == WholeCall(w.db, b, verdict)
  {
  }

  /**
   The calls of approveBusiness, rejectBusiness, suspendBusiness and unsuspendBusiness, and the
   save of a resubmission.
   */
  function WholeCall(db: Db, b: BusinessId, verdict: BusinessStatus): Db
    requires b in db.businesses
  {
    match verdict
    case Active => if db.businesses[b].status == Suspended then UnsuspendBusiness(db, b).0 else ApproveBusiness(db, b).0
    case Rejected => RejectBusiness(db, b).0
    case Suspended => SuspendBusiness(db, b).0
    case Pending => SetStatus(db, b, Pending)
  }

  /** The save of a resubmission is what a member's self-registration does to a rejected Business. */
  lemma ResubmissionIsItsSave(w: World, u: UserId)
    requires Sound(w) && w.db.ActiveUser(u) && w.db.users[u].businessId in w.db.businesses
    requires w.db.businesses[w.db.users[u].businessId].status == Rejected
    ensures SubmitSelfRegistration(w.db, w.db.users[u].telegramId).0 ==
            WholeCall(w.db, w.db.users[u].businessId, Pending)
  {
    assert UserOk(w.db, u) && PendingOk(w.db, w.db.users[u].telegramId);
  }

  // --------------------------------------------------------- runs that open or close wrongly

  lemma {:induction false} Extend(w: World, steps: seq<Step>, step: Step)
    requires Runs(w, steps) && Enabled(After(w, steps), step)
    ensures Runs(w, steps + [step]) && After(w, steps + [step]) == Next(After(w, steps), step)
    decreases |steps|
  {
    if steps == [] {
      assert [step][1..] == [] && [] + [step] == [step];
    } else {
      assert (steps + [step])[1..] == steps[1..] + [step];
      Extend(Next(w, steps[0]), steps[1..], step);
    }
  }

  /** A first registration. */
  lemma {:induction false} Registers(clock: nat, ttl: nat) returns (steps: seq<Step>, w: World)
    ensures Runs(Empty(clock, ttl), steps) && w == After(Empty(clock, ttl), steps)
    ensures w.db.businesses == map[0 := Business(Pending, Some(0))]
    ensures forall i :: 0 <= i < |steps| ==> !Approves(steps[i], 0)
  {
    Extend(Empty(clock, ttl), [], Submits("1"));
    steps := [] + [Submits("1")];
    w := After(Empty(clock, ttl), steps);
  }

  lemma {:induction false} ReadsFor(start: World, steps: seq<Step>, b: BusinessId, verdict: BusinessStatus)
    returns (more: seq<Step>, w: World)
    requires Runs(start, steps)
    requires var before := After(start, steps);
             b in before.db.businesses && MayDecide(before.db.businesses[b].status, verdict)
    ensures Runs(start, more) && w == After(start, more) && more == steps + [Considers(b, verdict)]
    ensures var before := After(start, steps);
            && w.db == before.db
            && w.decisions == before.decisions + {Decision(b, before.db.businesses[b].status, verdict)}
  {
    Extend(start, steps, Considers(b, verdict));
    more := steps + [Considers(b, verdict)];
    w := After(start, more);
  }

  lemma {:induction false} SavesDecision(start: World, steps: seq<Step>, d: Decision)
    returns (more: seq<Step>, w: World)
    requires Runs(start, steps) && Enabled(After(start, steps), Decides(d))
    ensures Runs(start, more) && w == After(start, more) && more == steps + [Decides(d)]
    ensures var before := After(start, steps);
            && w.decisions == before.decisions - {d}
            && w.db.businesses ==
               before.db.businesses[d.businessId := before.db.businesses[d.businessId].(status := d.verdict)]
  {
    Extend(start, steps, Decides(d));
    more := steps + [Decides(d)];
    w := After(start, more);
  }

  /** Two decisions on one reading: the rejection that is saved second closes the approved Business. */
  lemma LateRejectionCloses(clock: nat, ttl: nat)
    ensures exists w, d ::
              Reachable(w) && Enabled(w, Decides(d)) && OpenBusiness(w.db, d.businessId)
              && !OpenBusiness(Next(w, Decides(d)).db, d.businessId)
  {
    var start := Empty(clock, ttl);
    var a, w1 := Registers(clock, ttl);
    var b, w2 := ReadsFor(start, a, 0, Rejected);
    var c, w3 := ReadsFor(start, b, 0, Active);
    var d, w4 := SavesDecision(start, c, Decision(0, Pending, Active));
    var late := Decision(0, Pending, Rejected);
    assert Reachable(w4) && Enabled(w4, Decides(late)) && OpenBusiness(w4.db, 0);
    assert !OpenBusiness(Next(w4, Decides(late)).db, 0);
  }

  /** Suspended and unsuspended, a Business that nobody approved is active. */
  lemma SuspensionActivatesUnapproved(clock: nat, ttl: nat)
    ensures exists steps ::
              && Runs(Empty(clock, ttl), steps) && (forall i :: 0 <= i < |steps| ==> !Approves(steps[i], 0))
              && 0 in After(Empty(clock, ttl), steps).db.businesses
              && After(Empty(clock, ttl), steps).db.businesses[0].status == Active
  {
    var start := Empty(clock, ttl);
    var a, w1 := Registers(clock, ttl);
    var b, w2 := ReadsFor(start, a, 0, Suspended);
    var c, w3 := SavesDecision(start, b, Decision(0, Pending, Suspended));
    var d, w4 := ReadsFor(start, c, 0, Active);
    var e, w5 := SavesDecision(start, d, Decision(0, Suspended, Active));
  }

  // ----------------------------------------------------------- who belongs to a Business

  /** Members other than Owners, Invites and sessions are in open Businesses, as are those seen open. */
  ghost predicate Housed(w: World) {
    && (forall u :: u in w.db.users && w.db.users[u].role != Owner ==> OpenBusiness(w.db, w.db.users[u].businessId))
    && (forall i :: i in w.db.invites ==> OpenBusiness(w.db, w.db.invites[i].businessId))
    && (forall c :: c in w.contexts && Opened(c.status) ==> OpenBusiness(w.db, c.actor.businessId))
    && (forall g :: g in w.sessions ==> OpenBusiness(w.db, g.businessId))
  }

  /** Nobody moves to another Business except as the Invite says, and Invites stay where they are. */
  ghost predicate Stays(db: Db, after: Db) {
    && (forall u :: u in after.users && after.users[u].role != Owner ==>
          (u in db.users && db.users[u].role != Owner && after.users[u].businessId == db.users[u].businessId)
          || exists i :: i in db.invites && db.invites[i].businessId == after.users[u].businessId)
    && (forall i :: i in after.invites ==> i in db.invites && after.invites[i].businessId == db.invites[i].businessId)
  }

  lemma DepartedStays(db: Db, actor: Actor, target: UserId, kind: Departure)
    requires Inv(db)
    ensures Stays(db, EndMembership(db, actor, target, kind).0)
  {
  }

  lemma StaffStays(w: World, step: Step)
    requires Sound(w) && Enabled(w, step) && (step.Promotes? || step.Demotes? || step.Removes? || step.Leaves?)
    ensures Stays(w.db, Next(w, step).db)
  {
    match step
    case Removes(c, u) => DepartedStays(w.db, c.actor, u, Removed);
    case Leaves(u) =>
      if w.db.ActiveUser(u) {
        DepartedStays(w.db, Actor(u, w.db.users[u].businessId, w.db.users[u].role), u, Left);
      }
    case _ =>
  }

  lemma RedeemerStays(db: Db, t: TelegramId)
    ensures Stays(db, FindPending(db, t).0) && Stays(db, RedeemInvite(db, t).0)
  {
  }

  lemma ClosingStays(db: Db, which: set<InviteId>, status: InviteStatus)
    requires Inv(db)
    ensures Stays(db, CloseInvites(db, which, status))
  {
  }

  lemma InviteCallsStay(w: World, step: Step)
    requires Sound(w) && Enabled(w, step)
    requires step.Submits? || step.Redeems? || step.FindsInvite? || step.RevokesInvite? || step.ExpiresInvites?
    ensures Stays(w.db, Next(w, step).db)
  {
    match step
    case Submits(t) => RedeemerStays(w.db, t);
    case Redeems(t) => RedeemerStays(w.db, t);
    case FindsInvite(t) => RedeemerStays(w.db, t);
    case RevokesInvite(_, i) => ClosingStays(w.db, {i}, Withdrawn);
    case ExpiresInvites => ClosingStays(w.db, w.db.WaitingTooLong(), Expired);
  }

  lemma ReadsAndDecisionsStay(w: World, step: Step)
    requires Sound(w) && Enabled(w, step)
    requires step.Identifies? || step.LogsIn? || step.Considers? || step.Decides? || step.Passes?
    ensures Stays(w.db, Next(w, step).db)
  {
    if step.Decides? {
      ApprovedKeeps(w.db, step.decision.businessId);
    }
  }

  lemma InviteIsHoused(w: World, c: Context, t: TelegramId, role: Role)
    requires Housed(w) && c in w.contexts
    ensures Housed(Next(w, Invites(c, t, role)))
  {
  }

  lemma StepIsHoused(w: World, step: Step)
    requires Sound(w) && Housed(w) && Enabled(w, step) && Timely(w, step)
    ensures Housed(Next(w, step))
  {
    var after := Next(w, step);
    if step.Invites? {
      InviteIsHoused(w, step.context, step.t, step.role);
    } else {
      forall b | OpenBusiness(w.db, b) ensures OpenBusiness(after.db, b) { OnlyDecisionsOpenOrClose(w, step, b); }
      if step.Promotes? || step.Demotes? || step.Removes? || step.Leaves? {
        StaffStays(w, step);
      } else if step.Submits? || step.Redeems? || step.FindsInvite? || step.RevokesInvite? || step.ExpiresInvites? {
        InviteCallsStay(w, step);
      } else {
        ReadsAndDecisionsStay(w, step);
      }
    }
  }

  lemma {:induction false} TimelyRunIsHoused(w: World, steps: seq<Step>)
    requires Sound(w) && Housed(w) && Runs(w, steps) && TimelyRun(w, steps)
    ensures Housed(After(w, steps))
    decreases |steps|
  {
    if steps != [] {
      StepIsSound(w, steps[0]);
      StepIsHoused(w, steps[0]);
      TimelyRunIsHoused(Next(w, steps[0]), steps[1..]);
    }
  }

  /**
   After every run that closes no open Business, nobody but the prospective Owner belongs to a
   Business that is not open, and it has no Invite and no session.
   */
  lemma ClosedBusinessHasOnlyItsOwner(clock: nat, ttl: nat, steps: seq<Step>, b: BusinessId)
    requires Runs(Empty(clock, ttl), steps) && TimelyRun(Empty(clock, ttl), steps)
    requires var w := After(Empty(clock, ttl), steps); b in w.db.businesses && !OpenBusiness(w.db, b)
    ensures var w := After(Empty(clock, ttl), steps);
            && (forall u :: u in w.db.users && w.db.users[u].businessId == b ==>
                w.db.businesses[b].ownerUserId == Some(u))
            && (forall i :: i in w.db.invites ==> w.db.invites[i].businessId != b)
            && (forall g :: g in w.sessions ==> g.businessId != b)
  {
    RunIsSound(Empty(clock, ttl), steps);
    TimelyRunIsHoused(Empty(clock, ttl), steps);
    var w := After(Empty(clock, ttl), steps);
    forall u | u in w.db.users && w.db.users[u].businessId == b ensures w.db.businesses[b].ownerUserId == Some(u) {
      assert UserOk(w.db, u);
    }
  }

  // ---------------------------------------------------------------- who makes managers

  /** Every manager Invite, pending or not, was created by its Business's Owner. */
  lemma ManagerInvitesComeFromTheOwner(w: World, i: InviteId)
    requires Reachable(w) && i in w.db.invites && w.db.invites[i].role == Manager
    ensures OwnedBy(w.db, w.db.invites[i].businessId, w.db.invites[i].createdBy)
  {
    ReachableIsSound(w);
    assert InviteOk(w.db, i);
  }

  predicate ManagerOf(db: Db, u: UserId, b: BusinessId) {
    db.ActiveUser(u) && db.users[u].role == Manager && db.users[u].businessId == b
  }

  /** The calls that the role model lets change whether somebody manages a Business. */
  predicate MayChangeManager(db: Db, step: Step, u: UserId, b: BusinessId) {
    match step
    case Promotes(c, target) => target == u && OwnedBy(db, b, c.actor.userId)
    case Demotes(c, target) => target == u && OwnedBy(db, b, c.actor.userId)
    case Removes(c, target) => target == u && OwnedBy(db, b, c.actor.userId)
    case Leaves(target) => target == u
    case Redeems(t) =>
      var i := db.PendingInvite(t);
      i.Some? && db.invites[i.value].role == Manager && db.invites[i.value].businessId == b
      && OwnedBy(db, b, db.invites[i.value].createdBy)
      && (db.AnyByTelegramId(t) == Some(u) || (db.AnyByTelegramId(t) == None && u == db.nextUser))
    case _ => false
  }

  /**
   Somebody becomes or stops being a manager of a Business only by an action of its Owner on
   them, by redeeming an Invite that the Owner created, or by leaving.
   */
  lemma ManagersChangeOnlyByOwner(w: World, step: Step, u: UserId, b: BusinessId)
    requires Reachable(w) && Enabled(w, step)
    requires ManagerOf(w.db, u, b) != ManagerOf(Next(w, step).db, u, b)
    ensures MayChangeManager(w.db, step, u, b)
  {
    ReachableIsSound(w);
    if step.Promotes? || step.Demotes? || step.Removes? || step.Leaves? {
      StaffChangesManager(w, step, u, b);
    } else {
      match step
      case Redeems(t) => RedeemChangesOneManager(w.db, t, u, b);
      case Submits(t) => SubmitChangesNoManager(w.db, t, u, b);
      case Decides(d) => ApprovedKeeps(w.db, d.businessId);
      case _ =>
    }
  }

  lemma StaffChangesManager(w: World, step: Step, u: UserId, b: BusinessId)
    requires Sound(w) && Enabled(w, step) && (step.Promotes? || step.Demotes? || step.Removes? || step.Leaves?)
    requires ManagerOf(w.db, u, b) != ManagerOf(Next(w, step).db, u, b)
    ensures MayChangeManager(w.db, step, u, b)
  {
    if !step.Leaves? {
      assert ContextOk(w.db, step.context);
    }
  }

  lemma RedeemChangesOneManager(db: Db, t: TelegramId, u: UserId, b: BusinessId)
    requires Inv(db)
    requires ManagerOf(db, u, b) != ManagerOf(RedeemInvite(db, t).0, u, b)
    ensures MayChangeManager(db, Redeems(t), u, b)
  {
    assert PendingOk(db, t) && AccountOk(db, t);
    assert db.PendingInvite(t).Some? ==> InviteOk(db, db.pending[t]);
    assert UserOk(db, u);
  }

  lemma SubmitChangesNoManager(db: Db, t: TelegramId, u: UserId, b: BusinessId)
    requires Inv(db)
    ensures ManagerOf(db, u, b) == ManagerOf(SubmitSelfRegistration(db, t).0, u, b)
  {
    FindPendingKeeps(db, t);
    assert UserOk(db, u);
  }

  /** A departing manager leaves no pending Invite of their own behind in the Business; a demoted one does. */
  lemma DepartureWithdrawsInvites(db: Db, actor: Actor, target: UserId, kind: Departure)
    requires EndMembership(db, actor, target, kind).1.Ok? && db.users[target].role == Manager
    ensures EndMembership(db, actor, target, kind).0.WaitingFrom(db.users[target].businessId, target) == {}
    ensures forall i :: i in db.invites && i !in db.WaitingFrom(db.users[target].businessId, target) ==>
              && i in EndMembership(db, actor, target, kind).0.invites
              && EndMembership(db, actor, target, kind).0.invites[i] == db.invites[i]
  {
  }
}
