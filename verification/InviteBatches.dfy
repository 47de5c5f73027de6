/**
 Invitations by the batch: which ids are invited, and what becomes of each
 (birr-track-backend/src/invites/invites.service.ts).
 */
module InviteBatches {
  import opened Common
  import opened Membership
  import opened MembershipKeeps

  /** Both appear in `ids`, and `t` before any `x`. */
  predicate AppearsBefore(ids: seq<TelegramId>, t: TelegramId, x: TelegramId) {
    exists p :: 0 <= p < |ids| && ids[p] == t && x in ids && x !in ids[..p + 1]
  }

  lemma AppearsBeforeStays(ids: seq<TelegramId>, last: TelegramId, t: TelegramId, x: TelegramId)
    requires AppearsBefore(ids, t, x) || (t in ids && x == last && x !in ids)
    ensures AppearsBefore(ids + [last], t, x)
  {
    var p :| 0 <= p < |ids| && ids[p] == t && x !in ids[..p + 1];
    assert (ids + [last])[..p + 1] == ids[..p + 1];
  }

  /** Every id that is not blank once, in the order of first appearance. */
  lemma {:induction false} DistinctIsFaithful(ids: seq<TelegramId>)
    ensures forall t :: t in Distinct(ids) <==> t in ids && t != ""
    ensures forall i, j :: 0 <= i < j < |Distinct(ids)| ==>
              Distinct(ids)[i] != Distinct(ids)[j] && AppearsBefore(ids, Distinct(ids)[i], Distinct(ids)[j])
    decreases |ids|
  {
    if ids != [] {
      var front, last := ids[..|ids| - 1], ids[|ids| - 1];
      DistinctIsFaithful(front);
      assert ids == front + [last];
      var d := Distinct(ids);
      forall i, j | 0 <= i < j < |d| ensures d[i] != d[j] && AppearsBefore(ids, d[i], d[j]) {
        AppearsBeforeStays(front, last, d[i], d[j]);
      }
    }
  }

  lemma OneMoreInvited(db: Db, ids: seq<TelegramId>, offer: Offer, failures: Failures, k: nat)
    requires k < |ids|
    ensures var (before, outcomes) := CreateEach(db, ids[..k], offer, failures);
            var (after, result) := TryInvite(before, ids[k], offer, FailureOf(failures, ids[k]));
            CreateEach(db, ids[..k + 1], offer, failures) == (after, outcomes + [OutcomeOf(ids[k], result)])
  {
    assert ids[..k + 1][..k] == ids[..k];
  }

  /** What one call leaves behind for one account. */
  predicate InvitedBy(db: Db, t: TelegramId, i: InviteId, offer: Offer) {
    && t in db.pending && db.pending[t] == i && i in db.invites
    && db.invites[i].status == Waiting && db.invites[i].invitee == t
    && db.invites[i].businessId == offer.businessId && db.invites[i].role == offer.role
    && db.invites[i].createdBy == offer.createdBy
  }

  /** The account has the pending Invite that it had, or none as before. */
  predicate SamePending(db: Db, after: Db, t: TelegramId) {
    && (t in after.pending <==> t in db.pending)
    && (t in db.pending ==>
        && db.pending[t] in db.invites && after.pending[t] == db.pending[t]
        && db.pending[t] in after.invites && after.invites[db.pending[t]] == db.invites[db.pending[t]])
  }

  /** An invitation changes no member and no other account's pending Invite. */
  lemma TryInviteLeavesOthers(db: Db, t: TelegramId, offer: Offer, failure: Option<DatabaseCall>, x: TelegramId)
    requires Inv(db)
    ensures var after := TryInvite(db, t, offer, failure).0;
            && after.users == db.users && after.accounts == db.accounts
            && (x != t ==> SamePending(db, after, x))
  {
    assert PendingOk(db, x) && InviteOk(db, db.nextInvite);
    if x in db.pending {
      assert InviteOk(db, db.pending[x]);
    }
  }

  lemma TryInviteKeeps(db: Db, t: TelegramId, offer: Offer, failure: Option<DatabaseCall>)
    requires Inv(db) && Permitted(db, offer)
    ensures var after := TryInvite(db, t, offer, failure).0; Inv(after) && Permitted(after, offer) && Grows(db, after)
  {
    CreateInviteKeeps(db, t, offer);
    CloseInvitesKeeps(db, db.WaitingFor(t), Withdrawn);
  }

  /** Every call of a batch keeps the invariant, and the permission with it. */
  lemma {:induction false} CreateEachKeeps(db: Db, ids: seq<TelegramId>, offer: Offer, failures: Failures)
    requires Inv(db) && Permitted(db, offer)
    ensures var after := CreateEach(db, ids, offer, failures).0;
            Inv(after) && Permitted(after, offer) && Grows(db, after)
    decreases |ids|
  {
    if ids != [] {
      var front, t := ids[..|ids| - 1], ids[|ids| - 1];
      CreateEachKeeps(db, front, offer, failures);
      TryInviteKeeps(CreateEach(db, front, offer, failures).0, t, offer, FailureOf(failures, t));
    }
  }

  /** A batch changes no member, and the pending Invites of invitees only. */
  lemma {:induction false} CreateEachLeavesOthers(
    db: Db, ids: seq<TelegramId>, offer: Offer, failures: Failures, x: TelegramId)
    requires Inv(db) && Permitted(db, offer)
    ensures |CreateEach(db, ids, offer, failures).1| == |ids|
    ensures var after := CreateEach(db, ids, offer, failures).0;
            after.users == db.users && after.accounts == db.accounts
    ensures x !in ids ==> SamePending(db, CreateEach(db, ids, offer, failures).0, x)
    decreases |ids|
  {
    assert PendingOk(db, x);
    if ids != [] {
      var front, t := ids[..|ids| - 1], ids[|ids| - 1];
      CreateEachLeavesOthers(db, front, offer, failures, x);
      CreateEachKeeps(db, front, offer, failures);
      TryInviteLeavesOthers(CreateEach(db, front, offer, failures).0, t, offer, FailureOf(failures, t), x);
    }
  }

  /**
   The outcome that one account of a batch should have: `db` is what the batch found, `after`
   what it left behind. A save that failed has cost the account its older Invite.
   */
  predicate RightOutcome(
    db: Db, after: Db, t: TelegramId, offer: Offer, failure: Option<DatabaseCall>, outcome: BatchOutcome)
  {
    if failure == Some(Lookup) then outcome == Failed(t) && SamePending(db, after, t)
    else if db.ActiveByTelegramId(t).Some? then outcome == SkippedActiveMember(t) && SamePending(db, after, t)
    else match failure
      case None => outcome.Created? && outcome.invitee == t && InvitedBy(after, t, outcome.invite, offer)
      case Some(Saving) => outcome == Failed(t) && t !in after.pending
      case Some(_) => outcome == Failed(t) && SamePending(db, after, t)
  }

  /** One invitation has the right outcome, whatever the calls before it did for others. */
  lemma OwnOutcomeIsRight(
    db: Db, before: Db, t: TelegramId, offer: Offer, failure: Option<DatabaseCall>)
    requires Inv(before) && before.users == db.users && before.accounts == db.accounts && SamePending(db, before, t)
    ensures var (after, result) := TryInvite(before, t, offer, failure);
            RightOutcome(db, after, t, offer, failure, OutcomeOf(t, result))
  {
    assert PendingOk(before, t);
    if t in before.pending {
      assert InviteOk(before, before.pending[t]);
    }
  }

  /**
   In a batch the conflicts and the failures of one account do not touch another: account by
   account, an active member is skipped, a failed call leaves what it left, and everybody else
   ends up with exactly the new pending Invite.
   */
  lemma {:induction false} BatchOutcomesAreIndependent(
    db: Db, ids: seq<TelegramId>, offer: Offer, failures: Failures, k: nat)
    requires Inv(db) && Permitted(db, offer)
    requires forall i, j :: 0 <= i < j < |ids| ==> ids[i] != ids[j]
    requires k < |ids|
    ensures var (after, outcomes) := CreateEach(db, ids, offer, failures);
            && |outcomes| == |ids|
            && RightOutcome(db, after, ids[k], offer, FailureOf(failures, ids[k]), outcomes[k])
    decreases |ids|
  {
    var front, t := ids[..|ids| - 1], ids[|ids| - 1];
    var before := CreateEach(db, front, offer, failures).0;
    CreateEachLeavesOthers(db, front, offer, failures, ids[k]);
    CreateEachKeeps(db, front, offer, failures);
    if k < |front| {
      BatchOutcomesAreIndependent(db, front, offer, failures, k);
      TryInviteLeavesOthers(before, t, offer, FailureOf(failures, t), ids[k]);
    } else {
      OwnOutcomeIsRight(db, before, t, offer, FailureOf(failures, t));
    }
  }
}
