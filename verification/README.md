# Birr Track: a model of its protocols and parsers

Birr Track records payment receipts that restaurant staff photograph and send to a Telegram bot.
Owners, managers and waiters belong to a Business, log in to a Mini App with short-lived
sessions, and review what was extracted from the photos. The modules below model the parts of it
that carry state or parse text, and prove what those parts promise together.

- `AdminPanelSessions`, `SessionHistory` - session records and per-user indexes in Redis, with every
  expiry; and the history of one session, read off the calls alone, that the store answers by.
- `LoginProtocol` - logins, refreshes, revocations and membership changes interleaved one Redis or
  database call at a time; `ListedSessions` says which of these calls lose a session from its
  user's index, `SessionsAtRest` what they leave behind when none is midway, and `LostSessions`
  shows the runs that lose one.
- `Membership`, `MembershipKeeps`, `InviteBatches`, `MembershipServices`, `Tenancy` - users,
  Businesses and Invites: the calls as functions, the invariant they keep, batches of Invites, the
  same calls as updates of a database object, and all runs of them under identities and statuses
  that were read at any earlier time.
- `MemberLedger` - one account, one Invite and one Business in those runs: the rule by which every
  step moves what the tables say about each.
- `StaleEdits` - those runs again, with promotion, demotion and the choice of a language split into
  the read of a row and its save.
- `RateLimit`, `ReceiptIntake`, `ReceiptRuns` - the fixed-window limiter, the gates in front of the
  queue and the album acknowledgements, with overlapping calls and timers.
- `Transactions`, `ReceiptPipeline`, `ReceiptGuarantees`, `BusinessShares`, `ReceiptOrigins` -
  duplicate check, unique index and repair under concurrent at-least-once delivery, and what this
  promises; what one Business sees of the shared pipeline; and where its rows come from.
- `TransactionsService`, `EditLog`, `EditAccess` - edits and their log; who can reach which row, and
  what the log gives back, in runs of requests by many callers.
- `TrustedHtml` - the template validator, the escapes and the placeholder pass.
- `Base64Url`, `ExportLink`, `ExportCodec` - unpadded base64url (RFC 4648, sections 5 and 3.2),
  export tokens, and a codec of the kind that the results about them ask for.
- `ClientSession`, `Heartbeat` - the Mini App's session holder, and the closed loop of its
  heartbeats with the server's expiries.

Every service that changes stored state appears twice: as functions on values, about which the
runs are proved, and as a class whose methods are proved to compute exactly those functions.
`dafny verify dfyconfig.toml` checks everything.

## What the proofs found

- The limiter's sharp bound is `2 * limit - 1` photos per interval of one window, not `2 * limit`.
- A live session can fall out of its user's index in four ways: `renew` writes back a record that
  was removed since its GET, the pipeline of `revokeAllForUser` has not seen a session, an index
  runs out between SADD and EXPIRE, and the SREM of `revoke` follows such a late SET. Each has a
  run, and `ListedSessions.ListedExactlyIf` says that no session is ever lost if and only if no
  call does one of these; then every session at rest also agrees with its row. A lost session is
  harmless only through the guard's row check.
- An approval and a rejection that read the same pending Business can close an open one
  (`Tenancy.LateRejectionCloses`); `Tenancy.OpenStaysOpenExactlyIf` says which runs are free of
  it. Owners, rows, Invites and managers are in order in all runs of whole membership calls.
- A promotion, a demotion or a choice of language that is saved late writes its whole row back, also
  over a departure. The tables stay in order if and only if no row is saved while its account has a
  pending Invite (`StaleEdits.TablesKeepInOrderExactlyIf`); `StaleEdits.StalePromotionRevivesAMember`
  is a run of the other kind.
- `create` withdraws the older Invite before it saves the new one, without a transaction: an
  invitation whose save fails leaves its invitee without any (`InviteBatches.BatchOutcomesAreIndependent`).
- "Active" does not imply "approved once", because `suspendBusiness` accepts a pending or rejected
  Business: `Tenancy.SuspensionActivatesUnapproved` is a run, and
  `Tenancy.OpenMeansApprovedExactlyIf` the exact condition.
- `findDuplicate` does not exclude the row itself: a second delivery of one complete reading always
  flags the row (`Transactions.SameReadingFlagsItself`), and `Transactions.RedeliveryFlagsExactlyIf`
  says when any redelivery does.
- The edit log's two text forms of an amount differ for amounts ending in a zero cent, so an
  unchanged amount is then logged as an edit; undoing the log still restores the row.
- A waiter may still edit and delete rows of their own in a Business they have left, which they are
  no longer shown; but for that, and waiters without a user id, callers may edit exactly what they
  see (`EditAccess.SeeingAndTouchingDifferExactlyFor`).
- An export token followed by one dot is accepted.
- A logout while a refresh is in flight is undone in the client by the answer to that refresh.
- A heartbeat that gets no answer at all is the last one until the client is shown again or a call
  needs a token (`ClientSession.HeartbeatLastsExactlyIf`, `ClientSession.UnansweredHeartbeatIsTheLast`).

## Model

| member | source | states |
|---|---|---|
| `AdminPanelSessions.RunKeepsInv` | birr-track-backend/src/auth/admin-panel-session.service.ts:63-166 | In every run of create, renew, assert, revoke and revoke-all, record expiries fit the three lifetimes, each record short of its absolute expiry is in its user's index, and no index lists a live record of somebody else. |
| `AdminPanelSessions.RevokeAllLeavesNoneActive` | birr-track-backend/src/auth/admin-panel-session.service.ts:152-166 | In every reachable store, revoking a user leaves exactly the active sessions of other users active. |
| `AdminPanelSessions.ActiveSessionIsIndexed` | birr-track-backend/src/auth/admin-panel-session.service.ts:79-84 | An active session is in its user's index, which Redis keeps at least until the session's absolute expiry. |
| `AdminPanelSessions.ActiveWithinBothWindows` | birr-track-backend/src/auth/admin-panel-session.service.ts:126-136 | A reachable session is active if and only if it is kept, within its idle window since the last renewal, and within the maximum lifetime since creation. |
| `AdminPanelSessions.InactiveStaysInactive` | birr-track-backend/src/auth/admin-panel-session.service.ts:94-136 | A session that is not active never becomes active again, whatever is called, unless its id is created anew. |
| `SessionHistory.ActiveExactlyIfItLives` | birr-track-backend/src/auth/admin-panel-session.service.ts:63-166 | After every run from an empty store a session is active if and only if its history of creation, renewals and revocations says that it lives, and its record is the one that this history tells of: hash, bearer, creation, last renewal and both expiries. |
| `SessionHistory.RenewalNeedsTheToken` | birr-track-backend/src/auth/admin-panel-session.service.ts:94-124 | After every such run a renewal succeeds if and only if the session lives and the token is the one it was created with; any other token changes nothing, and the right one for a session that is over takes its record away. |
| `SessionHistory.CheckedSessionsAreActiveOrGone` | birr-track-backend/src/auth/admin-panel-session.service.ts:126-136 | After a check a session has its record if and only if it was active, and no session has become active or inactive. |
| `SessionHistory.RevokeEndsExactlyOne` | birr-track-backend/src/auth/admin-panel-session.service.ts:138-149 | A revoked session is neither active nor listed, and every other session is as before. |
| `SessionHistory.IndexesAreNeverEmpty` | birr-track-backend/src/auth/admin-panel-session.service.ts:138-149 | No call leaves an index without a member. |
| `AdminPanelSessions.AdminPanelSessionService.Create` | birr-track-backend/src/auth/admin-panel-session.service.ts:63-92 | The new record and the index entry with their expiries, as one state function of the old state. |
| `AdminPanelSessions.AdminPanelSessionService.Renew` | birr-track-backend/src/auth/admin-panel-session.service.ts:94-124 | Missing, wrong token, expired and renewed: outcome and whole new state in each case. |
| `AdminPanelSessions.AdminPanelSessionService.AssertActive` | birr-track-backend/src/auth/admin-panel-session.service.ts:126-136 | Answers whether the session is active, and revokes a record that is kept but expired. |
| `AdminPanelSessions.AdminPanelSessionService.Revoke` | birr-track-backend/src/auth/admin-panel-session.service.ts:138-149 | The key and its index entry go, an emptied index goes too, nothing else changes. |
| `AdminPanelSessions.AdminPanelSessionService.RevokeAllForUser` | birr-track-backend/src/auth/admin-panel-session.service.ts:152-166 | The loop over the listed ids deletes exactly those keys and the index. |
| `ListedSessions.RunKeepsInv` | birr-track-backend/src/auth/admin-panel-session.service.ts:63-166 | In every single-call interleaving of logins, refreshes, revocations, membership changes and rejoins nobody but its own login knows an id before its session is stored, and a login, a session and a refresh of one id never differ in user or standing. |
| `ListedSessions.ListedExactlyIf` | birr-track-backend/src/auth/admin-panel-session.service.ts:79-161 | For every run, with all Redis exchanges split into their calls: every live session is in its user's index from its SADD on, throughout, if and only if no refresh writes back a session that is gone from both, no pipeline of a revocation of all and no index running out finds a live session that it has not seen, and no SREM finds its session live. |
| `SessionsAtRest.AtRestSessionsMatchRows` | birr-track-backend/src/auth/auth.service.ts:163-182 | After every run in which none of these four losses happens, whenever nothing is midway, each live session is indexed and agrees with its user's active row, without exception, also when the row changed away and back. |
| `SessionsAtRest.WholeRunsMatchRows` | birr-track-backend/src/auth/auth.service.ts:163-182 | With `renew`, `revoke`, `revokeAllForUser` and SADD with EXPIRE as one step each none of the four losses can happen, so every live session at rest is indexed and agrees with the row. |
| `SessionsAtRest.WholeRevocationIsItsCalls` | birr-track-backend/src/auth/admin-panel-session.service.ts:138-149 | A revocation taken as one step is exactly its GET, DEL and SREM with nothing in between, whether or not the session was live. |
| `SessionsAtRest.WholeChangeIsItsCalls` | birr-track-backend/src/auth/admin-panel-session.service.ts:152-166 | A revocation of all taken as one step is exactly its SMEMBERS and its pipeline. |
| `SessionsAtRest.GuardNeedsOnlyTheKey` | birr-track-backend/src/auth/guards/optional-jwt-auth.guard.ts:79-94 | At rest after every run that loses no session, split or not, every access token handed out by a login or a refresh passes the key and row checks exactly while its session's key is live. |
| `SessionsAtRest.ChangeReachesExactlyTheIndex` | birr-track-backend/src/users/users.service.ts:134-136 | A membership change deletes a live session exactly if the index lists it; one that is not listed survives with a stale standing, and then the guard's row check refuses it. |
| `LostSessions.SplitRevocationStraysASession` | birr-track-backend/src/auth/admin-panel-session.service.ts:155-161 | A run in which a login between SMEMBERS and the pipeline of `revokeAllForUser` leaves a live session outside the index. |
| `LostSessions.SplitIndexingStraysASession` | birr-track-backend/src/auth/admin-panel-session.service.ts:79-84 | A run in which the index that an earlier, ended session has left behind runs out between SADD and EXPIRE of the next login, with the same effect. |
| `LostSessions.SplitRefreshStraysASession` | birr-track-backend/src/auth/admin-panel-session.service.ts:95-117 | A run in which `renew` writes back, after a removal and a rejoin, the record that it read before them. |
| `LostSessions.SplitLogoutStraysASession` | birr-track-backend/src/auth/admin-panel-session.service.ts:138-149 | A run in which `renew` writes its record back between DEL and SREM of a logout. |
| `MembershipKeeps.CreateInviteKeeps` | birr-track-backend/src/invites/invites.service.ts:50-74 | Creating an Invite under the inviter's permission keeps all invariants of the tables; a pending Invite of the same person is replaced. |
| `MembershipKeeps.RedeemInviteKeeps` | birr-track-backend/src/invites/invites.service.ts:106-132 | Redeeming, with its expiry, membership and joining branches, keeps them. |
| `MembershipKeeps.SubmitSelfRegistrationKeeps` | birr-track-backend/src/registrations/registrations.service.ts:103-168 | Self-registration in all entry states keeps them. |
| `MembershipKeeps.EndMembershipKeeps` | birr-track-backend/src/users/users.service.ts:180-221 | Leaving and removal keep them. |
| `MembershipKeeps.ApprovedKeeps` | birr-track-backend/src/registrations/registrations.service.ts:201-286 | An approval, whenever it is saved, keeps them and finds the registrant already Owner. |
| `InviteBatches.DistinctIsFaithful` | birr-track-backend/src/invites/invites.service.ts:77-78 | Removing blank ids and duplicates from the trimmed ids of a batch keeps exactly the other ids, each once, in the order of their first appearance. |
| `Membership.TrimIsTheMiddle` | birr-track-backend/src/invites/invites.service.ts:77 | A trimmed text is the text without the white space around it, and neither begins nor ends with any. |
| `InviteBatches.BatchOutcomesAreIndependent` | birr-track-backend/src/invites/invites.service.ts:76-104 | Whichever database calls of a batch fail, each outcome is the right one for its own invitee in the final state: invited, skipped as a member, or failed with the older Invite still there, or withdrawn if it was the save that failed. No invitation of the batch undoes or blocks another. |
| `MembershipServices.MembershipDatabase.Join` | birr-track-backend/src/users/users.service.ts:88-112 | Joining: the active-member conflict, the rejoin of a removed row, the first row. |
| `MembershipServices.MembershipDatabase.Promote` | birr-track-backend/src/users/users.service.ts:124-139 | Whole outcome and new state of a promotion, errors included, and the revocation of the target's sessions; the invariants hold again. |
| `MembershipServices.MembershipDatabase.Demote` | birr-track-backend/src/users/users.service.ts:142-164 | Whole outcome and new state of a demotion, with the revocation; the target's pending Invites stay; the invariants hold again. |
| `MembershipServices.MembershipDatabase.End` | birr-track-backend/src/users/users.service.ts:180-221 | Whole outcome and new state of a departure: the role rules, the owner, the withdrawn Invites, the revocation; the invariants hold again. |
| `MembershipServices.MembershipDatabase.Leave` | birr-track-backend/src/users/users.service.ts:172-178 | Leaving on one's own account, with the revocation; the invariants hold again. |
| `MembershipServices.MembershipDatabase.Create` | birr-track-backend/src/invites/invites.service.ts:50-74 | Conflict with an active member, withdrawal of the older Invite, the new Invite with the configured lifetime, and what a failing database call leaves behind; a permitted offer keeps the invariants. |
| `MembershipServices.MembershipDatabase.CreateAll` | birr-track-backend/src/invites/invites.service.ts:76-104 | The batch loop over trimmed, filled and distinct ids equals the recursive batch function, failed outcomes included; empty and oversized batches are refused; a permitted offer keeps the invariants. |
| `MembershipServices.MembershipDatabase.Redeem` | birr-track-backend/src/invites/invites.service.ts:106-132 | Nothing pending, already a member, joined: outcome and new state. |
| `MembershipServices.MembershipDatabase.Find` | birr-track-backend/src/invites/invites.service.ts:138-152 | The pending Invite, after marking an overdue one expired. |
| `MembershipServices.MembershipDatabase.Withdraw` | birr-track-backend/src/invites/invites.service.ts:167-181 | Only a pending Invite of the caller's own Business is revoked. |
| `MembershipServices.MembershipDatabase.ExpireDue` | birr-track-backend/src/invites/invites.service.ts:192-195 | Exactly the overdue pending Invites are closed, and counted. |
| `MembershipServices.MembershipDatabase.Submit` | birr-track-backend/src/registrations/registrations.service.ts:103-168 | Every entry state of self-registration, with the rows it writes and the reason it clears; the platform owner is refused first, and a blank name once there is no Invite. |
| `MembershipServices.MembershipDatabase.Approve` | birr-track-backend/src/registrations/registrations.service.ts:201-229 | Only a pending Business is approved; the registrant becomes Owner. |
| `MembershipServices.MembershipDatabase.Reject` | birr-track-backend/src/registrations/registrations.service.ts:231-264 | Only a pending Business is rejected; the trimmed reason is saved, replaced for a Business already rejected, and a blank one is not. |
| `MembershipServices.MembershipDatabase.Suspend` | birr-track-backend/src/businesses/businesses.service.ts:58-75 | Suspension from any status the code accepts. |
| `MembershipServices.MembershipDatabase.Unsuspend` | birr-track-backend/src/businesses/businesses.service.ts:77-92 | Only a suspended Business returns to active. |
| `Tenancy.RunIsSound` | birr-track-backend/src/users/users.service.ts:88-221 | In every run, whose calls are made with identities and Business statuses read at any earlier time, the invariants of the tables hold and everything ever read about Owners stays true. |
| `Tenancy.ExactlyOneOwner` | birr-track-backend/src/registrations/registrations.service.ts:103-168 | In every reachable state each Business has exactly one non-removed Owner, its `ownerUserId`. |
| `Tenancy.OneRowOneInvite` | birr-track-backend/src/invites/invites.service.ts:50-132 | In every reachable state an account has one row and one pending Invite at most, and no pending Invite while it is an active member. |
| `Tenancy.OnlyDecisionsOpenOrClose` | birr-track-backend/src/businesses/businesses.service.ts:58-92 | In every reachable state a saved decision settles whether its Business is active or suspended, and no other step changes that for any Business. |
| `Tenancy.OpenStaysOpenExactlyIf` | birr-track-backend/src/registrations/registrations.service.ts:201-264 | For every run, with approval, rejection, resubmission, suspension and its end each split into read and save: no active or suspended Business ever leaves these two states if and only if no save of another status finds its Business open by then. |
| `Tenancy.OpenMeansApprovedExactlyIf` | birr-track-backend/src/businesses/businesses.service.ts:58-75 | For every run: a Business is active or suspended only once it has been approved, throughout, if and only if no suspension or end of one is saved for it before its first approval. |
| `Tenancy.SuspensionActivatesUnapproved` | birr-track-backend/src/businesses/businesses.service.ts:58-92 | A run that registers, suspends and unsuspends a Business, which is then active and was never approved. |
| `Tenancy.ClosedBusinessHasOnlyItsOwner` | birr-track-backend/src/auth/auth.service.ts:167-169 | After every run that closes no open Business, a pending or rejected Business has no member but its prospective Owner, no Invite and no session, also when the inviter's or the login's status was read earlier. |
| `Tenancy.LateRejectionCloses` | birr-track-backend/src/registrations/registrations.service.ts:231-264 | A run in which an approval and a rejection read the same pending Business, and the rejection, saved second, closes the approved Business. |
| `Tenancy.DecisionAtOnceIsTimely` | birr-track-backend/src/businesses/businesses.service.ts:58-92 | A decision saved right behind its read closes no open Business, and is the whole call. |
| `Tenancy.ResubmissionIsItsSave` | birr-track-backend/src/registrations/registrations.service.ts:103-168 | For a member of a rejected Business self-registration is exactly the save of the pending status. |
| `Tenancy.ManagerInvitesComeFromTheOwner` | birr-track-backend/src/telegram/flows/conversation.service.ts:474-483 | In every reachable state each manager Invite was created by its Business's Owner. |
| `Tenancy.ManagersChangeOnlyByOwner` | birr-track-backend/src/users/users.service.ts:124-221 | In every reachable state any step that makes or unmakes a manager of a Business is an action of its Owner on that person, the redemption of an Invite the Owner created, or the person's own leaving. |
| `Tenancy.DepartureWithdrawsInvites` | birr-track-backend/src/users/users.service.ts:202-210 | A departing manager's own pending Invites in the Business are withdrawn, and no other Invite changes. |
| `MemberLedger.StepMovesAccount` | birr-track-backend/src/users/users.service.ts:88-221 | In every run, for every account: each step leaves exactly the membership, role, Business and pending Invite that the rule of that step says, also when callers and statuses were read earlier. |
| `MemberLedger.AccountIsInTheRows` | birr-track-backend/src/users/users.service.ts:30-53 | What the ledger says about an account is what all rows of the tables say: no active row and no pending Invite of the account is left out. |
| `MemberLedger.StepMovesInvite` | birr-track-backend/src/invites/invites.service.ts:50-195 | In every run each Invite keeps its invitee, Business, role, creator and expiry, and each step gives it exactly the status of its rule. |
| `MemberLedger.StepMovesStatus` | birr-track-backend/src/businesses/businesses.service.ts:58-92 | In every run each step leaves every Business exactly the status of its rule: a saved decision its verdict, a new registration and a resubmission pending, anything else what it was. |
| `MemberLedger.DepartedStayOut` | birr-track-backend/src/users/users.service.ts:172-221 | Whoever leaves or is removed has no active row and no identity from then on, in every run, until they redeem an Invite. |
| `MemberLedger.InviteLastsItsLifetime` | birr-track-backend/src/invites/invites.service.ts:50-132 | An Invite can be redeemed at every moment of its lifetime, for the role and the Business that it names, in every run in which it is not replaced or redeemed, its own Business does not revoke it and its creator does not depart. |
| `MemberLedger.IdentifiedExactlyIf` | birr-track-backend/src/telegram/services/identity.service.ts:39-62 | An account is identified if and only if it is a member, in its role and with its Business and the status of that. |
| `MemberLedger.StaffAnswers` | birr-track-backend/src/users/users.service.ts:124-221 | Who gets which answer from promotion, demotion and departure, and that a refusal changes nothing. |
| `MemberLedger.InviteeAnswers` | birr-track-backend/src/invites/invites.service.ts:106-152 | An invitee is told of an Invite, and joins, if and only if it is pending and in time. |
| `MemberLedger.ClosingAnswers` | birr-track-backend/src/invites/invites.service.ts:167-195 | An Invite is revoked if and only if it is pending and of the caller's Business; exactly the overdue ones are counted. |
| `MemberLedger.RegistrantAnswers` | birr-track-backend/src/registrations/registrations.service.ts:103-168 | Which registrant is told what, by what the tables say about the account. |
| `MemberLedger.DecisionAnswers` | birr-track-backend/src/registrations/registrations.service.ts:201-264 | From which status each decision changes a Business, is already so, or is refused, and where it leads. |
| `MemberLedger.BatchAnswers` | birr-track-backend/src/invites/invites.service.ts:76-80 | A batch is refused if and only if it holds no id or more than ten after cleaning, and then changes nothing. |
| `MemberLedger.LoggedInExactlyIf` | birr-track-backend/src/auth/auth.service.ts:163-169 | A login is given a session if and only if its Business was read as active or suspended. |
| `StaleEdits.SaveKeepsInvExactlyIf` | birr-track-backend/src/users/users.service.ts:114-164 | For all tables in order and every row read by a promotion, a demotion or a choice of language, however stale: its save keeps the tables in order if and only if the account has no pending Invite by then. |
| `StaleEdits.EditAtOnceIsTheCall` | birr-track-backend/src/users/users.service.ts:114-164 | An edit saved right behind its read is the whole promotion or demotion by the owner, and a choice of language changes nothing about the membership. |
| `StaleEdits.TablesKeepInOrderExactlyIf` | birr-track-backend/src/users/users.service.ts:114-164 | For every run of the membership services with these three edits split into read and save: the invariants of the tables hold throughout if and only if no save finds its account with a pending Invite. |
| `StaleEdits.StalePromotionRevivesAMember` | birr-track-backend/src/users/users.service.ts:124-139 | From every such state, a waiter who leaves and is invited again between read and save of a promotion is an active member with a pending Invite after it. |
| `ReceiptIntake.ReceiptService.ProcessPhotoMessage` | birr-track-backend/src/telegram/flows/receipt.service.ts:47-128 | The five ways a photo is turned away, the one throttle reply, and the job with the attribution captured on arrival, as one function of the old state. |
| `ReceiptIntake.ReceiptService.SendMediaGroupAck` | birr-track-backend/src/telegram/flows/receipt.service.ts:130-156 | A single photo is answered at once; an album's first photo sets up the count and its timer, the others are counted. |
| `ReceiptRuns.AlbumCountsAddUp` | birr-track-backend/src/telegram/flows/receipt.service.ts:127-156 | In every interleaving of calls and timers the photos queued for an album are those announced, plus those pending, plus those whose call is about to count them. |
| `ReceiptRuns.QuietAlbumsAreAnnounced` | birr-track-backend/src/telegram/flows/receipt.service.ts:130-156 | Once no call is under way and no timer runs, an album's announcements sum to exactly its queued photos. |
| `ReceiptRuns.EachPhotoIsAcknowledgedOnce` | birr-track-backend/src/telegram/flows/receipt.service.ts:112-156 | Every queued photo came from a known user of a Business active on arrival and carries that user and Business; when its call is over it was answered alone or counted in one acknowledgement of its album, whose count is the number of its photos and is final once sent. |
| `ReceiptRuns.SinglesAreAnsweredOnce` | birr-track-backend/src/telegram/flows/receipt.service.ts:130-135 | In every interleaving as many single replies went out as photos outside albums were answered. |
| `ReceiptRuns.TurnedAwayByStatus` | birr-track-backend/src/telegram/flows/receipt.service.ts:59-98 | Which sender is turned away with which reply; that takes no turn at the limiter and changes nothing else. |
| `ReceiptRuns.LetInExactlyIf` | birr-track-backend/src/telegram/flows/receipt.service.ts:100-110 | In every reachable state a photo that reaches the limiter is let in if and only if it is among the first `limit` of its sender's window. |
| `ReceiptRuns.QueueTakesLessThanTwiceLimit` | birr-track-backend/src/telegram/flows/receipt.service.ts:100-120 | In every interleaving, of one sender's photos that reach the limiter within any interval of one window's length, at most `2 * limit - 1` enter the queue. |
| `RateLimit.RateLimitService.Consume` | birr-track-backend/src/shared/rate-limit/rate-limit.service.ts:29-40 | The counter after INCR and EXPIRE NX, its count, and whether it is within the limit; when either Redis call fails the request is allowed with a count of zero, and a failed EXPIRE leaves the incremented counter. |
| `RateLimit.WindowAdmitsAtMostLimit` | birr-track-backend/src/shared/rate-limit/rate-limit.service.ts:29-35 | Each window of an ordered run of arrivals admits at most `limit`. |
| `RateLimit.OneThrottleReplyPerOverfullWindow` | birr-track-backend/src/telegram/flows/receipt.service.ts:104-110 | In every run of arrivals the counts that are answered are as many as the windows with more than `limit` arrivals. |
| `ReceiptRuns.ThrottleRepliesAreOverfullWindows` | birr-track-backend/src/telegram/flows/receipt.service.ts:100-110 | In every interleaving a sender is sent exactly one throttle reply for each of their windows with more than `limit` photos. |
| `RateLimit.IntervalAdmitsLessThanTwiceLimit` | birr-track-backend/src/shared/rate-limit/rate-limit.service.ts:29-35 | Any half-open interval of one window's length admits at most `2 * limit - 1` arrivals. |
| `RateLimit.BoundIsAttained` | birr-track-backend/src/shared/rate-limit/rate-limit.service.ts:29-35 | For every limit and window there is a run that reaches this bound. |
| `ReceiptGuarantees.AcknowledgedPhotoIsNeverLost` | birr-track-backend/src/queue/queue.service.ts:9-17 | In every run each acknowledged photo is queued, in flight, failed after exactly three attempts, or done with a row for its captured Business, unless a user deleted that row. |
| `ReceiptGuarantees.UnflaggedDuplicatesAreBounded` | birr-track-backend/src/processing/processing.service.ts:86-131 | With at most `limit` jobs in flight, any interleaving of check, create and repair over any redeliveries leaves at most `limit` unflagged recorded rows of one Business with the same transaction id, amount and time. |
| `ReceiptGuarantees.BoundIsAttained` | birr-track-backend/src/queue/image-processing.worker.ts:41-53 | For every limit and every such claim some run leaves exactly `limit` of them. |
| `ReceiptGuarantees.RowsMergeTheirDeliveries` | birr-track-backend/src/transactions/transactions.service.ts:32-92 | In every run a recorded row has all four fields, and a row that no user deleted before is the merge of its photo's deliveries in the order they were written. |
| `BusinessShares.FlaggedExactlyIf` | birr-track-backend/src/transactions/transactions.service.ts:44-53 | A job is flagged if and only if all four fields were read and its own Business has a row with exactly its transaction id, amount and time. |
| `BusinessShares.BusinessesRunApart` | birr-track-backend/src/processing/processing.service.ts:44-132 | However the jobs of all Businesses interleave in the one pipeline, each Business has in the end exactly the rows, flags, jobs and writes that its own steps of the run leave when they run alone. |
| `BusinessShares.SharesAreReachable` | birr-track-backend/src/processing/processing.service.ts:44-132 | So what a reachable pipeline holds of a Business is a pipeline that the Business reaches alone. |
| `ReceiptOrigins.RowsComeFromActiveMembers` | birr-track-backend/src/telegram/flows/receipt.service.ts:112-120 | When the pipeline works on what the intake queued, every row in every reachable state names the user and the Business of a sender who was a member of that Business, active at that moment. |
| `ReceiptOrigins.RowsAppearOnlyByCreation` | birr-track-backend/src/transactions/transactions.service.ts:55-68 | A repair that finds its row deleted meanwhile writes none. |
| `Transactions.DeliveriesMerge` | birr-track-backend/src/transactions/transactions.service.ts:55-92 | After any sequence of deliveries of one key there is one row: each extracted field is its latest non-null reading, and the status is recorded exactly if the last delivery was complete. |
| `Transactions.RedeliveryFlagsExactlyIf` | birr-track-backend/src/transactions/transactions.service.ts:44-53 | For every table and delivery to an unedited row: the row is flagged exactly if the reading is complete and the row itself, or another one of its Business, has its transaction id, amount and time. |
| `Transactions.SameReadingFlagsItself` | birr-track-backend/src/processing/processing.service.ts:86-131 | Delivering the same complete reading again always leaves the row flagged, so it keeps the flag exactly if the first delivery had found a duplicate. |
| `Transactions.WritingKeepsRowsOk` | birr-track-backend/src/processing/processing.service.ts:92-131 | Creating or repairing keeps recorded rows complete. |
| `Transactions.EditedRowsArePreserved` | birr-track-backend/src/transactions/transactions.service.ts:69-72 | A redelivery never overwrites a row that its uploader has edited. |
| `Transactions.DraftSaysHowFarItCame` | birr-track-backend/src/processing/processing.service.ts:44-90 | A draft carries the image once it is stored and exactly what was read off it. |
| `TransactionsService.TransactionStore.Create` | birr-track-backend/src/transactions/transactions.service.ts:32-42 | The unique index refuses a second row of the key, otherwise the new row is stored. |
| `TransactionsService.TransactionStore.RepairIdempotentRedelivery` | birr-track-backend/src/transactions/transactions.service.ts:55-92 | The row that is there takes the delivery's readings where it has any; without a row nothing happens. |
| `TransactionsService.TransactionStore.ProcessImageJob` | birr-track-backend/src/processing/processing.service.ts:44-132 | One delivery undisturbed, from extraction outcome to stored row; an extraction failure alone does not fail the job. |
| `TransactionsService.TransactionStore.UpdateRow` | birr-track-backend/src/transactions/transactions.service.ts:229-278 | One edit request: access check, the changed row, and the log entries of the loop over the submitted fields, as one function of the old state. |
| `TransactionsService.TransactionStore.Remove` | birr-track-backend/src/transactions/transactions.service.ts:280-303 | One deletion request: only an accessible row that needs review is removed, and its log with it. |
| `TransactionsService.TransactionStore.FindById` | birr-track-backend/src/transactions/transactions.service.ts:120-130 | Exactly the rows in the caller's scope are found. |
| `EditAccess.AnswersAreExact` | birr-track-backend/src/transactions/transactions.service.ts:229-303 | A request is let through if and only if the row exists and the caller is the platform owner, a waiter whose row it is, or a manager or owner of its Business; a recorded row is not deleted; a refusal changes nothing, and no request touches another row or its log. |
| `EditAccess.StaffKeepToTheirBusiness` | birr-track-backend/src/transactions/transactions.service.ts:407-421 | Whatever managers and owners of one Business request, in any run, every row of another Business stays as it is, with its log. |
| `EditAccess.WaitersKeepToTheirRows` | birr-track-backend/src/transactions/transactions.service.ts:407-421 | Whatever a waiter requests, in any run, every row of somebody else stays as it is, with its log. |
| `EditAccess.SeeingAndTouchingDifferExactlyFor` | birr-track-backend/src/transactions/transactions.service.ts:386-421 | Callers may edit exactly the rows they are shown, but for waiters with rows in another Business than theirs and waiters without a user id. |
| `EditAccess.LogExplainsEveryRun` | birr-track-backend/src/transactions/transactions.service.ts:229-303 | For every row that a run of requests by many callers leaves in the table, the entries that its log has gained undo the run on that row and redo it. |
| `EditAccess.EntriesNameTheirEditor` | birr-track-backend/src/transactions/transactions.service.ts:229-278 | Every entry that a run adds names as its editor a caller who asked for an edit of that row and may. |
| `TransactionsService.EditKeepsRowOk` | birr-track-backend/src/transactions/transactions.service.ts:423-432 | Submitted fields are never empty, so an edit keeps a recorded row complete. |
| `EditLog.FaithfulTextsExist` | birr-track-backend/src/transactions/transactions.service.ts:434-443 | Text forms of instants and confidences that can be read back, as the results below ask for, exist. |
| `EditLog.UndoUpdate` | birr-track-backend/src/transactions/transactions.service.ts:229-278 | Restoring the old values of one update's log in reverse order gives back the row. |
| `EditLog.LogUndoesEveryRun` | birr-track-backend/src/transactions/transactions.service.ts:229-278 | So does the concatenated log of every run of updates. |
| `EditLog.UpdateTakesEffect` | birr-track-backend/src/transactions/transactions.service.ts:423-432 | Each submitted field has the submitted value afterwards, and nothing else has changed. |
| `EditLog.RedoUpdate` | birr-track-backend/src/transactions/transactions.service.ts:229-278 | Replaying the new values of one update's log gives the updated row. |
| `EditLog.LogRedoesEveryRun` | birr-track-backend/src/transactions/transactions.service.ts:229-278 | So does the concatenated log of every run of updates. |
| `EditLog.UnloggedFieldIsUnchanged` | birr-track-backend/src/transactions/transactions.service.ts:434-443 | A submitted field without a log entry has the value it had before. |
| `EditLog.EqualAmountTexts` | birr-track-backend/src/transactions/transactions.service.ts:434-443 | The stored text of an amount equals the submitted one exactly if the amounts are equal and do not end in a zero cent. |
| `EditLog.ResubmittedAmountIsLogged` | birr-track-backend/src/transactions/transactions.service.ts:434-443 | Submitting an unchanged amount writes no entry exactly if its last cent digit is not zero. |
| `EditLog.StoredAmountRoundTrip` | birr-track-backend/src/transactions/transactions.service.ts:434-443 | The logged text of an amount reads back to the amount. |
| `TrustedHtml.EscapeIsPerCharacter` | birr-track-backend/src/telegram/telegram-html.ts:33-35 | The chain of five whole-string replacements is one pass over the characters. |
| `TrustedHtml.EscapedHasNoMarkup` | birr-track-backend/src/telegram/telegram-html.ts:33-35 | Escaped text contains no angle bracket and no quote. |
| `TrustedHtml.EscapeRoundTrip` | birr-track-backend/src/telegram/telegram-html.ts:33-35 | An unescape function undoes the escape on every string. |
| `TrustedHtml.EscapeInjective` | birr-track-backend/src/telegram/telegram-html.ts:33-35 | Different values have different escaped forms. |
| `TrustedHtml.CleanTokensAreTags` | birr-track-backend/src/telegram/telegram-html.ts:5-18 | When nothing angular is left without the allowed tags, the token pass sees exactly the tags that the deleting pass saw. |
| `TrustedHtml.ValidatorAcceptsGrammar` | birr-track-backend/src/telegram/telegram-html.ts:9-31 | The validator accepts a text exactly if it is in the balanced-tag grammar. |
| `TrustedHtml.VerdictNamesTheTag` | birr-track-backend/src/telegram/telegram-html.ts:9-31 | A refused text is refused for its first closing tag that matches nothing open, or else for the last tag left open. |
| `TrustedHtml.ValidateTrustedTemplate` | birr-track-backend/src/telegram/telegram-html.ts:9-31 | The stack loop computes this verdict, with the same error at the same tag. |
| `TrustedHtml.RenderPreservesStructure` | birr-track-backend/src/telegram/telegram-html.ts:43-53 | For every accepted template and all values the rendered text is accepted by the validator and has exactly the template's tags. |
| `TrustedHtml.HoleFillsInPlace` | birr-track-backend/src/telegram/telegram-html.ts:43-53 | In any surroundings a placeholder becomes its escaped value, whose own braces are never read again. |
| `TrustedHtml.HoleAtExactlyIf` | birr-track-backend/src/telegram/telegram-html.ts:7 | A text begins with a placeholder if and only if it begins with a brace, letters, digits or underscores, and a closing brace. |
| `TrustedHtml.FillFailsOnFirstMissing` | birr-track-backend/src/telegram/telegram-html.ts:45-50 | Substitution fails exactly if some placeholder has no value, and names the first. |
| `TrustedHtml.RenderSucceedsExactly` | birr-track-backend/src/telegram/telegram-html.ts:43-53 | Rendering succeeds exactly if the template is in the grammar and every placeholder has a value. |
| `Base64Url.DecodeEncode` | birr-track-backend/src/transactions/export-link.service.ts:108-116 | Base64 decoding undoes encoding on every byte string. |
| `Base64Url.PaddingIsRestored` | birr-track-backend/src/transactions/export-link.service.ts:113-116 | The re-padding formula restores exactly the stripped `=` signs. |
| `Base64Url.UrlRoundTrip` | birr-track-backend/src/transactions/export-link.service.ts:108-116 | Base64url without padding round-trips on every byte string. |
| `Base64Url.UrlEncodeInjective` | birr-track-backend/src/transactions/export-link.service.ts:108-111 | Different byte strings have different encodings. |
| `Base64Url.UrlEncodeAlphabet` | birr-track-backend/src/transactions/export-link.service.ts:108-111 | An encoding contains no `.`, `=`, `+` or `/`, so framing with `.` is safe. |
| `Base64Url.StandardFits` | birr-track-backend/src/transactions/export-link.service.ts:108-116 | The standard alphabet reads its letters back and uses none of `=`, `-`, `_` and `.`, which is all that the results here and in ExportLink ask of an alphabet. |
| `Base64Url.StandardIsTheTable` | birr-track-backend/src/transactions/export-link.service.ts:108-116 | The standard alphabet is that of RFC 4648, Table 1. |
| `Base64Url.GroupIsOneNumber` | birr-track-backend/src/transactions/export-link.service.ts:108-111 | Three bytes and their four sextets are one number, to base 256 and to base 64. |
| `ExportLink.IssuedTokenSplits` | birr-track-backend/src/transactions/export-link.service.ts:44-62 | An issued token splits back into its payload and its signature and nothing else. |
| `ExportLink.IssuedTokenVerifiesInWindow` | birr-track-backend/src/transactions/export-link.service.ts:26-90 | A token issued at `t` verifies to the same query and identity if and only if the role may export and `t <= now <= t + 120`. |
| `ExportLink.AcceptedTokens` | birr-track-backend/src/transactions/export-link.service.ts:55-100 | A text verifies to a grant if and only if it is a payload of version 1 within its 120 seconds for a bearer who may export, a dot, the keyed hash of the context and that payload, and a suffix that the destructuring does not notice; the grant is that payload's query and bearer. |
| `ExportLink.OneSignatureOneHash` | birr-track-backend/src/transactions/export-link.service.ts:92-100 | Two payloads accepted under one signature have the same keyed hash. |
| `ExportLink.IssuedSignatureFitsOnePayload` | birr-track-backend/src/transactions/export-link.service.ts:26-100 | Behind the signature of an issued token only that token's payload is accepted, at whatever time, unless the keyed hash collides on the two payloads. |
| `ExportLink.RefusalsAreExact` | birr-track-backend/src/transactions/export-link.service.ts:72-82 | Which refusal a signed payload gets. |
| `ExportLink.InvalidExactlyIf` | birr-track-backend/src/transactions/export-link.service.ts:55-70 | A token is missing if and only if it is absent or empty, and invalid if and only if it is no signed payload. |
| `ExportLink.TrailingDotIsIgnored` | birr-track-backend/src/transactions/export-link.service.ts:58-62 | Tokens are not unique: a dot behind a two-part token changes nothing. |
| `ExportCodec.FaithfulCodecsExist` | birr-track-backend/src/transactions/export-link.service.ts:26-116 | A codec with the standard alphabet whose payloads all read back exists, as the results about issued tokens ask for one. |
| `ClientSession.AuthSession.Refresh` | birr-track-miniapp/src/api/http/session.ts:55-82 | Joins the request in flight, logs in without a session, or sends one refresh. |
| `ClientSession.AuthSession.Settle` | birr-track-miniapp/src/api/http/session.ts:55-135 | Success installs the response, a refused refresh clears the session, and the request slot is free again. |
| `ClientSession.AuthSession.ScheduleHeartbeat` | birr-track-miniapp/src/api/http/session.ts:157-169 | The old timer goes and the new one is due after the computed delay, unless the client is hidden or signed out. |
| `ClientSession.AuthSession.ChangeVisibility` | birr-track-miniapp/src/api/http/session.ts:144-155 | Hiding cancels the heartbeat and showing schedules it anew. |
| `ClientSession.AuthSession.Logout` | birr-track-miniapp/src/api/http/session.ts:84-94 | Clears the session first and then tells the server, if there was one. |
| `ClientSession.RunKeepsInv` | birr-track-miniapp/src/api/http/session.ts:26-169 | In every run the token is that of the response held, and at most one timer and one request are pending, the ones that the fields name. |
| `ClientSession.OneRequestAtATime` | birr-track-miniapp/src/api/http/session.ts:55-82 | However calls overlap, at most one exchange or refresh awaits its answer. |
| `ClientSession.StepsSendAndLeaveExactly` | birr-track-miniapp/src/api/http/session.ts:26-169 | Every step sends exactly the request, with the session's id and refresh token, and leaves exactly the session that its rule says. |
| `ClientSession.HeartbeatLastsExactlyIf` | birr-track-miniapp/src/api/http/session.ts:137-169 | For every run: a visible signed-in client always has a timer or a request under way if and only if no request ends unanswered while no timer is pending. |
| `ClientSession.HeartbeatNeverDropsSilently` | birr-track-miniapp/src/api/http/session.ts:137-169 | In such runs a visible signed-in client without a request under way has exactly one timer. |
| `ClientSession.UnansweredHeartbeatIsTheLast` | birr-track-miniapp/src/api/http/session.ts:157-169 | A run in which a fired heartbeat gets no answer and a visible signed-in client is left with nothing to come. |
| `ClientSession.LogoutLastsExactlyIf` | birr-track-miniapp/src/api/http/session.ts:84-103 | Logging out lasts, against every continuation that asks for no token, exactly if no exchange or refresh was in flight. |
| `Heartbeat.StaysAdmittedExactlyIf` | birr-track-miniapp/src/api/http/session.ts:157-169 | A visible client on time, with any extra refreshes, has an unexpired token and an active session at every millisecond before the absolute expiry if and only if the idle lifetime is over 30 s or covers the whole session, and the access lifetime is at least 30 s or covers the whole session. |
| `Heartbeat.HeartbeatsAreFew` | birr-track-miniapp/src/api/http/session.ts:157-169 | Under any lifetimes at most `ceil(maxTtl / 30)` heartbeats fire for one session. |
| `Heartbeat.NextBeatIsAheadOfBothExpiries` | birr-track-miniapp/src/api/http/session.ts:157-169 | At every millisecond the pending heartbeat is due 300 s before the idle expiry or 60 s before the token's, whichever comes first, but not within 30 s of the last answer. |
| `Heartbeat.LogoutEndsTheSession` | birr-track-backend/src/auth/auth.service.ts:236-238 | At every millisecond a logout posts the client's own session, which the server then ends, and no other. |
| `Heartbeat.SessionEndsExactlyAtItsExpiry` | birr-track-backend/src/auth/admin-panel-session.service.ts:94-136 | Under such lifetimes the heartbeating client's session is active exactly until its absolute expiry. |
| `Heartbeat.TicksKeepOk` | birr-track-backend/src/auth/auth.service.ts:203-233 | Every millisecond of the closed loop keeps record, response and timer in step, or the session is over and the client holds nothing. |

## Left out

- Telegram, object storage, text extraction, Postgres and Redis clients: only their effect as maps, sets, expiries, a unique index and answers that may fail is modelled.
- HMAC, SHA-256, random ids and JSON: a MAC function, a digest, fresh ids and a faithful codec are parameters; UTF-8 is inside the codec.
- Redis failure paths: `revoke` swallowing errors.
- RateLimit.RateLimitService.Consume: takes INCR with EXPIRE NX as one step, and the runs of arrivals there and in `ReceiptIntake` are those in which neither fails.
- Crashes between steps, apart from job attempts that throw at any step; stalled-job recovery and backoff delays of the queue.
- Legacy jobs without a captured membership, which `processImageJob` resolves on delivery or drops (birr-track-backend/src/processing/processing.service.ts:47-61): every modelled job carries its membership.
- The download retries and redirects inside one attempt: an attempt reads the image or does not.
- AdminPanelSessions (expiries): lifetimes are whole seconds. A key's own lifetime counts from the millisecond of the call, so Redis may keep a key for less than a second past its idle expiry; it is inactive then.
- AdminPanelSessions: SADD with EXPIRE, and SMEMBERS with its pipeline, are one step there; `LoginProtocol` splits them.
- LoginProtocol: the platform owner's sessions, which have no row to agree with.
- StaleEdits: `joinBusiness` reads and saves a row without a lock too, and is one step there.
- SessionsAtRest.GuardNeedsOnlyTheKey: leaves out the token's own expiry, which `Heartbeat` models, and the guard's comparison of Telegram ids, which a row never changes.
- The guard's JWT parsing, its public routes and its signature check.
- Tenancy: a service call runs as one step, except the identities and Business statuses read before it and the decisions on a Business, which are split into read and save; `StaleEdits` splits the edits of a row that take no lock as well. The later save of an already Owner registrant is part of the approval's save.
- Registrations: stored display and business names, languages, notifications and the platform owner's own entry state.
- Membership: a Telegram id is its text, although the column is a number, so two texts of one number would count as two ids.
- Tenancy: rejection reasons, which no status depends on; the class `MembershipDatabase` has them.
- The conversation's `inviting` flag and chosen role between two messages; the role check of the last message is modelled.
- Fresh row ids are assumed of the database.
- Transactions: amounts are integer cents and timestamps instants; `toFixed` rounding and unparsable dates are not modelled.
- EditLog: instants and confidences are text through a faithful codec, and a confidence is a code for the stored double; `editedByUploader`, which the code never sets, and `status`, which an update never changes, do not appear in the log.
- TransactionsService: the filters of lists, summaries, the Excel export and image streaming, which read only; the scope of a single row is modelled.
- EditLog: an amount has at most two decimals, so `String` and `toFixed` never round.
- ReceiptIntake: choosing the largest photo size and the texts of the replies; a chat message that fails to send; a window length of zero in the interval bound, where Redis drops the key at once.
- TrustedHtml: numbers as values, and placeholder keys that JavaScript objects inherit, such as `constructor`, count as missing here.
- Base64Url: bytes are four pairs of bits, so no arithmetic on them is modelled; alphabets are parameters.
- Base64Url.DecodeEncode: decoding of text that no encoder writes, which Node reads leniently, counts as a failure here; the MAC check keeps it from mattering to `verify`.
- ClientSession: an answer and the release of the request slot are one step; the transport's own retries after a 401 appear as extra refreshes.
- Heartbeat: one clock, timers on time and answers at once.
- Model training and inference, the rest of the Mini App, migrations and message catalogs.
