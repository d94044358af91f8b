# Local Missions: a model of the marketplace and its proofs

Local Missions is a marketplace: businesses fund campaigns, creators apply for the mission slots of a campaign, check in
at the venue, submit their work and are paid from a double-entry ledger; customers claim and redeem Local Pass offers;
a notification outbox, locality verification and account recovery run beside it, and a mobile app signs people in.

This project models the transactional stores and the mobile and API logic with real invariants, and proves what every
run of them keeps. It has eight parts.

* **Market** (`FeeAllocation`, `Campaigns`, `Applications`, `CheckIns`, `Submissions`, `Disputes`, `Ledger` and the modules
  on top of them): the path of the money from a draft campaign to posted journals, as one state machine over sixteen
  tables. `Market` collects the steps of all stores; `MarketHistory`, `MarketTerms`, `MarketResults`, `MarketReplays` and
  `DisputeOutcomes` state what follows for every run; `SampleMission` is a run from empty tables that `StrandedDispute`,
  `BlockedIntent` and, from another campaign, `UnfundableCampaign` lead to states the program cannot leave.
* **Local Pass** (`PassTables`, `PassChallenges`, `PassClaims`, `LocalPass`, `LocalPassResults`, `LocalPassHistory`,
  `LocalPassRetention`): offers, one-time-code challenges, claims, rotating tokens, redemptions.
* **Outbox** (`Outbox`, `OutboxRuns`): leases, failures with backoff, dead letters and replays, under any clock.
* **Locality** (`Locality`, `LocalityRuns`, `LocalityResults`): verifications, the profile that caches them, and the queue
  that deletes their evidence.
* **Accounts** (`Accounts`, `AccountRuns`): sessions, identities, recent-authentication grants, recovery holds.
* **Sign-in** (`OidcStore`, `OidcClient`, `OidcSignIn`, `Base64Url`): the promise chain of the transaction store, requests,
  callbacks, and all of them interleaved.
* **Mobile session** (`AuthSession`, `SessionData`, `SessionExchange`, `SessionResults`): what a sign-in builds, selections,
  storage.
* **Paging** (`Paging`): the keyset listing of mission templates and its cursors.

## How the model is built

Every public store method runs in one transaction, so it is one atomic step. Each has a specification function
(`...Step`) from tables and a request to a commit with new tables or a rollback with an error, and a class method with the
same branches in the same order whose postcondition equates its result and the new tables with that function. A state
machine then has an operation per method, `Run` over a sequence of operations, and theorems about every reachable state.
Requests may be anything, so a run is any interleaving of any callers.

Unique indexes and CHECK constraints of the schema (`packages/db/drizzle`) are guards of the writes they govern
(`ConstraintViolated`); where the steps imply them, a lemma shows that they never fire.

Assumptions:

* `totalDue` is the reward pool plus the platform fee (`packages/contracts/src/index.ts:166-173` and the CHECK on
  campaigns); the stores do not compare them again.
* Integers are unbounded; the database would refuse a value that does not fit its column. Money is in cents.
* A row is known by its database id or by the public id or secret that a unique index protects. Hashes are injective, so
  a secret stands for its hash. Tokens, ids and the clock are inputs of the step; lock tokens are numbered as minted.
* What a step asks of other parts (is the actor staff, is the campaign published, is the evidence complete) is a boolean
  of its request and may be anything. Rows that another transaction holds locked are a set in the request.
* The schema is the one after all migrations, so branches that probe for missing columns or tables take the new side.
* The runtime's readers are parameters of the cursor reading (`Paging.Reader`). Asked of them (`Faithful`; that it can be had is
  `FaithfulReaderExists`): the base64url reader takes the letters of both alphabets, stops at the first equals sign and passes
  over the other ASCII characters; the JSON reader reads back what the JSON writer wrote, and does not read such a text cut
  short. Key order, spacing and unknown keys are whatever the runtime makes of them.
* Twelve months are a length that each request brings along, at least 360 days.
* Triggers that only refuse a change when the clock went back are not modelled: they remove steps, never add one.

## What was found

* A slot whose share of the fee rounds to nothing makes the whole funding fail at the CHECK on allocation rows, although
  the apportionment itself succeeds. An approved campaign can be funded exactly when its fee is the rounded 15% of the pool
  and every slot below seven cents has fewer slots ahead of it, by remainder and then by ordinal, than rounding down leaves
  cents over (`ApprovedCampaignIsFundableExactlyWhen`). Slots of 1 and 99 cents are such a campaign: a run from empty tables
  approves it, and nothing that happens afterwards lets any funding pass (`ApprovedCampaignCanBeUnfundable`,
  `UnfundableForEver`).
* A dispute can become impossible to resolve: a creator disputes one attempt while a later attempt is under review, the
  later one is approved, the mission completes, and the open dispute waits for a checked-in mission for ever
  (`OpenedDisputeStaysResolvableExactlyWhen`, `DisputeCanBeStranded`, `StrandedForEver`).
* The queue that deletes locality evidence can stop. Claiming a job counts as an attempt, also when a lapsed lease is
  reclaimed, and the table refuses more attempts than the maximum. A job whose last lease lapses is therefore never
  deleted, dead-lettered or reported, and while it is first in line every claim fails (`StuckForEver`,
  `ClaimFailsExactlyWhenNextIsStuck`, `DeletionCanGetStuck`).
* The notification outbox has no such bound; there attempts pass the maximum by at most the number of lapsed leases
  (`AttemptsStayWithinMaximumPlusLapses`, `LapsesCanExceedTheMaximum`).
* A sign-in transaction saved while a consumer is between its load and its clear is lost: a save is sure to be kept exactly
  when no consumer is past its load of a transaction that it will take (`SaveIsKeptExactlyWhen`, `ClearLosesExactlyWhen`,
  `SaveCanBeLost`); the mutual exclusion covers consumers only.
* An appeal in time is refused by the index of active reviews exactly while another submission of the creator is under
  review, with an error that the program does not name; the refusal lifts the moment that review ends
  (`TimelyAppealFailsExactlyWhen`, `RefusalLiftsExactlyWhenReviewEnds`, `TimelyAppealCanBeRefused`).
* The sign-in by itself accepts a workspace whose role is any role of the account, the device store only business roles
  (`SessionSurvivesExactlyWhen`, `SessionCanBeForgotten`). The app's one adapter turns every workspace role into a business
  role, so no session that went through it is lost (`ProjectedSessionSurvives`); the check of the sign-in is only weaker than
  the one it has to agree with.
* A cursor whose version does not fit the query's integer is never handed out, but passes both schemas, and the endpoint then
  answers as if the database were unavailable (`EndpointTakesCursorExactlyWhen`).
* A pending financial intent fails to post exactly when some other journal already carries the public id built for it, and
  then it never posts. The funding of the same campaign may have taken that id, because a funding brings its own
  (`PendingIntentPostsExactlyWhen`, `IntentCanBeBlocked`, `BlockedForEver`).

## Model

| member | source | states |
|---|---|---|
| FeeAllocation.AllocationFailsOnlyOnUndisclosedFee | packages/db/src/ledger-store.ts:157-187 | with nonnegative rewards the allocation succeeds exactly for the disclosed fee; its second guard never fires |
| FeeAllocation.FeesSumToThePlatformFee | packages/db/src/ledger-store.ts:172-193 | the fees of all slots add up to the platform fee |
| FeeAllocation.EachFeeIsFloorOrCeiling | packages/db/src/ledger-store.ts:180-193 | every slot keeps its place and pays 15% of its reward rounded down or up |
| FeeAllocation.LargerRewardPaysNoLess | packages/db/src/ledger-store.ts:172-193 | a larger reward never pays a smaller fee |
| FeeAllocation.OrderOfSlotsDoesNotMatter | packages/db/src/ledger-store.ts:172-193 | with distinct ordinals each slot's fee is the same whatever order the slots are listed in |
| FeeAllocation.AllocationIsOptimal | packages/db/src/ledger-store.ts:157-194 | no other integer fees with the same total come closer, in sum, to 15% of every reward |
| FeeAllocation.FeesArePositiveExactlyWhen | packages/db/src/ledger-store.ts:172-193 | all fees are positive exactly when each slot below seven cents has fewer slots ahead of it, by remainder and ordinal, than rounding down leaves cents over |
| FeeAllocation.SmallSlotPaysNothing | packages/db/src/ledger-store.ts:157-194 | a slot of one cent beside one of ten dollars gets a fee of zero |
| Campaigns.CampaignStore.CreateDraftCampaign | packages/db/src/campaign-store.ts:98-156 | the draft step: a repeated key answers with its record or is refused, otherwise one draft is added |
| Campaigns.CampaignStore.TransitionCampaign | packages/db/src/campaign-store.ts:158-257 | the transition step over the table of allowed changes, with the contract demanded before submission |
| Applications.MissionApplicationStore.ConfigureCampaignContract | packages/db/src/mission-application-store.ts:102-325 | the contract step: slots are inserted once for a draft, in ordinal order, if they meet the campaign's terms |
| Applications.InsertSlots | packages/db/src/mission-application-store.ts:224-307 | the loop over the slot inserts either makes every row or, at the first id already in use, none |
| Applications.MissionApplicationStore.Apply | packages/db/src/mission-application-store.ts:327-627 | an application reserves the first open slot of its type, inserts a reservation and itself, or changes nothing |
| Applications.MissionApplicationStore.AcceptApplication | packages/db/src/mission-application-store.ts:667-720 | accepting moves application, reservation and slot together |
| Applications.MissionApplicationStore.WithdrawApplication | packages/db/src/mission-application-store.ts:722-769 | withdrawing releases reservation and slot with the application |
| CheckIns.CheckInStore.ScheduleAcceptedApplication | packages/db/src/check-in-store.ts:132-249 | scheduling inserts the one assignment of an accepted application |
| CheckIns.CheckInStore.IssueChallenge | packages/db/src/check-in-store.ts:318-439 | issuing a check-in challenge revokes the active ones of the mission first |
| CheckIns.CheckInStore.ConsumeChallenge | packages/db/src/check-in-store.ts:441-603 | consuming a challenge spends it, records the check-in and moves the assignment to checked in |
| Submissions.SubmissionStore.SubmitComplete | packages/db/src/submission-store.ts:436-605 | a complete submission adds the next attempt of a checked-in mission |
| Submissions.SubmissionStore.ReviewSubmission | packages/db/src/submission-store.ts:607-738 | a decision corrects the attempt, or approves it and ends the mission |
| Submissions.SubmissionStore.AutoApproveSubmission | packages/db/src/submission-store.ts:740-873 | an attempt past its deadline is approved and the mission ended |
| Submissions.SubmissionStore.FinalizeApproval | packages/db/src/submission-store.ts:1092-1219 | completing a mission moves four rows and inserts its one pending intent |
| Disputes.DisputeStore.OpenDispute | packages/db/src/dispute-store.ts:133-288 | opening a dispute for business or creator, with the attempt's status it needs |
| Disputes.DisputeStore.ResolveDispute | packages/db/src/dispute-store.ts:290-408 | resolving a dispute ends the mission as completed or without payout and inserts its intent |
| Ledger.LedgerStore.RecordCampaignFunding | packages/db/src/ledger-store.ts:206-442 | the funding step: replay, slot reconciliation, snapshot, allocations, accounts, balanced journal, status |
| Ledger.InsertAllocations | packages/db/src/ledger-store.ts:328-344 | the loop over allocation rows inserts all of them, or none when one breaks the table's CHECK |
| Ledger.LedgerStore.ConsumeFinancialActionIntent | packages/db/src/ledger-store.ts:444-638 | the posting step: replay, readiness, draining the funds account to creator and platform or back to the business |
| Ledger.LedgerStore.PostFinanceAdjustment | packages/db/src/ledger-store.ts:640-755 | the adjustment step: a balanced pair of entries under its own idempotency key |
| LedgerAccounts.AccountIdIsInjective | packages/db/src/ledger-store.ts:796-836 | different account scopes never build the same account id |
| LedgerAccounts.EnsuringNeverConflicts | packages/db/src/ledger-store.ts:796-836 | in keyed accounts, ensuring an account finds or creates it and never meets a conflicting row |
| Market.RunKeepsInvariant | packages/db/src/ledger-store.ts:206-755 | the joint invariant of all marketplace tables survives every run of the seventeen operations |
| MarketHistory.RunExtends | packages/db/src/ledger-store.ts:850-929 | no run removes a campaign, removes or rewrites a request, journal, entry or funding snapshot, or changes an intent other than by posting it once |
| MarketTerms.RunKeepsTerms | packages/db/src/ledger-store.ts:264-344 | from any reachable state on, no run touches a slot allocation, and campaigns, slots, applications, reservations and assignments keep all but status and version |
| CampaignContracts.ConfiguredSlotsFollowOrdinals | packages/db/src/mission-application-store.ts:224-307 | in whatever order slots are sent, each is stored at the position its ordinal names |
| MarketResults.SlotsAndHoldersInLockstep | packages/db/src/mission-application-store.ts:398-424 | in every reachable state a slot is available exactly when nobody holds it and otherwise has one holder with matching statuses, to whom a mission assigned to it belongs |
| MarketResults.LeavingHitsEveryRow | packages/db/src/mission-application-store.ts:686-751 | the unchecked updates on accept and withdraw hit exactly the application, its reservation and its slot, and no other row changes |
| MissionLockstep.UncheckedUpdatesHitTheirRow | packages/db/src/mission-application-store.ts:686-696 | a submitted application's reservation is active and its slot reserved, as the unchecked updates ask, and nobody else holds the slot |
| MarketResults.LiveSlotIndexNeverFires | packages/db/src/mission-application-store.ts:398-424 | a slot found open is not reserved by anyone, so the reservation index never fires |
| MarketResults.AssignmentSlotIndexNeverFires | packages/db/src/check-in-store.ts:236-245 | an accepted, unscheduled application never meets an assignment of its slot |
| MarketResults.CheckInIndexesNeverFire | packages/db/src/check-in-store.ts:500-548 | a live challenge of a scheduled mission never meets the unique indexes of check-in events |
| MarketResults.SubmittedCampaignsReconcile | packages/db/src/campaign-store.ts:311-355 | at or past submission a campaign has its slot count of slots, adding up to its pool, at least four fifths Community |
| MarketResults.FundingIsUnallocatableExactlyWhen | packages/db/src/ledger-store.ts:264-344 | a first funding of an approved campaign is unallocatable exactly when its fee is not the rounded 15% |
| MarketResults.ApprovedCampaignIsFundableExactlyWhen | packages/db/src/ledger-store.ts:206-442 | some funding of an approved campaign commits exactly when its fee is the rounded 15% of the pool and every slot below seven cents ranks early enough for a left-over cent |
| UnfundableCampaign.UnfundableForEver | packages/db/src/ledger-store.ts:264-344 | an approved campaign whose fee does not reach every slot is not funded by anything that can happen later |
| UnfundableCampaign.ApprovedCampaignCanBeUnfundable | packages/db/drizzle/0006_dapper_mordo.sql:129 | a run from empty tables approves such a campaign, with the disclosed fee and a successful apportionment |
| MarketResults.FundsAreWhatIsNotYetPosted | packages/db/src/ledger-store.ts:519-554 | a funded campaign's balance is its unposted allocations plus adjustments, and without adjustments never negative |
| MarketResults.EachSlotIsDebitedAtMostOnce | packages/db/src/ledger-store.ts:544-608 | each slot allocation is debited once when its intent is posted and never before |
| MarketResults.WhatLeftTheFundsIsPaidOut | packages/db/src/ledger-store.ts:556-608 | what left the funds equals creator payables, fee revenue and refunds, each to the cent |
| MarketResults.FullyPostedCampaignIsPaidOut | packages/db/src/ledger-store.ts:444-638 | when every slot is posted, total due equals creator payables plus fee revenue plus refunds |
| MarketResults.CommitTriggersNeverFire | packages/db/drizzle/0006_dapper_mordo.sql:238-360 | every journal has at least two entries, in its one currency, that add up to its total on both sides, and every snapshot reconciles with its allocations, each with its slot's reward and currency: what both commit triggers ask |
| MarketResults.PendingIntentPostsExactlyWhen | packages/db/src/ledger-store.ts:490-622 | a pending intent posts exactly when no journal has taken the public id built for it |
| BlockedIntent.BlockedForEver | packages/db/src/ledger-store.ts:490-622 | an intent whose journal id is taken stays pending and is refused after every run |
| BlockedIntent.IntentCanBeBlocked | packages/db/src/ledger-store.ts:346-395 | a run from empty tables whose own funding takes the id of a creator's later payout |
| MarketResults.PostedIntentKeepsItsJournal | packages/db/src/ledger-store.ts:475-489 | a posted intent always finds its one journal and changes nothing; the missing-journal branch is unreachable |
| MarketResults.ConsumedIntentReplays | packages/db/src/ledger-store.ts:475-489 | after any run, consuming an intent again returns the same journal |
| MarketReplays.CreateDraftReplays | packages/db/src/campaign-store.ts:385-436 | after any run, a repeated draft request returns the original record, and another payload under its key is refused |
| MarketReplays.TransitionReplays | packages/db/src/campaign-store.ts:385-436 | the same for campaign transitions, also for campaigns drafted later |
| MarketReplays.ApplyReplays | packages/db/src/mission-application-store.ts:629-665 | the same for applications |
| MarketReplays.FundReplays | packages/db/src/ledger-store.ts:245-255 | the same for fundings of a campaign |
| MarketReplays.AdjustReplays | packages/db/src/ledger-store.ts:640-755 | the same for finance adjustments |
| DisputeOutcomes.OpenDisputeIsResolvableExactlyWhen | packages/db/src/dispute-store.ts:290-408 | some resolution of an open dispute commits exactly while its mission is checked in |
| DisputeOutcomes.OpenedDisputeStaysResolvableExactlyWhen | packages/db/src/dispute-store.ts:133-288 | some resolution of a newly opened dispute commits after every run, while it is open, exactly when the mission is checked in and no other attempt is under review |
| DisputeOutcomes.SettledStaysSettled | packages/db/src/dispute-store.ts:680-755 | once no other attempt is under review, none comes under review while the dispute is open |
| DisputeOutcomes.StrandedForEver | packages/db/src/dispute-store.ts:708-755 | a dispute whose mission has ended stays open and unresolvable over every run |
| StrandedDispute.DisputeCanBeStranded | packages/db/src/dispute-store.ts:454-506 | a full run from empty tables that opens a dispute and strands it |
| PassChallenges.ChallengeDesk.IssueCustomerChallenge | packages/db/src/local-pass-store.ts:487-630 | the issue step: target, limits, superseding and insert |
| PassChallenges.ChallengeDesk.VerifyCustomerChallenge | packages/db/src/local-pass-store.ts:632-708 | the verify step: its writes stay even when it answers with an error |
| PassChallenges.IssueKeepsChallenges | packages/db/src/local-pass-store.ts:550-619 | an issue keeps the limits although rows may commit out of order of their times |
| PassClaims.LocalPassStore.ClaimPass | packages/db/src/local-pass-store.ts:710-850 | claiming consumes the challenge, commits inventory and issues the first token |
| PassClaims.LocalPassStore.RecoverActivePass | packages/db/src/local-pass-store.ts:852-920 | recovering revokes the active token and issues the next rotation |
| PassClaims.LocalPassStore.RedeemPass | packages/db/src/local-pass-store.ts:922-1127 | redeeming consumes the token, ends the claim, counts it once and dates its contacts |
| PassClaims.LocalPassStore.ExpireClaim | packages/db/src/local-pass-store.ts:1129-1189 | expiring ends the claim and its token, gives the inventory back and dates its contacts |
| PassClaims.LocalPassStore.ChangeOfferStatus | packages/db/src/local-pass-store.ts:1601-1650 | an offer is activated or paused only from the status before |
| PassClaims.LocalPassStore.PurgeDueCustomerData | packages/db/src/local-pass-store.ts:1479-1513 | purging forgets the contacts of exactly the challenges and the customers of exactly the claims that are past their dates |
| LocalPassResults.InventoryCountsClaims | packages/db/src/local-pass-store.ts:763-811 | committed is active plus redeemed claims, redeemed is redeemed claims, and neither passes the total |
| LocalPassResults.InventoryConstraintNeverFires | packages/db/src/local-pass-store.ts:1062-1163 | redeeming or expiring an active claim never breaks the inventory CHECK |
| LocalPassResults.ActiveClaimHasOneToken | packages/db/src/local-pass-store.ts:888-906 | an active claim has exactly one active token, its highest rotation, and the next rotation is free |
| LocalPass.ReturnedRotationIsHighest | packages/db/src/local-pass-store.ts:888-906 | the update of active tokens returns a row, so the fallback to rotation zero is never taken |
| LocalPassResults.RedeemedOnce | packages/db/src/local-pass-store.ts:951-1089 | after a redemption the claim stays redeemed and its token consumed, and no later redemption of it succeeds, over every run |
| LocalPassResults.RedemptionsLieInsideWindows | packages/db/src/local-pass-store.ts:951-983 | redemptions end inside claim and offer windows, and with a clock that never goes back also start inside |
| LocalPassResults.ChallengesAreLimited | packages/db/src/local-pass-store.ts:547-619 | of the rows that still carry their contacts, at most three in any fifteen minutes for each destination and risk token, sixty seconds apart; at most three for each link, one live per target and five tries each, whatever the clocks did |
| LocalPassHistory.EverythingIssuedIsLimited | packages/db/src/local-pass-store.ts:547-619 | the same limits over everything ever issued, purged since or not, unless an issue reads a clock almost a year behind an earlier purge |
| LocalPassRetention.PurgeForgetsExactlyWhatIsDue | packages/db/src/local-pass-store.ts:1479-1513 | in every reachable state a purge leaves running claims alone, forgets an ended claim's customer exactly when its date has passed, and no contact of its challenges without its customer |
| LocalPassRetention.RedeemedCustomerIsKept | packages/db/src/local-pass-store.ts:1072-1084 | over every run the customer of a redemption stays known until a purge runs at least 360 days later |
| Outbox.NotificationStore.EnqueueEvent | packages/db/src/notification-store.ts:262-336 | an admissible event is enqueued once under its deduplication key |
| Outbox.NotificationStore.ClaimNext | packages/db/src/notification-store.ts:338-414 | a claim takes the first due message and leases it under a new token |
| Outbox.NotificationStore.InsertAttempts | packages/db/src/notification-store.ts:428-478 | the loop over channels appends one attempt each, or nothing when one exists |
| Outbox.NotificationStore.CompleteClaimLocally | packages/db/src/notification-store.ts:416-500 | completion needs the live lease and ends the message |
| Outbox.NotificationStore.RecordClaimFailure | packages/db/src/notification-store.ts:502-598 | failure reschedules with backoff or dead-letters |
| Outbox.NotificationStore.ReplayDeadLetter | packages/db/src/notification-store.ts:600-688 | an administrator puts a dead letter back with more attempts |
| Outbox.NextDue | packages/db/src/notification-store.ts:361-370 | the message chosen is due, not skipped and no later than any other such message |
| OutboxRuns.OneOutcomeEach | packages/db/src/notification-store.ts:428-575 | each message, attempt and channel has at most one outcome |
| OutboxRuns.AttemptIndexNeverFires | packages/db/src/notification-store.ts:540-575 | the holder of a lease never meets the unique index of attempts |
| OutboxRuns.HistoriesAreUnbroken | packages/db/src/notification-store.ts:810-840 | every history is a chain of allowed changes ending in the current status, version and count |
| OutboxRuns.StaleTokenChangesNothing | packages/db/src/notification-store.ts:752-790 | a token that is not the live lease changes nothing, whatever the clock says |
| OutboxRuns.LostTokenStaysLost | packages/db/src/notification-store.ts:355-403 | a token that lost its lease never gets it back over any run |
| OutboxRuns.CompletedIsFinal | packages/db/src/notification-store.ts:470-500 | a completed message never changes again |
| OutboxRuns.AttemptsStayWithinMaximumPlusLapses | packages/db/src/notification-store.ts:540-561 | attempts exceed the maximum by no more than the leases that lapsed |
| OutboxRuns.BudgetRunsOut | packages/db/src/notification-store.ts:540-561 | after any run without a lapse, without lapses and replays every write uses up a measure, and at zero the message is completed or dead |
| OutboxRuns.ReplayRestoresBudget | packages/db/src/notification-store.ts:651-658 | a replay leaves at least three attempts |
| OutboxRuns.LapsesCanExceedTheMaximum | packages/db/src/notification-store.ts:362-381 | crashing workers take a message past its maximum |
| Locality.LocalityProofStore.Submit | packages/db/src/locality-proof-store.ts:135-225 | a submission inserts a review unless one is active and clears a profile that is not current |
| Locality.LocalityProofStore.Review | packages/db/src/locality-proof-store.ts:286-368 | a decision writes the row, the profile and the deletion job |
| Locality.LocalityProofStore.SupersedePrior | packages/db/src/locality-proof-store.ts:1069-1106 | the walk over the rows invalidates every other verified row of the creator and no other row |
| Locality.LocalityProofStore.Appeal | packages/db/src/locality-proof-store.ts:370-428 | an appeal in time reopens a rejected row |
| Locality.LocalityProofStore.DecideAppeal | packages/db/src/locality-proof-store.ts:430-518 | another person decides the appeal, with the same effects as a review |
| Locality.LocalityProofStore.DeclareAddressChange | packages/db/src/locality-proof-store.ts:520-564 | the latest verified row is invalidated and the profile cleared |
| Locality.LocalityProofStore.ExpireDueCredentials | packages/db/src/locality-proof-store.ts:566-620 | the loop over one batch expires rows and the profiles that still show them |
| Locality.LocalityProofStore.ClaimNextDeletion | packages/db/src/locality-proof-store.ts:726-794 | a claim leases the first due deletion job without a legal hold, within the table's bound on attempts |
| Locality.LocalityProofStore.CompleteDeletionLocally | packages/db/src/locality-proof-store.ts:796-857 | completion under the live lease removes the evidence |
| Locality.LocalityProofStore.RecordDeletionFailure | packages/db/src/locality-proof-store.ts:859-936 | failure reschedules with backoff or dead-letters |
| LocalityRuns.ApprovingKeepsAgreement | packages/db/src/locality-proof-store.ts:333-340 | approving and superseding leave the creator one credential, which the profile shows |
| LocalityRuns.ExpiredProfiles | packages/db/src/locality-proof-store.ts:592-599 | the loop expires exactly the verified, lapsed profiles of the batch's creators |
| LocalityRuns.RunKeepsInvariant | packages/db/src/locality-proof-store.ts:135-1106 | profile agreement, one review each and sound jobs survive every run as time passes |
| LocalityResults.ProfileIsCurrentExactlyWhenCredentialIs | packages/db/src/locality-proof-store.ts:145-184 | at every moment a creator has at most one credential, and the profile is current exactly when it is unexpired, with its area and dates |
| LocalityResults.OneReviewAtATime | packages/db/drizzle/0013_brave_maddog.sql:176 | a creator has at most one verification under review |
| LocalityResults.TimelyAppealFailsExactlyWhen | packages/db/src/locality-proof-store.ts:376-410 | in every reachable state an appeal in time is refused exactly when another verification of the creator, and then just one, is under review |
| LocalityResults.RefusalLiftsExactlyWhenReviewEnds | packages/db/src/locality-proof-store.ts:376-410 | after any further step the appeal is refused exactly when that same review still runs |
| LocalityResults.TimelyAppealCanBeRefused | packages/db/src/locality-proof-store.ts:370-428 | a run in which a second submission blocks an appeal in time, which goes through once that submission is decided |
| LocalityResults.AttemptsStayWithinMaximum | packages/db/drizzle/0013_brave_maddog.sql:42-43 | no deletion job ever has more attempts than its maximum |
| LocalityResults.ClaimFailsExactlyWhenNextIsStuck | packages/db/src/locality-proof-store.ts:744-785 | after any run a claim fails exactly when the job it comes to has spent its attempts and lost its lease |
| LocalityResults.StuckForEver | packages/db/src/locality-proof-store.ts:744-785 | once a run has left a job like that with its evidence, no run ever touches it again and the evidence stays |
| LocalityResults.DeletionCanGetStuck | packages/db/src/locality-proof-store.ts:726-794 | five crashing workers bring a job there |
| Accounts.AccountLifecycleStore.CreateSession | packages/db/src/account-lifecycle-store.ts:56-83 | a session needs an active user without a hold and an active identity of theirs |
| Accounts.AccountLifecycleStore.CreateOrReuseSession | packages/db/src/account-lifecycle-store.ts:85-156 | a taken public id is reused only for the same user's live session of the same identity |
| Accounts.AccountLifecycleStore.ConsumeRecentAuth | packages/db/src/account-lifecycle-store.ts:545-571 | a grant is consumed once, unexpired, with its session live; the second look at the session cannot fail |
| Accounts.AccountLifecycleStore.LinkIdentity | packages/db/src/account-lifecycle-store.ts:225-286 | linking spends a grant and inserts a binding, or undoes both |
| Accounts.AccountLifecycleStore.UnlinkIdentity | packages/db/src/account-lifecycle-store.ts:288-359 | unlinking spends a grant, keeps another identity and revokes the sessions of the one removed |
| Accounts.AccountLifecycleStore.PlaceRecoveryHold | packages/db/src/account-lifecycle-store.ts:361-419 | a hold revokes every active session of its user |
| Accounts.AccountLifecycleStore.ReleaseRecoveryHold | packages/db/src/account-lifecycle-store.ts:421-466 | a hold is released by another staff member at the expected version |
| Accounts.AccountLifecycleStore.RequestAccountAction | packages/db/src/account-lifecycle-store.ts:468-543 | deletion spends a grant and marks the user; export needs only the session |
| AccountRuns.HeldUserIsOut | packages/db/src/account-lifecycle-store.ts:367-402 | while a hold is open its user has no active session and no grant can be consumed |
| AccountRuns.LaterChecksNeverFail | packages/db/src/account-lifecycle-store.ts:545-628 | once a grant is consumed the session is live and no hold is open |
| AccountRuns.HoldNeverRefusesHere | packages/db/src/account-lifecycle-store.ts:234-240 | linking, unlinking and deletion never fail at their own hold check |
| AccountRuns.SessionsUseLiveIdentities | packages/db/src/account-lifecycle-store.ts:336-345 | every active session belongs to an active identity of its user |
| AccountRuns.GrantIsSpentOnce | packages/db/src/account-lifecycle-store.ts:545-571 | along any run a grant serves at most one linking, unlinking or deletion |
| AccountRuns.AWayToSignInRemains | packages/db/src/account-lifecycle-store.ts:294-336 | an account with an active identity has one after every run |
| AccountRuns.BoundSubjectIsNeverBoundAgain | packages/db/drizzle/0001_empty_tyrannus.sql:96 | a provider subject once bound can never be bound again, even after it was unlinked |
| OidcStore.MemoryOidcTransactionStore.Consume | apps/mobile/lib/oidc-transaction-storage.ts:40-55 | a call joins the tail of the promise chain |
| OidcStore.MemoryOidcTransactionStore.TakeOrLeave | apps/mobile/lib/oidc-transaction-storage.ts:40-55 | a matching transaction is cleared and kept as the result, another is left |
| OidcStore.ConsumersTakeTurns | apps/mobile/lib/oidc-transaction-storage.ts:33-55 | at most one consumer is between its turn and its release, in the order of the calls |
| OidcStore.SavedTransactionIsReturnedOnce | apps/mobile/lib/oidc-transaction-storage.ts:33-72 | under any interleaving each saved transaction is returned by at most one consume |
| OidcStore.ReturnedAsAsked | apps/mobile/lib/oidc-transaction-storage.ts:40-55 | what a consume returns was saved under the state it asked for |
| OidcStore.NobodyIsStuck | apps/mobile/lib/oidc-transaction-storage.ts:40-55 | while a call is unfinished some call can move, also after failures |
| OidcStore.MovesRunOut | apps/mobile/lib/oidc-transaction-storage.ts:40-55 | no more moves than five a call can follow one another |
| OidcStore.EveryCallFinishes | apps/mobile/lib/oidc-transaction-storage.ts:40-55 | from every state the calls' own moves finish all of them |
| OidcStore.ClearLosesExactlyWhen | apps/mobile/lib/oidc-transaction-storage.ts:45-72 | a clear removes only what was loaded exactly when nothing was saved or cleared in between |
| OidcStore.SaveIsKeptExactlyWhen | apps/mobile/lib/oidc-transaction-storage.ts:45-72 | a save is kept until consumed, whatever the calls do, exactly when no call is past its load of a transaction it will take |
| OidcStore.SaveCanBeLost | apps/mobile/lib/oidc-transaction-storage.ts:45-72 | a run in which a saved transaction disappears unconsumed |
| Base64Url.ToBase64Url | apps/mobile/lib/oidc-client.ts:67-81 | the loop builds the base64url text of the bytes |
| Base64Url.DecodeUndoesEncode | apps/mobile/lib/oidc-client.ts:67-81 | a decoder recovers every byte string |
| Base64Url.EncodedLength | apps/mobile/lib/oidc-client.ts:67-81 | n bytes make the ceiling of 4n/3 letters |
| Base64Url.EncodedLetters | apps/mobile/lib/oidc-client.ts:67-81 | every letter is of the unreserved set |
| Base64Url.ShapeGuardNeverFires | apps/mobile/lib/oidc-client.ts:213-219 | 32 bytes always make 43 letters of the opaque shape |
| OidcClient.RequestIsNeverRefused | apps/mobile/lib/oidc-client.ts:199-235 | with 32 random bytes and a 32-byte digest the guard on a request never fires |
| OidcClient.RequestsAreToldApart | apps/mobile/lib/oidc-client.ts:207-230 | state, nonce and verifier repeat only when the random bytes do |
| OidcClient.CallbackCompletesItsRequest | apps/mobile/lib/oidc-client.ts:252-311 | a code returned in time completes its own request, and a second callback finds nothing |
| OidcClient.CodeNeedsItsTransaction | apps/mobile/lib/oidc-client.ts:288-311 | taken as one step, a callback gets a code only from a pending, unexpired transaction of its state, which is spent whatever the answer |
| OidcSignIn.TransactionCompletesOneSignIn | apps/mobile/lib/oidc-client.ts:252-311 | however sign-ins, callbacks and the store's steps interleave, each saved transaction completes at most one sign-in |
| OidcSignIn.SignInIsItsOwn | apps/mobile/lib/oidc-client.ts:288-311 | under any interleaving a completed callback carries the state of a saved, unexpired transaction and gets its nonce and verifier |
| SessionExchange.ConstantTimeEqual | apps/mobile/lib/oidc-session-exchange.ts:116-123 | the accumulator is zero exactly for equal texts, though every position is looked at |
| SessionExchange.CompleteOidcMobileSession | apps/mobile/lib/oidc-session-exchange.ts:278-339 | a sign-in saves and returns the session built from safe answers, or fails and saves nothing |
| SessionExchange.RefreshOidcMobileSession | apps/mobile/lib/oidc-session-exchange.ts:341-387 | a refresh does the same for the session it was given |
| AuthSession.NativeSecureSessionStorage.Load | apps/mobile/lib/auth-session-storage.ts:87-98 | loading returns an acceptable session and removes anything else |
| AuthSession.RestoreMobileSession | apps/mobile/lib/auth-session.ts:270-304 | restoring authenticates, or leaves nothing stored |
| SessionResults.ChangesKeepBuilt | apps/mobile/lib/auth-session.ts:213-244 | selections and refreshes keep everything a sign-in establishes |
| SessionResults.AcceptedExactlyWhenWorkspacesAreBusiness | apps/mobile/lib/auth-session-storage.ts:16-66 | such a session is accepted by the device store exactly when all its workspaces carry business roles |
| SessionResults.SessionSurvivesExactlyWhen | apps/mobile/lib/auth-session.ts:270-323 | for whatever answers come in, save, load and restore give the session back until it expires, and nothing exactly when its workspaces carry a role that is no business role |
| SessionResults.ProjectedSessionSurvives | apps/mobile/lib/session-data.ts:12-57 | with the answers that the app's adapter passes on, any session after any changes is accepted by the device and comes back until it expires |
| SessionResults.SessionCanBeForgotten | apps/mobile/lib/auth-session-storage.ts:16-66 | an answer, unlike any that the adapter passes on, with which a successful sign-in is gone at the next start |
| SessionResults.ApiContextExactlyWhen | apps/mobile/lib/auth-session.ts:155-183 | creator mode always yields an API context, business mode exactly with a selected workspace, and then that one |
| SessionResults.RefreshKeepsChoices | apps/mobile/lib/oidc-session-exchange.ts:184-216 | a refresh keeps mode and workspace while the account still has them |
| Paging.DecodeUndoesEncodeCursor | apps/api/src/database.service.ts:26-43 | the cursor text of a code and a version decodes to them, with any faithful reader |
| Paging.RankFollowsNames | apps/api/src/database.service.ts:75-80 | the order of the codes is the order of their names |
| Paging.NextQueryContinues | apps/api/src/database.service.ts:74-81 | the query after a returned row yields exactly the rows after it |
| Paging.PagesMakeTheTable | apps/api/src/database.service.ts:71-100 | following the cursors ends and yields the whole table in order, without gap or duplicate, every page but the last full |
| Paging.TextIsRefusedOrACursor | apps/api/src/database.service.ts:34-43 | a text is refused for every table and limit exactly when it is not answered like the cursor of any code and version |
| Paging.CursorIsAnswered | apps/api/src/database.service.ts:34-82 | a cursor is answered exactly while its version fits the query's integer |
| Paging.SpellingDoesNotMatter | apps/api/src/database.service.ts:34-37 | characters that the reader passes over, which no equals sign is, never change the answer of the listing wherever they stand |
| Paging.CutCursorIsRefused | apps/api/src/database.service.ts:34-43 | a cursor cut short anywhere is refused |
| Paging.PaddedCursorIsAnsweredExactlyWhenWhole | apps/api/src/database.service.ts:34-43 | a cursor followed by an equals sign and anything else is answered as itself; with an equals sign any earlier it is refused |
| Paging.CursorPassesTheSchema | packages/contracts/src/index.ts:14 | the text of every cursor has 8 to 512 letters of the set that the endpoint admits |
| Paging.EndpointAnswersItsCursors | apps/api/src/v1.controller.ts:48-58 | the endpoint answers every cursor it has handed out, whatever becomes of the table and the limit |
| Paging.EndpointTakesCursorExactlyWhen | apps/api/src/v1.controller.ts:48-58 | the endpoint answers the cursor of a code and a version exactly when the version fits the query's integer, and otherwise as an unavailable dependency |
| Paging.EndpointPagesMakeTheTable | apps/api/src/v1.controller.ts:48-58 | a client that follows the endpoint's cursors collects the whole table in order for every admissible limit |
| Paging.HandedOutCursorIsNeverRefused | apps/api/src/database.service.ts:34-100 | a cursor once handed out is answered whatever becomes of the table and the limit |
| Base64Url.LenientReaderUndoesEncode | apps/api/src/database.service.ts:26-37 | the lenient reader recovers every byte string from its encoded text |

## Left out

- Audit events, locality and account histories, display text and read-only reports: they add rows but no invariant.
- Public-id clashes of assignments, submissions, disputes, decisions, events, verifications, grants and holds, and clashes of
  the holds' case ids: these rows are numbered or keyed by their owner, and a clash would only roll a step back.
- Dispute evidence: the list of evidence references is folded into booleans of the request.
- Community and Reach applications are one `Apply` step with the slot type and the outcome of the qualification in the
  request; reach qualification, rights and media stores are not part of this model.
- Offers, links, reports of problems and their review in Local Pass are steps of the state machine given as functions only
  (`ConfigureOfferStep`, `IssueLinkStep`, `ReportStep`, `ReviewStep`, `CustomerStatusStep`), without a class method.
- LocalPassResults.ChallengesAreLimited: a purged row counts no more for its destination and risk token; over everything ever
  issued `LocalPassHistory.EverythingIssuedIsLimited` states the limits.
- The encrypted destination of a challenge and its own, shorter retention.
- SKIP LOCKED: the rows that other transactions hold are a set in the request; waiting for a lock is not modelled, because a
  transaction is one step.
- The attempts and alerts tables of the evidence deletion queue, and local-only switches beyond a boolean.
- The migration that seeds verified profiles, and sign-up through the tenant store: locality starts from unverified profiles,
  accounts from given users and identities.
- Completion of account requests: a request stays open, as in the account store.
- The secure variant of the transaction store: its JSON parsing and its own clearing of unreadable text.
- Paging.TextIsRefusedOrACursor: what the runtime's JSON reader makes of texts beyond what is asked of it, and its base64url
  reader of characters beyond ASCII, is left open.
- SessionExchange.ConstantTimeEqual: the time it takes is not modelled, only that it looks at every position.
- Failures of the device store other than its absence, and recent-authentication marks of the mobile state.
- Signatures, digests, tokens of the identity provider and URL parsing: foreign calls, inputs of the steps.
