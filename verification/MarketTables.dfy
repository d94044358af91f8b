/** The rows behind the money path. Each map is a table; its key is the table's unique key.
    A row that a unique index allows once per parent is keyed by that parent: a reservation, an
    assignment, a check-in event, a dispute and a financial intent by their application, a funding
    snapshot by its campaign. A campaign's slots form a sequence in ordinal order, and so do an
    assignment's submission attempts. Times are milliseconds, amounts are minor units. */
module MarketTables {
  import opened Wrappers

  type Id = string

  datatype CampaignStatus = Draft | Submitted | Approved | Funded | Published | Canceled

  datatype Campaign = Campaign(businessId: Id, title: string, rewardPool: int, platformFee: int, totalDue: int,
                               currency: string, slotCount: int, status: CampaignStatus, version: int)

  datatype ReachLevel = Level1 | Level2 | Level3

  datatype ReachTier = ReachTier(platform: string, level: ReachLevel)

  datatype SlotKind = Community | Reach(tier: ReachTier)

  datatype SlotStatus = Available | Reserved | SlotAccepted | SlotCompleted | SlotNoPayout

  datatype Slot = Slot(publicId: Id, kind: SlotKind, reward: int, currency: string, status: SlotStatus, version: int)

  datatype SlotRef = SlotRef(campaignId: Id, position: nat)

  datatype ApplicationStatus = AppSubmitted | AppAccepted | AppWithdrawn | AppCompleted | AppNoPayout

  datatype Application = Application(campaignId: Id, creatorId: Id, status: ApplicationStatus, version: int)

  datatype ReservationStatus = ActiveReservation | ConvertedReservation | ReleasedReservation

  datatype Reservation = Reservation(slot: SlotRef, status: ReservationStatus)

  datatype AssignmentStatus = Scheduled | CheckedIn | MissionCompleted | MissionNoPayout

  datatype Assignment = Assignment(slot: SlotRef, creatorId: Id, locationId: Id, windowStart: int, windowEnd: int,
                                   status: AssignmentStatus, version: int)

  datatype ChallengeStatus = ChallengeActive | ChallengeConsumed | ChallengeExpired | ChallengeRevoked

  datatype Challenge = Challenge(applicationId: Id, token: string, status: ChallengeStatus, expiresAt: int)

  datatype SubmissionStatus =
    UnderReview | CorrectionRequested | ReviewApproved | AutoApproved | Disputed | ResolvedApproved | ResolvedNoPayout

  datatype Submission = Submission(status: SubmissionStatus, reviewDeadline: int, correctionDue: Option<int>, version: int)

  datatype DisputeStatus = DisputeOpen | ResolvedEarnedFull | ResolvedWithoutPayout

  datatype Dispute = Dispute(attempt: nat, openedBy: Id, status: DisputeStatus, version: int)

  datatype IntentAction = CreatorPayableFull | SlotRefundFull

  datatype IntentStatus = PendingLedger | Posted

  datatype Intent = Intent(publicId: Id, action: IntentAction, status: IntentStatus, version: int)

  // ----- ledger

  datatype FundingRequest = FundingRequest(campaignId: Id, fundedAt: int, fundingPublicId: Id, transactionPublicId: Id,
                                           provider: string, providerAccount: string, providerEventId: string,
                                           providerObjectId: string, referencePublicId: Id, transferGroup: string)

  datatype AdjustmentRequest = AdjustmentRequest(actorId: Id, amount: int, creditAccountId: string, currency: string,
                                                 debitAccountId: string, reason: string)

  /** The snapshot row, its provider reference and what it copies from the campaign. */
  datatype Snapshot = Snapshot(rewardPool: int, platformFee: int, totalDue: int, currency: string, funding: FundingRequest)

  datatype Allocation = Allocation(reward: int, platformFee: int, total: int, currency: string)

  datatype Account =
    | ProviderClearing(currency: string)
    | CampaignFunds(campaignId: Id, currency: string)
    | CreatorPayable(creatorId: Id, currency: string)
    | FeeRevenue(currency: string)
    | BusinessRefund(businessId: Id, currency: string)

  // The source type and the public id of the source; an intent is named by its application, one to one.
  datatype Source = ProviderFunding(eventId: string) | IntentSource(applicationId: Id) | AdjustmentSource(publicId: Id)

  // A journal keeps what was asked for instead of a hash of it.
  datatype JournalRequest =
    FundingAsked(funding: FundingRequest) | IntentAsked(applicationId: Id, action: IntentAction) | AdjustmentAsked(adjustment: AdjustmentRequest)

  datatype JournalType = CampaignFunding | SlotCompletion | SlotRefund | FinanceAdjustment

  datatype Journal = Journal(publicId: Id, kind: JournalType, total: int, currency: string, request: JournalRequest)

  datatype Direction = Debit | Credit

  datatype Entry = Entry(source: Source, account: Account, direction: Direction, amount: int, currency: string,
                         allocation: Option<SlotRef>)

  // ----- idempotency

  datatype Payload =
    | DraftPayload(actorId: Id, businessId: Id, publicId: Id, title: string, rewardPool: int, platformFee: int,
                   totalDue: int, currency: string, slotCount: int)
    | TransitionPayload(actorId: Id, campaignId: Id, expectedVersion: int, reason: Option<string>, toStatus: CampaignStatus)
    | ApplyPayload(campaignId: Id, creatorId: Id, publicId: Id)

  datatype Record = CampaignRecord(campaignId: Id, campaign: Campaign)
                  | ApplicationRecord(applicationId: Id, application: Application, slot: SlotRef)

  // A request keeps its payload instead of a hash of it.
  datatype Request = Request(payload: Payload, response: Option<Record>)

  datatype Tables = Tables(
    campaigns: map<Id, Campaign>,
    contracts: map<Id, seq<Slot>>,
    applications: map<Id, Application>,
    reservations: map<Id, Reservation>,
    assignments: map<Id, Assignment>,
    challenges: map<Id, Challenge>,
    checkIns: map<Id, Id>,
    submissions: map<Id, seq<Submission>>,
    disputes: map<Id, Dispute>,
    intents: map<Id, Intent>,
    snapshots: map<Id, Snapshot>,
    allocations: map<Id, seq<Allocation>>,
    accounts: map<string, Account>,
    journals: map<Source, Journal>,
    entries: seq<Entry>,
    requests: map<(string, string), Request>)

  const EMPTY_TABLES :=
    Tables(map[], map[], map[], map[], map[], map[], map[], map[], map[], map[], map[], map[], map[], map[], [], map[])

  /** The codes the stores report; ConstraintViolated is any database error they pass on unmapped. */
  datatype Error =
    | CampaignAccessDenied | CampaignVersionConflict | CampaignTransitionConflict | CampaignContractIncomplete
    | IdempotencyKeyReuse | NoCommittedResponse
    | ApplicationAccessDenied | CampaignNotAvailable | CreatorNotQualified | MissionCapacityFull
    | ApplicationAlreadyExists | ApplicationTransitionConflict
    | CheckInAccessDenied | MissionScheduleConflict | VenueStaffAccessDenied | CheckInChallengeInvalid
    | CheckInChallengeReplayed | CheckInChallengeExpired | CheckInWrongVenue | CheckInAlreadyRecorded | CheckInOutsideWindow
    | SubmissionAccessDenied | SubmissionCheckInRequired | SubmissionAlreadyExists | SubmissionTransitionConflict
    | SubmissionSecondCorrectionNotAllowed | SubmissionContractIncomplete | SubmissionAssetInvalid | SubmissionReviewExpired
    | SubmissionReviewNotDue | SubmissionNotFound
    | DisputeNotFound | DisputeEvidenceInvalid | DisputeAccessDenied | DisputeTransitionConflict
    | DisputeReviewExpired | DisputeAlreadyExists | DisputeReviewerConflict
    | LedgerTransitionConflict | LedgerAlreadyFunded | LedgerAllocationInvalid | LedgerProviderConflict
    | LedgerIntentNotFound | LedgerIntentNotReady | LedgerAdjustmentInvalid | LedgerAccessDenied
    | LedgerIdempotencyConflict | LedgerCurrencyMismatch
    | ConstraintViolated

  /** What one transaction does: it commits a value and new tables, or rolls back with an error. */
  datatype Step<+T> = Committed(value: T, tables: Tables) | RolledBack(error: Error)

  function TablesAfter<T>(before: Tables, step: Step<T>): Tables {
    if step.Committed? then step.tables else before
  }

  function Outcome<T>(step: Step<T>): Result<T, Error> {
    if step.Committed? then Success(step.value) else Failure(step.error)
  }

  /** The database that all the stores share. A transaction works on a copy of the tables and
      writes it back when it commits. */
  class Database {
    var tables: Tables

    constructor ()
      ensures tables == EMPTY_TABLES
    {
      tables := EMPTY_TABLES;
    }
  }

  // ----- SQL idioms

  predicate SlotExists(contracts: map<Id, seq<Slot>>, slot: SlotRef) {
    slot.campaignId in contracts && slot.position < |contracts[slot.campaignId]|
  }

  function SlotAt(contracts: map<Id, seq<Slot>>, slot: SlotRef): Slot
    requires SlotExists(contracts, slot)
  {
    contracts[slot.campaignId][slot.position]
  }

  predicate SlotIs(contracts: map<Id, seq<Slot>>, slot: SlotRef, status: SlotStatus) {
    SlotExists(contracts, slot) && SlotAt(contracts, slot).status == status
  }

  /** Updates the slot's row WHERE its status is `from`; otherwise it changes nothing. */
  function MoveSlot(contracts: map<Id, seq<Slot>>, slot: SlotRef, from: SlotStatus, to: SlotStatus): map<Id, seq<Slot>> {
    if SlotIs(contracts, slot, from) then
      var row := SlotAt(contracts, slot);
      contracts[slot.campaignId := contracts[slot.campaignId][slot.position := row.(status := to, version := row.version + 1)]]
    else contracts
  }

  /** Updates the application's reservation WHERE it is active; otherwise it changes nothing. */
  function MoveReservation(reservations: map<Id, Reservation>, applicationId: Id, to: ReservationStatus): map<Id, Reservation> {
    if applicationId in reservations && reservations[applicationId].status == ActiveReservation
    then reservations[applicationId := reservations[applicationId].(status := to)]
    else reservations
  }

  /** An update of a row that the transaction has already selected. */
  function MoveApplication(applications: map<Id, Application>, applicationId: Id, to: ApplicationStatus): map<Id, Application>
    requires applicationId in applications
  {
    var row := applications[applicationId];
    applications[applicationId := row.(status := to, version := row.version + 1)]
  }

  function MoveAssignment(assignments: map<Id, Assignment>, applicationId: Id, to: AssignmentStatus): map<Id, Assignment>
    requires applicationId in assignments
  {
    var row := assignments[applicationId];
    assignments[applicationId := row.(status := to, version := row.version + 1)]
  }

  predicate AttemptExists(submissions: map<Id, seq<Submission>>, applicationId: Id, attempt: nat) {
    applicationId in submissions && attempt < |submissions[applicationId]|
  }

  function MoveSubmission(submissions: map<Id, seq<Submission>>, applicationId: Id, attempt: nat, to: SubmissionStatus)
    : map<Id, seq<Submission>>
    requires AttemptExists(submissions, applicationId, attempt)
  {
    var row := submissions[applicationId][attempt];
    submissions[applicationId := submissions[applicationId][attempt := row.(status := to, version := row.version + 1)]]
  }

  // JavaScript's trim() leaves nothing.
  predicate NoText(s: string) {
    forall c <- s :: c in {' ', '\t', '\n', '\r', '\U{000B}', '\U{000C}', '\U{00A0}', '\U{1680}', '\U{202F}', '\U{205F}',
                           '\U{3000}', '\U{FEFF}', '\U{2028}', '\U{2029}'} || '\U{2000}' <= c <= '\U{200A}'
  }

  // SQL's btrim() leaves nothing.
  predicate Blank(s: string) {
    forall c <- s :: c == ' '
  }

  predicate IsCurrencyCode(s: string) {
    |s| == 3 && forall c <- s :: 'A' <= c <= 'Z'
  }
}
