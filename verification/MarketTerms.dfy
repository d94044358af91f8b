/** What no later step can change: the terms of campaigns, slots, allocations and missions. */
module MarketTerms {
  import opened MarketTables
  import opened Idempotency
  import opened Campaigns
  import opened Applications
  import opened CheckIns
  import opened Submissions
  import opened Disputes
  import opened Ledger
  import LedgerConservation
  import LedgerSteps
  import opened MissionLockstep
  import opened CampaignContracts
  import opened Market
  import opened MarketHistory

  /** The campaign is still there, on its terms. */
  ghost predicate CampaignTermsKept(before: map<Id, Campaign>, after: map<Id, Campaign>) {
    forall c :: c in before ==> c in after && SameTerms(after[c], before[c])
  }

  predicate SameSlot(x: Slot, y: Slot) {
    x == y.(status := x.status, version := x.version)
  }

  /** Every slot is still at its place, with its id, kind, reward and currency. */
  ghost predicate SlotTermsKept(before: map<Id, seq<Slot>>, after: map<Id, seq<Slot>>) {
    forall c :: c in before ==>
      c in after && |after[c]| == |before[c]| && forall i :: 0 <= i < |before[c]| ==> SameSlot(after[c][i], before[c][i])
  }

  /** An application stays its creator's for its campaign. */
  ghost predicate ApplicationTermsKept(before: map<Id, Application>, after: map<Id, Application>) {
    forall a :: a in before ==> a in after && after[a] == before[a].(status := after[a].status, version := after[a].version)
  }

  ghost predicate ReservedSlotsKept(before: map<Id, Reservation>, after: map<Id, Reservation>) {
    forall a :: a in before ==> a in after && after[a].slot == before[a].slot
  }

  /** An assignment keeps its slot, creator, venue and window. */
  ghost predicate AssignmentTermsKept(before: map<Id, Assignment>, after: map<Id, Assignment>) {
    forall a :: a in before ==> a in after && after[a] == before[a].(status := after[a].status, version := after[a].version)
  }

  ghost predicate TermsKept(before: Tables, after: Tables) {
    && CampaignTermsKept(before.campaigns, after.campaigns)
    && SlotTermsKept(before.contracts, after.contracts)
    && ApplicationTermsKept(before.applications, after.applications)
    && ReservedSlotsKept(before.reservations, after.reservations)
    && AssignmentTermsKept(before.assignments, after.assignments)
    && Kept(before.allocations, after.allocations)
  }

  // ----- one table at a time

  lemma SameSlots(contracts: map<Id, seq<Slot>>)
    ensures SlotTermsKept(contracts, contracts)
  {
  }

  lemma MovingSlotKeepsTerms(contracts: map<Id, seq<Slot>>, slot: SlotRef, from: SlotStatus, to: SlotStatus)
    ensures SlotTermsKept(contracts, MoveSlot(contracts, slot, from, to))
  {
  }

  /** Tables that differ only in rows without terms. */
  lemma OtherRowsKeepTerms(t: Tables, after: Tables)
    requires after.campaigns == t.campaigns && after.contracts == t.contracts && after.applications == t.applications
    requires after.reservations == t.reservations && after.assignments == t.assignments && after.allocations == t.allocations
    ensures TermsKept(t, after)
  {
  }

  // ----- one step

  lemma CreateDraftKeepsTerms(t: Tables, req: DraftRequest)
    ensures TermsKept(t, TablesAfter(t, CreateDraftStep(t, req)))
  {
    hide CampaignChecks;
  }

  lemma TransitionKeepsTerms(t: Tables, req: TransitionRequest)
    ensures TermsKept(t, TablesAfter(t, TransitionStep(t, req)))
  {
    hide TransitionStep;
    TransitionChangesStatus(t, req);
  }

  lemma ConfigureKeepsTerms(t: Tables, req: ConfigureRequest)
    ensures TermsKept(t, TablesAfter(t, ConfigureStep(t, req)))
  {
    hide SlotContract, SlotsInsert, Rows;
  }

  lemma NewApplicationKeepsTerms(t: Tables, a: Id, application: Application, reservation: Reservation)
    requires a !in t.applications && a !in t.reservations
    ensures TermsKept(t, t.(applications := t.applications[a := application], reservations := t.reservations[a := reservation]))
  {
  }

  lemma ApplyKeepsTerms(t: Tables, req: ApplyRequest)
    ensures TermsKept(t, TablesAfter(t, ApplyStep(t, req)))
  {
    hide MoveSlot, SlotTermsKept, ApplicationTermsKept, ReservedSlotsKept, HasApplied, SlotHeld, OpenSlot, Remember, EarlierResponse;
    OtherRowsKeepTerms(t, t);
    var step := ApplyStep(t, req);
    if step.Committed? && step.tables != t {
      MovingSlotKeepsTerms(t.contracts, SlotRef(req.campaignId, OpenSlot(t, req).value), Available, Reserved);
      NewApplicationKeepsTerms(t, req.publicId, step.tables.applications[req.publicId], step.tables.reservations[req.publicId]);
    }
  }

  lemma LeaveKeepsTerms(t: Tables, a: Id, to: ApplicationStatus, reservation: ReservationStatus, slot: SlotStatus)
    requires Joins(t, a)
    ensures TermsKept(t, TablesAfter(t, Leave(t, a, to, reservation, slot)))
  {
    SameSlots(t.contracts);
    MovingSlotKeepsTerms(t.contracts, t.reservations[a].slot, Reserved, slot);
    hide MoveSlot, SlotTermsKept;
  }

  lemma ScheduleKeepsTerms(t: Tables, req: ScheduleRequest)
    ensures TermsKept(t, TablesAfter(t, ScheduleStep(t, req)))
  {
    hide Schedulable, SlotScheduled, NoText;
    SameSlots(t.contracts);
    hide SlotTermsKept;
  }

  lemma ConsumeKeepsTerms(t: Tables, req: ConsumeRequest)
    ensures TermsKept(t, TablesAfter(t, ConsumeStep(t, req)))
  {
    SameSlots(t.contracts);
    hide SlotTermsKept;
  }

  lemma EndingKeepsTerms(t: Tables, a: Id, publicId: Id, action: IntentAction)
    requires ReadyToEnd(t, a)
    ensures TermsKept(t, EndMission(t, a, publicId, action))
  {
    var to := if action.CreatorPayableFull? then SlotCompleted else SlotNoPayout;
    MovingSlotKeepsTerms(t.contracts, t.assignments[a].slot, SlotAccepted, to);
    hide MoveSlot, SlotTermsKept;
  }

  lemma ApproveKeepsTerms(t: Tables, a: Id, attempt: nat, status: SubmissionStatus, decisionId: Id)
    requires AttemptExists(t.submissions, a, attempt)
    ensures TermsKept(t, TablesAfter(t, ApproveStep(t, a, attempt, status, decisionId)))
  {
    hide TermsKept, EndMission, MoveSubmission;
    OtherRowsKeepTerms(t, t);
    if ReadyToEnd(t, a) {
      EndingKeepsTerms(t, a, decisionId, CreatorPayableFull);
      SubmissionsHaveNoTerms(t, EndMission(t, a, decisionId, CreatorPayableFull), MoveSubmission(t.submissions, a, attempt, status), t.disputes);
      DisputesStay(t, a, decisionId);
    }
  }

  lemma DisputesStay(t: Tables, a: Id, publicId: Id)
    requires ReadyToEnd(t, a)
    ensures forall action :: EndMission(t, a, publicId, action).disputes == t.disputes
  {
  }

  lemma SubmissionsHaveNoTerms(t: Tables, after: Tables, submissions: map<Id, seq<Submission>>, disputes: map<Id, Dispute>)
    requires TermsKept(t, after)
    ensures TermsKept(t, after.(submissions := submissions, disputes := disputes))
  {
  }

  lemma CorrectKeepsTerms(t: Tables, req: ReviewRequest)
    requires AttemptExists(t.submissions, req.applicationId, req.attempt)
    ensures TermsKept(t, TablesAfter(t, CorrectStep(t, req)))
  {
    hide TermsKept, MoveSubmission;
    OtherRowsKeepTerms(t, t);
    var step := CorrectStep(t, req);
    if step.Committed? {
      SubmissionsHaveNoTerms(t, t, step.tables.submissions, t.disputes);
    }
  }

  lemma ReviewKeepsTerms(t: Tables, req: ReviewRequest)
    ensures TermsKept(t, TablesAfter(t, ReviewStep(t, req)))
  {
    hide TermsKept, ApproveStep, CorrectStep;
    OtherRowsKeepTerms(t, t);
    if AttemptJoins(t, req.applicationId, req.attempt) {
      ApproveKeepsTerms(t, req.applicationId, req.attempt, ReviewApproved, req.decisionId);
      CorrectKeepsTerms(t, req);
    }
  }

  lemma AutoApproveKeepsTerms(t: Tables, req: AutoApproveRequest)
    ensures TermsKept(t, TablesAfter(t, AutoApproveStep(t, req)))
  {
    hide TermsKept, ApproveStep;
    OtherRowsKeepTerms(t, t);
    if AttemptJoins(t, req.applicationId, req.attempt) {
      ApproveKeepsTerms(t, req.applicationId, req.attempt, AutoApproved, req.decisionId);
    }
  }

  lemma ResolveKeepsTerms(t: Tables, req: ResolveRequest)
    ensures TermsKept(t, TablesAfter(t, ResolveStep(t, req)))
  {
    hide TermsKept, EndMission, MoveSubmission, NoText;
    OtherRowsKeepTerms(t, t);
    var step, action := ResolveStep(t, req), if req.outcome.EarnedFull? then CreatorPayableFull else SlotRefundFull;
    if step.Committed? {
      EndingKeepsTerms(t, req.applicationId, req.resolutionId, action);
      SubmissionsHaveNoTerms(t, EndMission(t, req.applicationId, req.resolutionId, action), step.tables.submissions, step.tables.disputes);
    }
  }

  /** Funding writes the allocations of a campaign that had none. */
  lemma FundKeepsTerms(t: Tables, funding: FundingRequest)
    requires t.allocations.Keys == t.snapshots.Keys
    ensures TermsKept(t, TablesAfter(t, FundStep(t, funding)))
  {
    hide TermsKept, AllocationsFor, SnapshotRefusal, AccountUsable, EnsureAccount, FundingEntries, TransactionIdTaken, AllocationChecks;
    OtherRowsKeepTerms(t, t);
    var step, c := FundStep(t, funding), funding.campaignId;
    if step.Committed? && step.tables != t {
      LedgerSteps.AcceptedSnapshot(t.snapshots, t.campaigns[c], funding);
      AddingKeeps(t.allocations, c, step.tables.allocations[c]);
      FundedKeepsTerms(t, c, step.tables);
    }
  }

  lemma FundedKeepsTerms(t: Tables, c: Id, after: Tables)
    requires c in t.campaigns && c in after.campaigns && after.campaigns == t.campaigns[c := after.campaigns[c]]
    requires SameTerms(after.campaigns[c], t.campaigns[c]) && Kept(t.allocations, after.allocations)
    requires after.contracts == t.contracts && after.applications == t.applications
    requires after.reservations == t.reservations && after.assignments == t.assignments
    ensures TermsKept(t, after)
  {
  }

  lemma IssueKeepsTerms(t: Tables, req: IssueRequest)
    ensures TermsKept(t, TablesAfter(t, IssueStep(t, req)))
  {
    hide TermsKept, RevokeActive, FallbackMatches;
    OtherRowsKeepTerms(t, TablesAfter(t, IssueStep(t, req)));
  }

  lemma SubmitKeepsTerms(t: Tables, req: SubmitRequest)
    ensures TermsKept(t, TablesAfter(t, SubmitStep(t, req)))
  {
    hide TermsKept;
    OtherRowsKeepTerms(t, TablesAfter(t, SubmitStep(t, req)));
  }

  lemma OpenKeepsTerms(t: Tables, req: OpenRequest)
    ensures TermsKept(t, TablesAfter(t, OpenStep(t, req)))
  {
    hide TermsKept, MoveSubmission, NoText;
    OtherRowsKeepTerms(t, TablesAfter(t, OpenStep(t, req)));
  }

  lemma ConsumeIntentKeepsTerms(t: Tables, a: Id)
    ensures TermsKept(t, TablesAfter(t, ConsumeIntentStep(t, a)))
  {
    hide TermsKept, PostingFor;
    OtherRowsKeepTerms(t, TablesAfter(t, ConsumeIntentStep(t, a)));
  }

  lemma AdjustKeepsTerms(t: Tables, publicId: Id, isFinanceOperator: bool, request: AdjustmentRequest)
    ensures TermsKept(t, TablesAfter(t, AdjustStep(t, publicId, isFinanceOperator, request)))
  {
    hide TermsKept, NoText;
    OtherRowsKeepTerms(t, TablesAfter(t, AdjustStep(t, publicId, isFinanceOperator, request)));
  }

  lemma StepKeepsTerms(t: Tables, op: Op)
    requires t.allocations.Keys == t.snapshots.Keys
    ensures TermsKept(t, Perform(t, op))
  {
    hide TermsKept, AdjustStep, ApplyStep, AutoApproveStep, ConfigureStep, ConsumeIntentStep, ConsumeStep, CreateDraftStep,
         FundStep, IssueStep, Leave, OpenStep, ResolveStep, ReviewStep, ScheduleStep, SubmitStep, TransitionStep;
    OtherRowsKeepTerms(t, t);
    match op
    case CreateDraft(req) => CreateDraftKeepsTerms(t, req);
    case Transition(req) => TransitionKeepsTerms(t, req);
    case Configure(req) => ConfigureKeepsTerms(t, req);
    case ApplyForMission(req) => ApplyKeepsTerms(t, req);
    case Accept(req) => if Joins(t, req.applicationId) { LeaveKeepsTerms(t, req.applicationId, AppAccepted, ConvertedReservation, SlotAccepted); }
    case Withdraw(req) => if Joins(t, req.applicationId) { LeaveKeepsTerms(t, req.applicationId, AppWithdrawn, ReleasedReservation, Available); }
    case Schedule(req) => ScheduleKeepsTerms(t, req);
    case IssueChallenge(req) => IssueKeepsTerms(t, req);
    case ConsumeChallenge(req) => ConsumeKeepsTerms(t, req);
    case Submit(req) => SubmitKeepsTerms(t, req);
    case Review(req) => ReviewKeepsTerms(t, req);
    case AutoApprove(req) => AutoApproveKeepsTerms(t, req);
    case OpenDispute(req) => OpenKeepsTerms(t, req);
    case ResolveDispute(req) => ResolveKeepsTerms(t, req);
    case Fund(funding) => FundKeepsTerms(t, funding);
    case ConsumeIntent(a) => ConsumeIntentKeepsTerms(t, a);
    case Adjust(publicId, isFinanceOperator, adjustment) => AdjustKeepsTerms(t, publicId, isFinanceOperator, adjustment);
  }

  // ----- every run

  lemma TermsKeptIsTransitive(first: Tables, second: Tables, third: Tables)
    requires TermsKept(first, second) && TermsKept(second, third)
    ensures TermsKept(first, third)
  {
    hide SameTerms, SameSlot;
    CampaignsTransitive(first.campaigns, second.campaigns, third.campaigns);
    SlotsTransitive(first.contracts, second.contracts, third.contracts);
    hide CampaignTermsKept, SlotTermsKept;
  }

  lemma CampaignsTransitive(first: map<Id, Campaign>, second: map<Id, Campaign>, third: map<Id, Campaign>)
    requires CampaignTermsKept(first, second) && CampaignTermsKept(second, third)
    ensures CampaignTermsKept(first, third)
  {
  }

  lemma SlotsTransitive(first: map<Id, seq<Slot>>, second: map<Id, seq<Slot>>, third: map<Id, seq<Slot>>)
    requires SlotTermsKept(first, second) && SlotTermsKept(second, third)
    ensures SlotTermsKept(first, third)
  {
    forall c, i | c in first && 0 <= i < |first[c]| ensures SameSlot(third[c][i], first[c][i]) {
      assert SameSlot(second[c][i], first[c][i]) && SameSlot(third[c][i], second[c][i]);
    }
  }

  lemma AllocationsFollowSnapshots(t: Tables)
    requires Invariant(t)
    ensures t.allocations.Keys == t.snapshots.Keys
  {
    hide ContractsHold, MissionsHold, LedgerConservation.EntriesHold;
  }

  lemma {:induction false} TermsAreKept(t: Tables, ops: seq<Op>)
    requires Invariant(t)
    ensures TermsKept(t, Run(t, ops))
    decreases |ops|
  {
    hide Invariant, TermsKept, Perform;
    OtherRowsKeepTerms(t, t);
    if ops != [] {
      AllocationsFollowSnapshots(t);
      StepKeepsTerms(t, ops[0]);
      StepKeepsInvariant(t, ops[0]);
      TermsAreKept(Perform(t, ops[0]), ops[1..]);
      TermsKeptIsTransitive(t, Perform(t, ops[0]), Run(t, ops));
    }
  }

  /** From any reachable state on, no run touches a slot allocation, and campaigns, slots, applications, reservations and
      assignments keep everything but their status and version. */
  lemma RunKeepsTerms(t: Tables, ops: seq<Op>)
    requires Reachable(t)
    ensures TermsKept(t, Run(t, ops))
  {
    hide Invariant, TermsKept;
    ReachableHolds(t);
    TermsAreKept(t, ops);
  }
}
