/** The marketplace as one state machine over every store, and what every run of it keeps. */
module Market {
  import opened MarketTables
  import opened Campaigns
  import opened Applications
  import opened CheckIns
  import opened Submissions
  import opened Disputes
  import opened Ledger
  import opened MissionLockstep
  import opened CampaignContracts
  import opened LedgerConservation
  import opened LedgerSteps

  datatype Op =
    | CreateDraft(draft: DraftRequest)
    | Transition(transition: TransitionRequest)
    | Configure(configure: ConfigureRequest)
    | ApplyForMission(application: ApplyRequest)
    | Accept(accept: AcceptRequest)
    | Withdraw(withdraw: WithdrawRequest)
    | Schedule(schedule: ScheduleRequest)
    | IssueChallenge(issue: IssueRequest)
    | ConsumeChallenge(consume: ConsumeRequest)
    | Submit(submit: SubmitRequest)
    | Review(review: ReviewRequest)
    | AutoApprove(autoApprove: AutoApproveRequest)
    | OpenDispute(open: OpenRequest)
    | ResolveDispute(resolve: ResolveRequest)
    | Fund(funding: FundingRequest)
    | ConsumeIntent(applicationId: Id)
    | Adjust(publicId: Id, isFinanceOperator: bool, adjustment: AdjustmentRequest)

  function Perform(t: Tables, op: Op): Tables {
    match op
    case CreateDraft(req) => TablesAfter(t, CreateDraftStep(t, req))
    case Transition(req) => TablesAfter(t, TransitionStep(t, req))
    case Configure(req) => TablesAfter(t, ConfigureStep(t, req))
    case ApplyForMission(req) => TablesAfter(t, ApplyStep(t, req))
    case Accept(req) => TablesAfter(t, AcceptStep(t, req))
    case Withdraw(req) => TablesAfter(t, WithdrawStep(t, req))
    case Schedule(req) => TablesAfter(t, ScheduleStep(t, req))
    case IssueChallenge(req) => TablesAfter(t, IssueStep(t, req))
    case ConsumeChallenge(req) => TablesAfter(t, ConsumeStep(t, req))
    case Submit(req) => TablesAfter(t, SubmitStep(t, req))
    case Review(req) => TablesAfter(t, ReviewStep(t, req))
    case AutoApprove(req) => TablesAfter(t, AutoApproveStep(t, req))
    case OpenDispute(req) => TablesAfter(t, OpenStep(t, req))
    case ResolveDispute(req) => TablesAfter(t, ResolveStep(t, req))
    case Fund(funding) => TablesAfter(t, FundStep(t, funding))
    case ConsumeIntent(applicationId) => TablesAfter(t, ConsumeIntentStep(t, applicationId))
    case Adjust(publicId, isFinanceOperator, adjustment) => TablesAfter(t, AdjustStep(t, publicId, isFinanceOperator, adjustment))
  }

  function Run(t: Tables, ops: seq<Op>): Tables
    decreases |ops|
  {
    if ops == [] then t else Run(Perform(t, ops[0]), ops[1..])
  }

  ghost predicate Reachable(t: Tables) {
    exists ops :: t == Run(EMPTY_TABLES, ops)
  }

  /** Every committed request has its response, of the kind that its operation returns. */
  ghost predicate RequestsHold(requests: map<(string, string), Request>) {
    forall row :: row in requests ==> requests[row].response.Some?
  }

  ghost predicate Invariant(t: Tables) {
    && ContractsHold(t.campaigns, t.contracts)
    && MissionsHold(t)
    && LedgerHolds(t)
    && RequestsHold(t.requests)
  }

  // ----- campaigns

  lemma PublishedStaysInStep(campaigns: map<Id, Campaign>, campaigns': map<Id, Campaign>, contracts: map<Id, seq<Slot>>,
                             applications: map<Id, Application>, reservations: map<Id, Reservation>)
    requires AllInStep(campaigns, contracts, applications, reservations)
    requires forall c :: IsPublished(campaigns, c) ==> IsPublished(campaigns', c)
    ensures AllInStep(campaigns', contracts, applications, reservations)
  {
    forall a | a in applications ensures InStep(campaigns', contracts, applications[a], reservations[a]) {
      assert InStep(campaigns, contracts, applications[a], reservations[a]);
    }
  }

  lemma ChangingCampaignKeepsMissions(t: Tables, c: Id, campaign: Campaign, requests: map<(string, string), Request>)
    requires MissionsHold(t) && (IsPublished(t.campaigns, c) ==> campaign.status == Published)
    ensures MissionsHold(t.(campaigns := t.campaigns[c := campaign], requests := requests))
  {
    hide AllInStep, OneHolderEach, TakenSlotsAreHeld, Assigned, IntentsFollow, CheckInsFollow;
    PublishedStaysInStep(t.campaigns, t.campaigns[c := campaign], t.contracts, t.applications, t.reservations);
  }

  lemma ChangingCampaignKeepsSnapshots(campaigns: map<Id, Campaign>, contracts: map<Id, seq<Slot>>, snapshots: map<Id, Snapshot>,
                                       allocations: map<Id, seq<Allocation>>, c: Id, campaign: Campaign)
    requires SnapshotsHold(campaigns, contracts, snapshots, allocations)
    requires c in campaigns ==> SameTerms(campaign, campaigns[c])
    requires campaign.status in {Funded, Published} <==> c in snapshots
    ensures SnapshotsHold(campaigns[c := campaign], contracts, snapshots, allocations)
  {
    if c in snapshots {
      StatusDoesNotMatterToSnapshots(campaigns[c], campaign, contracts[c], snapshots[c], allocations[c]);
    }
    hide SnapshotSound;
  }

  lemma SnapshotsAreFunded(campaigns: map<Id, Campaign>, contracts: map<Id, seq<Slot>>, snapshots: map<Id, Snapshot>,
                           allocations: map<Id, seq<Allocation>>, c: Id)
    requires SnapshotsHold(campaigns, contracts, snapshots, allocations)
    ensures allocations.Keys == snapshots.Keys
    ensures c in snapshots <==> c in campaigns && campaigns[c].status in {Funded, Published}
  {
  }

  lemma CreateDraftKeeps(t: Tables, req: DraftRequest)
    requires Invariant(t)
    ensures Invariant(TablesAfter(t, CreateDraftStep(t, req)))
  {
    hide SnapshotsHold, AccountsHold, JournalsHold, EntriesHold, PostedSlots, MissionsHold, ContractsHold;
    CreateDraftKeepsContracts(t, req);
    var step := CreateDraftStep(t, req);
    if step.Committed? && step.tables != t {
      SnapshotsAreFunded(t.campaigns, t.contracts, t.snapshots, t.allocations, req.publicId);
      ChangingCampaignKeepsMissions(t, req.publicId, req.Row(), step.tables.requests);
      ChangingCampaignKeepsSnapshots(t.campaigns, t.contracts, t.snapshots, t.allocations, req.publicId, req.Row());
    }
  }

  lemma TransitionKeeps(t: Tables, req: TransitionRequest)
    requires Invariant(t)
    ensures Invariant(TablesAfter(t, TransitionStep(t, req)))
  {
    hide SnapshotsHold, AccountsHold, JournalsHold, EntriesHold, PostedSlots, MissionsHold, ContractsHold, ContractComplete;
    TransitionKeepsContracts(t, req);
    var step := TransitionStep(t, req);
    if step.Committed? && step.tables != t {
      SnapshotsAreFunded(t.campaigns, t.contracts, t.snapshots, t.allocations, req.campaignId);
      ChangingCampaignKeepsMissions(t, req.campaignId, step.tables.campaigns[req.campaignId], step.tables.requests);
      ChangingCampaignKeepsSnapshots(t.campaigns, t.contracts, t.snapshots, t.allocations, req.campaignId, step.tables.campaigns[req.campaignId]);
    }
  }

  // ----- slots are added, and change status

  lemma AddingContractKeepsLockstep(campaigns: map<Id, Campaign>, contracts: map<Id, seq<Slot>>, applications: map<Id, Application>,
                                    reservations: map<Id, Reservation>, c: Id, slots: seq<Slot>)
    requires Lockstep(campaigns, contracts, applications, reservations) && c !in contracts
    requires forall i :: 0 <= i < |slots| ==> slots[i].status == Available
    ensures Lockstep(campaigns, contracts[c := slots], applications, reservations)
  {
    forall a | a in applications ensures InStep(campaigns, contracts[c := slots], applications[a], reservations[a]) {
      assert InStep(campaigns, contracts, applications[a], reservations[a]);
    }
    assert TakenSlotsAreHeld(contracts[c := slots], reservations);
    hide InStep, OneHolderEach, TakenSlotsAreHeld;
  }

  lemma AddingContractKeepsMissions(t: Tables, c: Id, slots: seq<Slot>)
    requires MissionsHold(t) && c !in t.contracts && forall i :: 0 <= i < |slots| ==> slots[i].status == Available
    ensures MissionsHold(t.(contracts := t.contracts[c := slots]))
  {
    hide Lockstep, Assigned, IntentsFollow, CheckInsFollow;
    AddingContractKeepsLockstep(t.campaigns, t.contracts, t.applications, t.reservations, c, slots);
  }

  lemma AddingContractKeepsSnapshots(campaigns: map<Id, Campaign>, contracts: map<Id, seq<Slot>>, snapshots: map<Id, Snapshot>,
                                     allocations: map<Id, seq<Allocation>>, c: Id, slots: seq<Slot>)
    requires SnapshotsHold(campaigns, contracts, snapshots, allocations) && c !in contracts
    ensures SnapshotsHold(campaigns, contracts[c := slots], snapshots, allocations)
  {
    hide SnapshotSound;
  }

  lemma ConfigureKeeps(t: Tables, req: ConfigureRequest)
    requires Invariant(t)
    ensures Invariant(TablesAfter(t, ConfigureStep(t, req)))
  {
    hide SnapshotsHold, AccountsHold, JournalsHold, EntriesHold, PostedSlots, MissionsHold, ContractsHold, ContractSound, SlotContract, SlotsInsert;
    ConfigureKeepsContracts(t, req);
    if ConfigureStep(t, req).Committed? {
      RowsAreSound(t.contracts, req.slots, t.campaigns[req.campaignId]);
      AddingContractKeepsMissions(t, req.campaignId, Rows(req.slots));
      AddingContractKeepsSnapshots(t.campaigns, t.contracts, t.snapshots, t.allocations, req.campaignId, Rows(req.slots));
    }
  }

  lemma MovingSlotKeepsSnapshots(campaigns: map<Id, Campaign>, contracts: map<Id, seq<Slot>>, snapshots: map<Id, Snapshot>,
                                 allocations: map<Id, seq<Allocation>>, slot: SlotRef, from: SlotStatus, to: SlotStatus)
    requires SnapshotsHold(campaigns, contracts, snapshots, allocations)
    ensures SnapshotsHold(campaigns, MoveSlot(contracts, slot, from, to), snapshots, allocations)
  {
    if SlotIs(contracts, slot, from) && slot.campaignId in snapshots {
      var c := slot.campaignId;
      assert SnapshotSound(campaigns[c], contracts[c], snapshots[c], allocations[c]);
      assert SnapshotSound(campaigns[c], MoveSlot(contracts, slot, from, to)[c], snapshots[c], allocations[c]);
    }
    hide SnapshotSound;
  }

  // ----- applications

  lemma ApplyKeeps(t: Tables, req: ApplyRequest)
    requires Invariant(t)
    ensures Invariant(TablesAfter(t, ApplyStep(t, req)))
  {
    hide SnapshotsHold, AccountsHold, JournalsHold, EntriesHold, PostedSlots, MissionsHold, ContractsHold, MoveSlot, HasApplied, SlotHeld;
    ApplyKeepsMissions(t, req);
    var step := ApplyStep(t, req);
    if step.Committed? && step.tables != t {
      var slot := SlotRef(req.campaignId, OpenSlot(t, req).value);
      MovingSlotKeepsContracts(t.campaigns, t.contracts, slot, Available, Reserved);
      MovingSlotKeepsSnapshots(t.campaigns, t.contracts, t.snapshots, t.allocations, slot, Available, Reserved);
    }
  }

  lemma LeaveKeeps(t: Tables, a: Id, to: ApplicationStatus)
    requires Invariant(t) && Joins(t, a) && to in {AppAccepted, AppWithdrawn}
    ensures Invariant(TablesAfter(t, Leave(t, a, to, ReservationFor(to), SlotFor(to))))
  {
    hide SnapshotsHold, AccountsHold, JournalsHold, EntriesHold, PostedSlots, MissionsHold, ContractsHold, MoveSlot;
    LeaveKeepsMissions(t, a, to);
    MovingSlotKeepsContracts(t.campaigns, t.contracts, t.reservations[a].slot, Reserved, SlotFor(to));
    MovingSlotKeepsSnapshots(t.campaigns, t.contracts, t.snapshots, t.allocations, t.reservations[a].slot, Reserved, SlotFor(to));
  }

  // ----- check-ins

  lemma SchedulingKeepsPostedSlots(assignments: map<Id, Assignment>, intents: map<Id, Intent>, a: Id, assignment: Assignment, action: IntentAction)
    requires (a in assignments && assignments[a].slot == assignment.slot) || a !in intents
    ensures PostedSlots(assignments[a := assignment], intents, action) == PostedSlots(assignments, intents, action)
  {
    var before, after := PostedSlots(assignments, intents, action), PostedSlots(assignments[a := assignment], intents, action);
    forall slot | slot in before ensures slot in after {
      var b :| b in intents && b in assignments && intents[b].status == Posted && intents[b].action == action && assignments[b].slot == slot;
      assert assignments[a := assignment][b].slot == slot;
    }
  }

  lemma UnassignedHasNoIntent(t: Tables, a: Id)
    requires MissionsHold(t) && a !in t.assignments
    ensures a !in t.intents
  {
  }

  lemma ScheduleKeeps(t: Tables, req: ScheduleRequest)
    requires Invariant(t)
    ensures Invariant(TablesAfter(t, ScheduleStep(t, req)))
  {
    hide SnapshotsHold, AccountsHold, JournalsHold, EntriesHold, PostedSlots, MissionsHold, ContractsHold;
    ScheduleKeepsMissions(t, req);
    var step := ScheduleStep(t, req);
    if step.Committed? {
      UnassignedHasNoIntent(t, req.applicationId);
      SchedulingKeepsPostedSlots(t.assignments, t.intents, req.applicationId, step.value, CreatorPayableFull);
      SchedulingKeepsPostedSlots(t.assignments, t.intents, req.applicationId, step.value, SlotRefundFull);
    }
  }

  lemma IssueKeeps(t: Tables, req: IssueRequest)
    requires Invariant(t)
    ensures Invariant(TablesAfter(t, IssueStep(t, req)))
  {
    hide SnapshotsHold, AccountsHold, JournalsHold, EntriesHold, PostedSlots, MissionsHold, ContractsHold;
    IssueKeepsMissions(t, req);
  }

  lemma ConsumeKeeps(t: Tables, req: ConsumeRequest)
    requires Invariant(t)
    ensures Invariant(TablesAfter(t, ConsumeStep(t, req)))
  {
    hide SnapshotsHold, AccountsHold, JournalsHold, EntriesHold, PostedSlots, MissionsHold, ContractsHold;
    ConsumeKeepsMissions(t, req);
    if ConsumeStep(t, req).Committed? {
      var a := t.challenges[req.challengeId].applicationId;
      var assignment := MoveAssignment(t.assignments, a, CheckedIn)[a];
      SchedulingKeepsPostedSlots(t.assignments, t.intents, a, assignment, CreatorPayableFull);
      SchedulingKeepsPostedSlots(t.assignments, t.intents, a, assignment, SlotRefundFull);
    }
  }

  // ----- submissions and disputes

  /** Submissions and disputes of their own change nothing that the invariant speaks of. */
  lemma SubmissionsAreApart(t: Tables, submissions: map<Id, seq<Submission>>, disputes: map<Id, Dispute>)
    requires Invariant(t)
    ensures Invariant(t.(submissions := submissions, disputes := disputes))
  {
    hide SnapshotsHold, AccountsHold, JournalsHold, EntriesHold, PostedSlots, Lockstep, Assigned, IntentsFollow, CheckInsFollow, ContractsHold;
  }

  lemma NewIntentKeepsPostedSlots(assignments: map<Id, Assignment>, intents: map<Id, Intent>, a: Id, assignment: Assignment, intent: Intent,
                                  action: IntentAction)
    requires a !in intents && intent.status == PendingLedger
    ensures PostedSlots(assignments[a := assignment], intents[a := intent], action) == PostedSlots(assignments, intents, action)
  {
    var before := PostedSlots(assignments, intents, action);
    var after := PostedSlots(assignments[a := assignment], intents[a := intent], action);
    forall slot | slot in before ensures slot in after {
      var b :| b in intents && b in assignments && intents[b].status == Posted && intents[b].action == action && assignments[b].slot == slot;
      assert assignments[a := assignment][b].slot == slot && intents[a := intent][b] == intents[b];
    }
  }

  lemma NewIntentKeepsJournals(intents: map<Id, Intent>, snapshots: map<Id, Snapshot>, journals: map<Source, Journal>, a: Id, intent: Intent)
    requires JournalsHold(intents, snapshots, journals) && a !in intents && intent.status == PendingLedger
    ensures JournalsHold(intents[a := intent], snapshots, journals)
  {
  }

  lemma EndingKeeps(t: Tables, a: Id, publicId: Id, action: IntentAction)
    requires Invariant(t) && ReadyToEnd(t, a) && a !in t.intents
    ensures Invariant(EndMission(t, a, publicId, action))
  {
    hide SnapshotsHold, AccountsHold, JournalsHold, EntriesHold, PostedSlots, MissionsHold, ContractsHold, MoveSlot;
    EndingKeepsMissions(t, a, publicId, action);
    var after, slot := EndMission(t, a, publicId, action), t.assignments[a].slot;
    var to := if action.CreatorPayableFull? then SlotCompleted else SlotNoPayout;
    MovingSlotKeepsContracts(t.campaigns, t.contracts, slot, SlotAccepted, to);
    MovingSlotKeepsSnapshots(t.campaigns, t.contracts, t.snapshots, t.allocations, slot, SlotAccepted, to);
    NewIntentKeepsJournals(t.intents, t.snapshots, t.journals, a, after.intents[a]);
    NewIntentKeepsPostedSlots(t.assignments, t.intents, a, after.assignments[a], after.intents[a], CreatorPayableFull);
    NewIntentKeepsPostedSlots(t.assignments, t.intents, a, after.assignments[a], after.intents[a], SlotRefundFull);
  }

  lemma ApproveKeeps(t: Tables, a: Id, attempt: nat, status: SubmissionStatus, decisionId: Id)
    requires Invariant(t) && AttemptExists(t.submissions, a, attempt)
    ensures Invariant(TablesAfter(t, ApproveStep(t, a, attempt, status, decisionId)))
  {
    hide Invariant;
    if ApproveStep(t, a, attempt, status, decisionId).Committed? {
      EndingKeeps(t, a, decisionId, CreatorPayableFull);
      var ended := EndMission(t, a, decisionId, CreatorPayableFull);
      SubmissionsAreApart(ended, MoveSubmission(t.submissions, a, attempt, status), ended.disputes);
    }
  }

  lemma ResolveKeeps(t: Tables, req: ResolveRequest)
    requires Invariant(t)
    ensures Invariant(TablesAfter(t, ResolveStep(t, req)))
  {
    hide Invariant;
    var step := ResolveStep(t, req);
    if step.Committed? {
      var action := if req.outcome.EarnedFull? then CreatorPayableFull else SlotRefundFull;
      EndingKeeps(t, req.applicationId, req.resolutionId, action);
      SubmissionsAreApart(EndMission(t, req.applicationId, req.resolutionId, action), step.tables.submissions, step.tables.disputes);
    }
  }

  // ----- the ledger

  lemma FundKeeps(t: Tables, funding: FundingRequest)
    requires Invariant(t)
    ensures Invariant(TablesAfter(t, FundStep(t, funding)))
  {
    hide LedgerHolds, ContractsHold, MissionsHold, SnapshotRefusal, AllocationsFor;
    FundKeepsLedger(t, funding);
    var step, c := FundStep(t, funding), funding.campaignId;
    if step.Committed? && step.tables != t {
      ApprovedHasContract(t.campaigns, t.contracts, c);
      ChangingStatusKeepsContracts(t.campaigns, t.contracts, c, step.tables.campaigns[c]);
      ChangingCampaignKeepsMissions(t, c, step.tables.campaigns[c], t.requests);
      LedgerIsApart(t.(campaigns := step.tables.campaigns), step.tables);
    }
  }

  lemma ApprovedHasContract(campaigns: map<Id, Campaign>, contracts: map<Id, seq<Slot>>, c: Id)
    requires ContractsHold(campaigns, contracts) && c in campaigns && campaigns[c].status == Approved
    ensures c in contracts
  {
  }

  /** Ledger rows of their own change nothing that the missions' invariant speaks of. */
  lemma LedgerIsApart(t: Tables, after: Tables)
    requires MissionsHold(t)
    requires after == t.(snapshots := after.snapshots, allocations := after.allocations, accounts := after.accounts,
                         journals := after.journals, entries := after.entries, requests := after.requests)
    ensures MissionsHold(after)
  {
    hide Lockstep, Assigned, IntentsFollow, CheckInsFollow;
  }

  lemma PostingKeepsIntents(assignments: map<Id, Assignment>, intents: map<Id, Intent>, a: Id, posted: Intent)
    requires IntentsFollow(assignments, intents) && a in intents && posted.action == intents[a].action
    ensures IntentsFollow(assignments, intents[a := posted])
  {
  }

  lemma ConsumeIntentKeeps(t: Tables, a: Id)
    requires Invariant(t)
    ensures Invariant(TablesAfter(t, ConsumeIntentStep(t, a)))
  {
    hide LedgerHolds, ContractsHold, Lockstep, Assigned, IntentsFollow, CheckInsFollow, PostingFor;
    ConsumeIntentKeepsLedger(t, a);
    var step := ConsumeIntentStep(t, a);
    if step.Committed? && step.tables != t {
      PostingKeepsIntents(t.assignments, t.intents, a, step.tables.intents[a]);
    }
  }

  lemma AdjustKeeps(t: Tables, publicId: Id, isFinanceOperator: bool, request: AdjustmentRequest)
    requires Invariant(t)
    ensures Invariant(TablesAfter(t, AdjustStep(t, publicId, isFinanceOperator, request)))
  {
    hide LedgerHolds, ContractsHold, MissionsHold;
    AdjustKeepsLedger(t, publicId, isFinanceOperator, request);
    LedgerIsApart(t, TablesAfter(t, AdjustStep(t, publicId, isFinanceOperator, request)));
  }

  // ----- every step, every run

  lemma ReviewKeeps(t: Tables, req: ReviewRequest)
    requires Invariant(t)
    ensures Invariant(TablesAfter(t, ReviewStep(t, req)))
  {
    hide Invariant;
    if AttemptJoins(t, req.applicationId, req.attempt) {
      ApproveKeeps(t, req.applicationId, req.attempt, ReviewApproved, req.decisionId);
      SubmissionsAreApart(t, TablesAfter(t, CorrectStep(t, req)).submissions, t.disputes);
    }
  }

  lemma SubmitKeeps(t: Tables, req: SubmitRequest)
    requires Invariant(t)
    ensures Invariant(TablesAfter(t, SubmitStep(t, req)))
  {
    hide Invariant;
    SubmissionsAreApart(t, TablesAfter(t, SubmitStep(t, req)).submissions, t.disputes);
  }

  lemma OpenKeeps(t: Tables, req: OpenRequest)
    requires Invariant(t)
    ensures Invariant(TablesAfter(t, OpenStep(t, req)))
  {
    hide Invariant, NoText, CreatorRefusal;
    var after := TablesAfter(t, OpenStep(t, req));
    SubmissionsAreApart(t, after.submissions, after.disputes);
  }

  lemma StepKeepsInvariant(t: Tables, op: Op)
    requires Invariant(t)
    ensures Invariant(Perform(t, op))
  {
    hide Invariant, AdjustStep, ApplyStep, ApproveStep, ConfigureStep, ConsumeIntentStep, ConsumeStep, CreateDraftStep, FundStep,
         IssueStep, Leave, OpenStep, ResolveStep, ReviewStep, ScheduleStep, SubmitStep, TransitionStep;
    match op
    case CreateDraft(req) => CreateDraftKeeps(t, req);
    case Transition(req) => TransitionKeeps(t, req);
    case Configure(req) => ConfigureKeeps(t, req);
    case ApplyForMission(req) => ApplyKeeps(t, req);
    case Accept(req) => if Joins(t, req.applicationId) { LeaveKeeps(t, req.applicationId, AppAccepted); }
    case Withdraw(req) => if Joins(t, req.applicationId) { LeaveKeeps(t, req.applicationId, AppWithdrawn); }
    case Schedule(req) => ScheduleKeeps(t, req);
    case IssueChallenge(req) => IssueKeeps(t, req);
    case ConsumeChallenge(req) => ConsumeKeeps(t, req);
    case Submit(req) => SubmitKeeps(t, req);
    case Review(req) => ReviewKeeps(t, req);
    case AutoApprove(req) =>
      if AttemptJoins(t, req.applicationId, req.attempt) { ApproveKeeps(t, req.applicationId, req.attempt, AutoApproved, req.decisionId); }
    case OpenDispute(req) => OpenKeeps(t, req);
    case ResolveDispute(req) => ResolveKeeps(t, req);
    case Fund(funding) => FundKeeps(t, funding);
    case ConsumeIntent(a) => ConsumeIntentKeeps(t, a);
    case Adjust(publicId, isFinanceOperator, adjustment) => AdjustKeeps(t, publicId, isFinanceOperator, adjustment);
  }

  lemma {:induction false} RunKeepsInvariant(t: Tables, ops: seq<Op>)
    requires Invariant(t)
    ensures Invariant(Run(t, ops))
    decreases |ops|
  {
    if ops != [] {
      hide Invariant;
      StepKeepsInvariant(t, ops[0]);
      RunKeepsInvariant(Perform(t, ops[0]), ops[1..]);
    }
  }

  lemma NothingToBreakAtFirst()
    ensures Invariant(EMPTY_TABLES)
  {
  }

  lemma ReachableHolds(t: Tables)
    requires Reachable(t)
    ensures Invariant(t)
  {
    hide Invariant;
    var ops :| t == Run(EMPTY_TABLES, ops);
    NothingToBreakAtFirst();
    RunKeepsInvariant(EMPTY_TABLES, ops);
  }
}
