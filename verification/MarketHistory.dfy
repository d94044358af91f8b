/** What no later step can undo: committed responses, journals and posted intents. */
module MarketHistory {
  import opened MarketTables
  import opened Campaigns
  import opened Applications
  import opened Submissions
  import opened CheckIns
  import opened Disputes
  import opened Ledger
  import LedgerSteps
  import opened Market

  /** Every row of the table is still there, as it was. */
  ghost predicate Kept<K(!new), V>(before: map<K, V>, after: map<K, V>) {
    forall k :: k in before ==> k in after && after[k] == before[k]
  }

  /** An intent is never removed, and changes only by being posted, once. */
  ghost predicate IntentsKept(before: map<Id, Intent>, after: map<Id, Intent>) {
    forall a :: a in before ==>
      a in after && (after[a] == before[a]
                     || (before[a].status == PendingLedger && after[a] == before[a].(status := Posted, version := before[a].version + 1)))
  }

  /** The rows that only ever grow. */
  ghost predicate Extends(after: Tables, before: Tables) {
    && before.campaigns.Keys <= after.campaigns.Keys
    && Kept(before.requests, after.requests)
    && Kept(before.journals, after.journals)
    && Kept(before.snapshots, after.snapshots)
    && before.entries <= after.entries
    && IntentsKept(before.intents, after.intents)
  }

  /** No submission, dispute or assignment was touched. */
  predicate SameMissions(after: Tables, before: Tables) {
    after.submissions == before.submissions && after.disputes == before.disputes && after.assignments == before.assignments
  }

  lemma ExtendsIsTransitive(first: Tables, second: Tables, third: Tables)
    requires Extends(second, first) && Extends(third, second)
    ensures Extends(third, first)
  {
  }

  lemma ExtendsIsReflexive(t: Tables)
    ensures Extends(t, t) && SameMissions(t, t) && Kept(t.intents, t.intents)
  {
  }

  lemma SameRowsExtend(t: Tables, after: Tables)
    requires after.campaigns == t.campaigns && after.requests == t.requests && after.journals == t.journals
    requires after.snapshots == t.snapshots && after.entries == t.entries && after.intents == t.intents
    ensures Extends(after, t) && Kept(t.intents, after.intents)
  {
  }

  lemma CreateDraftExtends(t: Tables, req: DraftRequest)
    ensures Extends(TablesAfter(t, CreateDraftStep(t, req)), t)
    ensures SameMissions(TablesAfter(t, CreateDraftStep(t, req)), t)
    ensures Kept(t.intents, TablesAfter(t, CreateDraftStep(t, req)).intents)
  {
  }

  lemma TransitionExtends(t: Tables, req: TransitionRequest)
    ensures Extends(TablesAfter(t, TransitionStep(t, req)), t)
    ensures SameMissions(TablesAfter(t, TransitionStep(t, req)), t)
    ensures Kept(t.intents, TablesAfter(t, TransitionStep(t, req)).intents)
  {
    hide ContractComplete;
  }

  lemma ConfigureExtends(t: Tables, req: ConfigureRequest)
    ensures Extends(TablesAfter(t, ConfigureStep(t, req)), t)
    ensures SameMissions(TablesAfter(t, ConfigureStep(t, req)), t)
    ensures TablesAfter(t, ConfigureStep(t, req)).campaigns == t.campaigns
    ensures Kept(t.intents, TablesAfter(t, ConfigureStep(t, req)).intents)
  {
    hide SlotContract, SlotsInsert, Rows;
  }

  lemma ApplyExtends(t: Tables, req: ApplyRequest)
    ensures Extends(TablesAfter(t, ApplyStep(t, req)), t)
    ensures SameMissions(TablesAfter(t, ApplyStep(t, req)), t)
    ensures TablesAfter(t, ApplyStep(t, req)).campaigns == t.campaigns
    ensures Kept(t.intents, TablesAfter(t, ApplyStep(t, req)).intents)
  {
    hide MoveSlot;
  }

  lemma LeaveExtends(t: Tables, a: Id, to: ApplicationStatus, reservation: ReservationStatus, slot: SlotStatus)
    requires Joins(t, a)
    ensures var after := TablesAfter(t, Leave(t, a, to, reservation, slot));
            Extends(after, t) && SameMissions(after, t) && after.campaigns == t.campaigns && Kept(t.intents, after.intents)
  {
    hide MoveSlot, MoveApplication, MoveReservation, Extends;
    var step := Leave(t, a, to, reservation, slot);
    if step.Committed? {
      assert step.tables == t.(applications := step.tables.applications, reservations := step.tables.reservations, contracts := step.tables.contracts);
      hide Leave;
      SameRowsExtend(t, step.tables);
    } else {
      ExtendsIsReflexive(t);
    }
  }

  lemma ScheduleExtends(t: Tables, req: ScheduleRequest)
    ensures Extends(TablesAfter(t, ScheduleStep(t, req)), t)
    ensures TablesAfter(t, ScheduleStep(t, req)).campaigns == t.campaigns
    ensures Kept(t.intents, TablesAfter(t, ScheduleStep(t, req)).intents)
  {
  }

  lemma IssueExtends(t: Tables, req: IssueRequest)
    ensures Extends(TablesAfter(t, IssueStep(t, req)), t)
    ensures SameMissions(TablesAfter(t, IssueStep(t, req)), t)
    ensures TablesAfter(t, IssueStep(t, req)).campaigns == t.campaigns
    ensures Kept(t.intents, TablesAfter(t, IssueStep(t, req)).intents)
  {
    hide RevokeActive;
  }

  lemma ConsumeExtends(t: Tables, req: ConsumeRequest)
    ensures Extends(TablesAfter(t, ConsumeStep(t, req)), t)
    ensures TablesAfter(t, ConsumeStep(t, req)).campaigns == t.campaigns
    ensures Kept(t.intents, TablesAfter(t, ConsumeStep(t, req)).intents)
  {
    hide MoveAssignment;
  }

  lemma SubmitExtends(t: Tables, req: SubmitRequest)
    ensures Extends(TablesAfter(t, SubmitStep(t, req)), t)
    ensures TablesAfter(t, SubmitStep(t, req)).campaigns == t.campaigns
    ensures Kept(t.intents, TablesAfter(t, SubmitStep(t, req)).intents)
  {
  }

  lemma ApproveExtends(t: Tables, a: Id, attempt: nat, status: SubmissionStatus, decisionId: Id)
    requires AttemptExists(t.submissions, a, attempt)
    ensures Extends(TablesAfter(t, ApproveStep(t, a, attempt, status, decisionId)), t)
    ensures TablesAfter(t, ApproveStep(t, a, attempt, status, decisionId)).campaigns == t.campaigns
    ensures Kept(t.intents, TablesAfter(t, ApproveStep(t, a, attempt, status, decisionId)).intents)
  {
    hide MoveSlot, MoveApplication, MoveAssignment, MoveSubmission;
  }

  lemma CorrectExtends(t: Tables, req: ReviewRequest)
    requires AttemptExists(t.submissions, req.applicationId, req.attempt)
    ensures var after := TablesAfter(t, CorrectStep(t, req));
            Extends(after, t) && after.campaigns == t.campaigns && Kept(t.intents, after.intents)
  {
    hide MoveSubmission, Extends, Kept;
    var step := CorrectStep(t, req);
    ExtendsIsReflexive(t);
    if step.Committed? {
      assert step.tables == t.(submissions := step.tables.submissions);
      hide CorrectStep;
      SameRowsExtend(t, step.tables);
    }
  }

  lemma ReviewExtends(t: Tables, req: ReviewRequest)
    ensures var after := TablesAfter(t, ReviewStep(t, req)); Extends(after, t) && after.campaigns == t.campaigns && Kept(t.intents, after.intents)
  {
    hide Extends, ApproveStep, CorrectStep;
    ExtendsIsReflexive(t);
    if AttemptJoins(t, req.applicationId, req.attempt) {
      ApproveExtends(t, req.applicationId, req.attempt, ReviewApproved, req.decisionId);
      CorrectExtends(t, req);
    }
  }

  lemma AutoApproveExtends(t: Tables, req: AutoApproveRequest)
    ensures var after := TablesAfter(t, AutoApproveStep(t, req)); Extends(after, t) && after.campaigns == t.campaigns && Kept(t.intents, after.intents)
  {
    hide Extends, ApproveStep;
    ExtendsIsReflexive(t);
    if AttemptJoins(t, req.applicationId, req.attempt) {
      ApproveExtends(t, req.applicationId, req.attempt, AutoApproved, req.decisionId);
    }
  }

  lemma OpenExtends(t: Tables, req: OpenRequest)
    ensures Extends(TablesAfter(t, OpenStep(t, req)), t)
    ensures TablesAfter(t, OpenStep(t, req)).campaigns == t.campaigns
    ensures Kept(t.intents, TablesAfter(t, OpenStep(t, req)).intents)
  {
    hide MoveSubmission;
  }

  lemma ResolveExtends(t: Tables, req: ResolveRequest)
    ensures Extends(TablesAfter(t, ResolveStep(t, req)), t)
    ensures TablesAfter(t, ResolveStep(t, req)).campaigns == t.campaigns
    ensures Kept(t.intents, TablesAfter(t, ResolveStep(t, req)).intents)
  {
    hide MoveSlot, MoveApplication, MoveAssignment, MoveSubmission;
  }

  lemma AddingKeeps<K(!new), V>(rows: map<K, V>, k: K, v: V)
    requires k !in rows
    ensures Kept(rows, rows[k := v])
  {
  }

  lemma RecordFundingExtends(t: Tables, campaign: Campaign, funding: FundingRequest, allocations: seq<Allocation>)
    ensures Extends(TablesAfter(t, RecordFundingStep(t, campaign, funding, allocations)), t)
    ensures SameMissions(TablesAfter(t, RecordFundingStep(t, campaign, funding, allocations)), t)
    ensures Kept(t.intents, TablesAfter(t, RecordFundingStep(t, campaign, funding, allocations)).intents)
  {
    hide AccountUsable, EnsureAccount, FundingEntries, TransactionIdTaken, SnapshotRefusal, Kept, AllocationChecks;
    ExtendsIsReflexive(t);
    var step := RecordFundingStep(t, campaign, funding, allocations);
    if step.Committed? {
      LedgerSteps.AcceptedSnapshot(t.snapshots, campaign, funding);
      AddingKeeps(t.snapshots, funding.campaignId, step.value);
      AddingKeeps(t.journals, ProviderFunding(funding.providerEventId), step.tables.journals[ProviderFunding(funding.providerEventId)]);
    }
  }

  lemma FundExtends(t: Tables, funding: FundingRequest)
    ensures Extends(TablesAfter(t, FundStep(t, funding)), t)
    ensures SameMissions(TablesAfter(t, FundStep(t, funding)), t)
    ensures Kept(t.intents, TablesAfter(t, FundStep(t, funding)).intents)
  {
    hide AllocationsFor, RecordFundingStep, Extends;
    ExtendsIsReflexive(t);
    if funding.campaignId in t.campaigns && AllocationsFor(t, t.campaigns[funding.campaignId], funding.campaignId).Some? {
      RecordFundingExtends(t, t.campaigns[funding.campaignId], funding,
                           AllocationsFor(t, t.campaigns[funding.campaignId], funding.campaignId).value);
    }
  }

  lemma ConsumeIntentExtends(t: Tables, a: Id)
    ensures Extends(TablesAfter(t, ConsumeIntentStep(t, a)), t)
    ensures SameMissions(TablesAfter(t, ConsumeIntentStep(t, a)), t)
    ensures TablesAfter(t, ConsumeIntentStep(t, a)).campaigns == t.campaigns
  {
    hide PostingFor;
  }

  lemma AdjustExtends(t: Tables, publicId: Id, isFinanceOperator: bool, request: AdjustmentRequest)
    ensures Extends(TablesAfter(t, AdjustStep(t, publicId, isFinanceOperator, request)), t)
    ensures SameMissions(TablesAfter(t, AdjustStep(t, publicId, isFinanceOperator, request)), t)
    ensures TablesAfter(t, AdjustStep(t, publicId, isFinanceOperator, request)).campaigns == t.campaigns
    ensures Kept(t.intents, TablesAfter(t, AdjustStep(t, publicId, isFinanceOperator, request)).intents)
  {
  }

  /** The steps of the stores that keep neither assignments, submissions nor disputes. */
  predicate Elsewhere(op: Op) {
    && !op.Schedule? && !op.ConsumeChallenge? && !op.Submit? && !op.Review? && !op.AutoApprove? && !op.OpenDispute?
    && !op.ResolveDispute?
  }

  lemma StepExtends(t: Tables, op: Op)
    ensures Extends(Perform(t, op), t)
    ensures Elsewhere(op) ==> SameMissions(Perform(t, op), t)
    ensures !op.CreateDraft? && !op.Transition? && !op.Fund? ==> Perform(t, op).campaigns == t.campaigns
    ensures !op.ConsumeIntent? ==> Kept(t.intents, Perform(t, op).intents)
  {
    hide Extends, SameMissions, Kept, AdjustStep, ApplyStep, AutoApproveStep, ConfigureStep, ConsumeIntentStep, ConsumeStep, CreateDraftStep,
         FundStep, IssueStep, Leave, OpenStep, ResolveStep, ReviewStep, ScheduleStep, SubmitStep, TransitionStep;
    ExtendsIsReflexive(t);
    match op
    case CreateDraft(req) => CreateDraftExtends(t, req);
    case Transition(req) => TransitionExtends(t, req);
    case Configure(req) => ConfigureExtends(t, req);
    case ApplyForMission(req) => ApplyExtends(t, req);
    case Accept(req) => if Joins(t, req.applicationId) { LeaveExtends(t, req.applicationId, AppAccepted, ConvertedReservation, SlotAccepted); }
    case Withdraw(req) => if Joins(t, req.applicationId) { LeaveExtends(t, req.applicationId, AppWithdrawn, ReleasedReservation, Available); }
    case Schedule(req) => ScheduleExtends(t, req);
    case IssueChallenge(req) => IssueExtends(t, req);
    case ConsumeChallenge(req) => ConsumeExtends(t, req);
    case Submit(req) => SubmitExtends(t, req);
    case Review(req) => ReviewExtends(t, req);
    case AutoApprove(req) => AutoApproveExtends(t, req);
    case OpenDispute(req) => OpenExtends(t, req);
    case ResolveDispute(req) => ResolveExtends(t, req);
    case Fund(funding) => FundExtends(t, funding);
    case ConsumeIntent(a) => ConsumeIntentExtends(t, a);
    case Adjust(publicId, isFinanceOperator, adjustment) => AdjustExtends(t, publicId, isFinanceOperator, adjustment);
  }

  lemma {:induction false} RunExtends(t: Tables, ops: seq<Op>)
    ensures Extends(Run(t, ops), t)
    decreases |ops|
  {
    if ops != [] {
      StepExtends(t, ops[0]);
      RunExtends(Perform(t, ops[0]), ops[1..]);
      ExtendsIsTransitive(t, Perform(t, ops[0]), Run(t, ops));
    }
  }
}
