/** A campaign that no funding can pass: it is drafted, configured, submitted and approved, its fee is the disclosed one,
    but one of its slots is too small to get any of it. */
module UnfundableCampaign {
  import opened Wrappers
  import opened MarketTables
  import opened Sorting
  import opened FeeAllocation
  import opened Campaigns
  import opened Applications
  import opened CheckIns
  import opened Submissions
  import opened Disputes
  import opened Ledger
  import LedgerConservation
  import MissionLockstep
  import opened CampaignContracts
  import opened Market
  import opened MarketHistory
  import opened MarketTerms
  import opened MarketResults
  import opened SampleMission

  // ----- once approved unfundable, never funded

  /** Approved, or canceled since, with a fee that does not reach every slot. */
  predicate Unfundable(t: Tables, c: Id) {
    && c in t.campaigns && t.campaigns[c].status in {CampaignStatus.Approved, Canceled}
    && c in t.contracts && !FeeReachesEverySlot(t.campaigns[c], t.contracts[c])
  }

  lemma FundingIsRefused(t: Tables, c: Id)
    requires Reachable(t) && Unfundable(t, c)
    ensures !SomeFundingCommits(t, c)
  {
    hide FeeReachesEverySlot, AllocationsFor, RecordFundingStep, LedgerConservation.LedgerHolds, MissionLockstep.MissionsHold, ContractsHold;
    if t.campaigns[c].status == CampaignStatus.Approved {
      hide SomeFundingCommits;
      ApprovedCampaignIsFundableExactlyWhen(t, c);
    } else {
      CanceledHasNoSnapshot(t, c);
    }
  }

  lemma CanceledHasNoSnapshot(t: Tables, c: Id)
    requires Reachable(t) && c in t.campaigns && t.campaigns[c].status == Canceled
    ensures c !in t.snapshots
  {
    ReachableHolds(t);
    hide LedgerConservation.EntriesHold, MissionLockstep.MissionsHold, ContractsHold;
  }

  /** A campaign's status changes only by an allowed transition, or by its funding. */
  lemma StatusMoves(t: Tables, op: Op, c: Id)
    requires c in t.campaigns
    ensures var after := Perform(t, op).campaigns;
            && c in after
            && (|| after[c].status == t.campaigns[c].status
                || (op.Transition? && after[c].status in AllowedTransitions(t.campaigns[c].status))
                || (op.Fund? && op.funding.campaignId == c && FundStep(t, op.funding).Committed?))
  {
    hide AdjustStep, ApplyStep, AutoApproveStep, ConfigureStep, ConsumeIntentStep, ConsumeStep, IssueStep, Leave, OpenStep,
         ResolveStep, ReviewStep, ScheduleStep, SubmitStep, TransitionStep, AllocationsFor, RecordFundingStep;
    match op
    case Transition(req) => TransitionChangesStatus(t, req);
    case CreateDraft(_) =>
    case Fund(funding) => FundingChangesOneCampaign(t, funding);
    case _ => StepExtends(t, op);
  }

  lemma FundingChangesOneCampaign(t: Tables, funding: FundingRequest)
    ensures var step := FundStep(t, funding);
            step.Committed? ==> step.tables.campaigns == t.campaigns
                                || step.tables.campaigns == t.campaigns[funding.campaignId := step.tables.campaigns[funding.campaignId]]
  {
    hide AllocationsFor, SnapshotRefusal, AccountUsable, EnsureAccount, FundingEntries, TransactionIdTaken, AllocationChecks;
  }

  lemma TermsDecideFunding(before: Tables, after: Tables, c: Id)
    requires TermsKept(before, after) && c in before.campaigns && c in before.contracts
    ensures c in after.campaigns && c in after.contracts
    ensures FeeReachesEverySlot(after.campaigns[c], after.contracts[c]) <==> FeeReachesEverySlot(before.campaigns[c], before.contracts[c])
  {
    forall i | 0 <= i < |before.contracts[c]| ensures SlotRows(after.contracts[c])[i] == SlotRows(before.contracts[c])[i] {
      assert SameSlot(after.contracts[c][i], before.contracts[c][i]);
    }
    assert SlotRows(after.contracts[c]) == SlotRows(before.contracts[c]);
    assert SameTerms(after.campaigns[c], before.campaigns[c]);
    hide EverySlotPays, SlotRows;
  }

  lemma StaysUnfundable(t: Tables, op: Op, c: Id)
    requires Reachable(t) && Unfundable(t, c)
    ensures Unfundable(Perform(t, op), c) && Reachable(Perform(t, op))
  {
    hide Perform, FundStep, TermsKept, FeeReachesEverySlot, Reachable;
    Then(t, op);
    FundingIsRefused(t, c);
    StatusMoves(t, op, c);
    OneStepRun(t, op);
    RunKeepsTerms(t, [op]);
    TermsDecideFunding(t, Perform(t, op), c);
  }

  /** An approved campaign whose fee does not reach every slot is never funded, whatever happens to it. */
  lemma {:induction false} UnfundableForEver(t: Tables, c: Id, ops: seq<Op>)
    requires Reachable(t) && Unfundable(t, c)
    ensures Unfundable(Run(t, ops), c) && !SomeFundingCommits(Run(t, ops), c)
    decreases |ops|
  {
    hide Perform, Unfundable, Reachable, SomeFundingCommits;
    if ops == [] {
      FundingIsRefused(t, c);
    } else {
      StaysUnfundable(t, ops[0], c);
      UnfundableForEver(Perform(t, ops[0]), c, ops[1..]);
    }
  }

  // ----- a run that gets there

  const SMALL := SlotInput("small", 1, CommunityType, 1, 0, None, None, None, "USD")

  const LARGE := SlotInput("large", 2, CommunityType, 99, 0, None, None, None, "USD")

  function Row(status: CampaignStatus, version: int): Campaign {
    Campaign("b", "Brunch", 100, 15, 115, "USD", 2, status, version)
  }

  lemma SlotsGoIn()
    ensures SlotsInsert(map[], [SMALL, LARGE])
  {
    assert SlotInserts(map[], [SMALL, LARGE][..0], SMALL);
    assert [SMALL, LARGE][..1] == [SMALL] && SlotInserts(map[], [SMALL, LARGE][..1], LARGE);
  }

  lemma SlotsInOrder()
    ensures Sort([SMALL, LARGE], OrdinalAtMost) == [SMALL, LARGE] && Rows([SMALL, LARGE]) == [SMALL.Row(), LARGE.Row()]
    ensures Sort(Map([SMALL, LARGE], OrdinalOf), AtMost) == seq(2, i => i + 1)
  {
    Pair(SMALL, LARGE, OrdinalAtMost, InputReward);
    Pair(1, 2, AtMost, x => x);
    assert Map([SMALL, LARGE], OrdinalOf) == [1, 2] == seq(2, i => i + 1);
    hide Sort, AtMost, OrdinalAtMost;
  }

  lemma TwoSlots()
    ensures SlotContract([SMALL, LARGE], Row(Draft, 1))
    ensures SlotsReconcile(Row(Draft, 1), [SMALL.Row(), LARGE.Row()])
  {
    SlotsInOrder();
    hide Sort, Map, AtMost, OrdinalAtMost;
    Pair(SMALL, LARGE, (x, y) => true, InputReward);
    Pair(SMALL, LARGE, (x, y) => true, OneIfCommunityInput);
    Pair(SMALL.Row(), LARGE.Row(), (x, y) => true, OneIfCommunity);
    Pair(SMALL.Row(), LARGE.Row(), (x, y) => true, RewardOf);
  }

  lemma TheLargeSlotTakesTheCent()
    ensures !FeeReachesEverySlot(Row(CampaignStatus.Approved, 3), [SMALL.Row(), LARGE.Row()])
  {
    var small, large := SlotRow("small", 1, 1), SlotRow("large", 2, 99);
    var rows := SlotRows([SMALL.Row(), LARGE.Row()]);
    assert rows == [small, large] && small in rows;
    Pair(small, large, (x, y) => true, Remainder);
    Pair(small, large, (x, y) => true, OneIfAhead(small));
  }

  lemma Prepared() returns (t: Tables)
    ensures Reachable(t) && t.campaigns == map["c" := Row(Draft, 1)] && t.contracts == map["c" := [SMALL.Row(), LARGE.Row()]]
    ensures t.requests.Keys == {(CREATE_DRAFT, "1")}
  {
    var draft := DraftRequest("o", true, "1", "b", "c", "Brunch", 100, 15, 115, "USD", 2);
    assert Reachable(EMPTY_TABLES) by { assert Run(EMPTY_TABLES, []) == EMPTY_TABLES; }
    assert IsCurrencyCode("USD");
    assert CampaignChecks(draft.Row());
    AfterDraft(EMPTY_TABLES, draft);
    var drafted := TablesAfter(EMPTY_TABLES, CreateDraftStep(EMPTY_TABLES, draft));
    assert drafted.campaigns == map["c" := Row(Draft, 1)] && drafted.contracts == map[];
    var configure := ConfigureRequest("c", true, true, "Visit us", [SMALL, LARGE]);
    TwoSlots();
    SlotsInOrder();
    SlotsGoIn();
    NotBlank("Visit us");
    hide Perform, Reachable, SlotContract, SlotsInsert, Rows, CreateDraftStep, Blank;
    t := TablesAfter(drafted, ConfigureStep(drafted, configure));
    AfterConfigure(drafted, configure);
  }

  /** From empty tables, a campaign is approved that no funding can pass, now or later, although its fee is the disclosed
      one and the apportionment succeeds. */
  lemma ApprovedCampaignCanBeUnfundable() returns (t: Tables)
    ensures Reachable(t) && "c" in t.campaigns && t.campaigns["c"].status == CampaignStatus.Approved
    ensures AllocationsFor(t, t.campaigns["c"], "c").Some?
    ensures forall ops :: !SomeFundingCommits(Run(t, ops), "c")
  {
    t := ApprovedSmallSlot();
    hide Perform, Reachable, Unfundable, SomeFundingCommits, AllocationsFor;
    forall ops ensures !SomeFundingCommits(Run(t, ops), "c") {
      UnfundableForEver(t, "c", ops);
    }
    DisclosedFeeAllocates(t);
  }

  lemma DisclosedFeeAllocates(t: Tables)
    requires Reachable(t) && t.campaigns == map["c" := Row(CampaignStatus.Approved, 3)]
    ensures AllocationsFor(t, t.campaigns["c"], "c").Some?
  {
    hide LedgerConservation.LedgerHolds, MissionLockstep.MissionsHold, AllocationsFor, ContractsHold;
    ReachableHolds(t);
    AllocationNeedsTheDisclosedFee(t, "c");
  }

  lemma SubmittedSmallSlot() returns (t: Tables)
    ensures Reachable(t) && t.campaigns == map["c" := Row(Submitted, 2)] && t.contracts == map["c" := [SMALL.Row(), LARGE.Row()]]
    ensures (TRANSITION, "3") !in t.requests
  {
    var before := Prepared();
    TwoSlots();
    hide Perform, Reachable, SlotsReconcile;
    var submit := TransitionRequest("o", true, "2", "c", 1, None, Submitted, 1);
    AfterTransition(before, submit);
    t := TablesAfter(before, TransitionStep(before, submit));
  }

  lemma ApprovedSmallSlot() returns (t: Tables)
    ensures Reachable(t) && t.campaigns == map["c" := Row(CampaignStatus.Approved, 3)] && Unfundable(t, "c")
  {
    var before := SubmittedSmallSlot();
    TheLargeSlotTakesTheCent();
    hide Perform, Reachable, FeeReachesEverySlot, ContractComplete;
    var approve := TransitionRequest("o", true, "3", "c", 2, None, CampaignStatus.Approved, 1);
    t := TablesAfter(before, TransitionStep(before, approve));
    AfterTransition(before, approve);
  }
}
