/** A run of the marketplace from empty tables to a submitted mission, step by step. */
module SampleMission {
  import opened Wrappers
  import opened MarketTables
  import opened Sorting
  import opened FeeAllocation
  import opened Campaigns
  import opened Applications
  import opened CheckIns
  import opened Submissions
  import opened Ledger
  import LedgerAccounts
  import MissionLockstep
  import opened Market
  import opened MarketResults

  const TOKEN := "0123456789abcdef0123456789abcdef"

  function CampaignRow(status: CampaignStatus, version: int): Campaign {
    Campaign("b", "Brunch", 100, 15, 115, "USD", 1, status, version)
  }

  function SlotRowOf(status: SlotStatus, version: int): Slot {
    Slot("s", Community, 100, "USD", status, version)
  }

  // ----- a step leads from a reachable state to a reachable state

  lemma AfterDraft(t: Tables, req: DraftRequest)
    requires Reachable(t)
    ensures Reachable(TablesAfter(t, CreateDraftStep(t, req)))
  {
    hide Reachable, CreateDraftStep;
    Then(t, CreateDraft(req));
  }

  lemma AfterConfigure(t: Tables, req: ConfigureRequest)
    requires Reachable(t)
    ensures Reachable(TablesAfter(t, ConfigureStep(t, req)))
  {
    hide Reachable, ConfigureStep;
    Then(t, Configure(req));
  }

  lemma AfterTransition(t: Tables, req: TransitionRequest)
    requires Reachable(t)
    ensures Reachable(TablesAfter(t, TransitionStep(t, req)))
  {
    hide Reachable, TransitionStep;
    Then(t, Transition(req));
  }

  lemma AfterFunding(t: Tables, funding: FundingRequest)
    requires Reachable(t)
    ensures Reachable(TablesAfter(t, FundStep(t, funding)))
  {
    hide Reachable, FundStep;
    Then(t, Fund(funding));
  }

  lemma AfterApplying(t: Tables, req: ApplyRequest)
    requires Reachable(t)
    ensures Reachable(TablesAfter(t, ApplyStep(t, req)))
  {
    hide Reachable, ApplyStep;
    Then(t, ApplyForMission(req));
  }

  lemma AfterAccepting(t: Tables, req: AcceptRequest)
    requires Reachable(t)
    ensures Reachable(TablesAfter(t, AcceptStep(t, req)))
  {
    hide Reachable, AcceptStep;
    Then(t, Accept(req));
  }

  lemma AfterScheduling(t: Tables, req: ScheduleRequest)
    requires Reachable(t)
    ensures Reachable(TablesAfter(t, ScheduleStep(t, req)))
  {
    hide Reachable, ScheduleStep;
    Then(t, Op.Schedule(req));
  }

  lemma AfterIssuing(t: Tables, req: IssueRequest)
    requires Reachable(t)
    ensures Reachable(TablesAfter(t, IssueStep(t, req)))
  {
    hide Reachable, IssueStep;
    Then(t, Op.IssueChallenge(req));
  }

  lemma AfterCheckingIn(t: Tables, req: ConsumeRequest)
    requires Reachable(t)
    ensures Reachable(TablesAfter(t, ConsumeStep(t, req)))
  {
    hide Reachable, ConsumeStep;
    Then(t, Op.ConsumeChallenge(req));
  }

  lemma AfterSubmitting(t: Tables, req: SubmitRequest)
    requires Reachable(t)
    ensures Reachable(TablesAfter(t, SubmitStep(t, req)))
  {
    hide Reachable, SubmitStep;
    Then(t, Op.Submit(req));
  }

  lemma AfterReviewing(t: Tables, req: ReviewRequest)
    requires Reachable(t)
    ensures Reachable(TablesAfter(t, ReviewStep(t, req)))
  {
    hide Reachable, ReviewStep;
    Then(t, Op.Review(req));
  }

  // ----- the run

  lemma Drafted() returns (t: Tables)
    ensures Reachable(t)
    ensures t == EMPTY_TABLES.(campaigns := map["c" := CampaignRow(Draft, 1)], requests := t.requests)
    ensures t.requests.Keys == {(CREATE_DRAFT, "1")}
  {
    var req := DraftRequest("o", true, "1", "b", "c", "Brunch", 100, 15, 115, "USD", 1);
    assert Reachable(EMPTY_TABLES) by { assert Run(EMPTY_TABLES, []) == EMPTY_TABLES; }
    assert IsCurrencyCode("USD");
    assert CampaignChecks(req.Row());
    hide Perform, Reachable;
    t := TablesAfter(EMPTY_TABLES, CreateDraftStep(EMPTY_TABLES, req));
    AfterDraft(EMPTY_TABLES, req);
  }

  lemma Configured() returns (t: Tables)
    ensures Reachable(t)
    ensures t == EMPTY_TABLES.(campaigns := map["c" := CampaignRow(Draft, 1)], contracts := map["c" := [SlotRowOf(Available, 1)]],
                               requests := t.requests)
    ensures t.requests.Keys == {(CREATE_DRAFT, "1")}
  {
    var before := Drafted();
    var slot := SlotInput("s", 1, CommunityType, 100, 0, None, None, None, "USD");
    var req := ConfigureRequest("c", true, true, "Visit us", [slot]);
    Singleton(slot, OrdinalAtMost, InputReward);
    Singleton(slot, OrdinalAtMost, OneIfCommunityInput);
    Singleton(1, AtMost, x => x);
    assert Map([slot], OrdinalOf) == [1] == seq(1, i => i + 1);
    assert SlotContract([slot], before.campaigns["c"]);
    assert SlotInserts(map[], [slot][..0], slot);
    assert SlotsInsert(map[], [slot]);
    assert !Blank("Visit us") by { assert 'V' == "Visit us"[0] && 'V' in "Visit us"; }
    assert Rows([slot]) == [SlotRowOf(Available, 1)];
    hide Perform, Reachable;
    t := TablesAfter(before, ConfigureStep(before, req));
    AfterConfigure(before, req);
  }

  lemma InReview() returns (t: Tables)
    ensures Reachable(t)
    ensures t == EMPTY_TABLES.(campaigns := map["c" := CampaignRow(Submitted, 2)], contracts := map["c" := [SlotRowOf(Available, 1)]],
                               requests := t.requests)
    ensures t.requests.Keys == {(CREATE_DRAFT, "1"), (TRANSITION, "2")}
  {
    var before := Configured();
    var submit := TransitionRequest("o", true, "2", "c", 1, None, Submitted, 1);
    Singleton(SlotRowOf(Available, 1), (x, y) => true, OneIfCommunity);
    Singleton(SlotRowOf(Available, 1), (x, y) => true, RewardOf);
    assert ContractComplete(before, "c", 1);
    hide Perform, Reachable, ContractComplete;
    t := TablesAfter(before, TransitionStep(before, submit));
    AfterTransition(before, submit);
  }

  lemma Approved() returns (t: Tables)
    ensures Reachable(t)
    ensures t == EMPTY_TABLES.(campaigns := map["c" := CampaignRow(CampaignStatus.Approved, 3)],
                               contracts := map["c" := [SlotRowOf(Available, 1)]], requests := t.requests)
    ensures t.requests.Keys == {(CREATE_DRAFT, "1"), (TRANSITION, "2"), (TRANSITION, "3")}
  {
    hide Perform, Reachable, ContractComplete;
    var before := InReview();
    var approve := TransitionRequest("o", true, "3", "c", 2, None, CampaignStatus.Approved, 1);
    t := TablesAfter(before, TransitionStep(before, approve));
    AfterTransition(before, approve);
  }

  const FUNDING := FundingRequest("c", 0, "f", "ledger_fin_d", "stripe", "acct", "evt", "pi", "r", "g")

  lemma OneSlotAllocation(t: Tables)
    requires t.contracts == map["c" := [SlotRowOf(Available, 1)]]
    ensures AllocationsFor(t, CampaignRow(CampaignStatus.Approved, 3), "c") == Some([Allocation(100, 15, 115, "USD")])
  {
    var slots := [SlotRowOf(Available, 1)];
    var rows := SlotRows(slots);
    assert rows == [SlotRow("s", 1, 100)];
    Singleton(SlotRowOf(Available, 1), (x, y) => true, RewardOf);
    Singleton(rows[0], RanksBefore, Reward);
    Singleton(rows[0], RanksBefore, FloorFee);
    var fees := AllocateFifteenPercentFee(rows, 15).value;
    assert Ranked(rows)[..0] == [];
    assert fees == [SlotFee(rows[0], 15)];
    assert Allocations(fees, "USD") == [Allocation(100, 15, 115, "USD")];
  }

  lemma NotBlank(s: string)
    requires |s| > 0 && s[0] != ' '
    ensures !Blank(s)
  {
    assert s[0] in s;
  }

  /** The journal of the campaign's funding, under the public id that the funding asked for. */
  predicate Paid(t: Tables) {
    ProviderFunding("evt") in t.journals && t.journals[ProviderFunding("evt")].publicId == FUNDING.transactionPublicId
  }

  /** The tables of a mission's campaign, before any application. */
  predicate Bare(t: Tables, status: CampaignStatus, version: int) {
    && t.campaigns == map["c" := CampaignRow(status, version)]
    && t.contracts == map["c" := [SlotRowOf(Available, 1)]]
    && t.applications == map[] && t.reservations == map[] && t.assignments == map[] && t.challenges == map[] && t.checkIns == map[]
    && t.submissions == map[] && t.disputes == map[] && t.intents == map[]
    && (TRANSITION, "4") !in t.requests
    && Paid(t)
  }

  lemma FundingIsRecorded(t: Tables)
    requires t.snapshots == map[] && t.journals == map[] && t.accounts == map[] && t.campaigns == map["c" := CampaignRow(CampaignStatus.Approved, 3)]
    ensures var step := RecordFundingStep(t, t.campaigns["c"], FUNDING, [Allocation(100, 15, 115, "USD")]);
            step.Committed? && Paid(step.tables) && step.tables.campaigns == map["c" := CampaignRow(Funded, 4)]
            && step.tables == t.(campaigns := step.tables.campaigns, snapshots := step.tables.snapshots, allocations := step.tables.allocations,
                                 accounts := step.tables.accounts, journals := step.tables.journals, entries := step.tables.entries)
  {
    NotBlank("acct");
    NotBlank("pi");
    NotBlank("evt");
    NotBlank("g");
    assert SnapshotRefusal(t.snapshots, t.campaigns["c"], FUNDING) == None;
    LedgerAccounts.KindShowsInId(ProviderClearing("USD"));
    LedgerAccounts.KindShowsInId(CampaignFunds("c", "USD"));
    hide Blank, AccountId, SnapshotRefusal, FundingEntries;
  }

  lemma PaidFor() returns (t: Tables)
    ensures Reachable(t) && Bare(t, Funded, 4)
  {
    var before := Approved();
    OneSlotAllocation(before);
    FundingIsRecorded(before);
    hide AllocationsFor, RecordFundingStep, Perform, Reachable;
    t := TablesAfter(before, FundStep(before, FUNDING));
    AfterFunding(before, FUNDING);
  }

  lemma OnOffer() returns (t: Tables)
    ensures Reachable(t) && Bare(t.(requests := map[]), Published, 5)
  {
    var before := PaidFor();
    var publish := TransitionRequest("o", true, "4", "c", 4, None, Published, 1);
    hide ContractComplete, Perform, Reachable;
    t := TablesAfter(before, TransitionStep(before, publish));
    AfterTransition(before, publish);
  }

  const SLOT := SlotRef("c", 0)

  /** The creator "u" holds the slot by an accepted application. */
  predicate Taken(t: Tables) {
    && t.campaigns == map["c" := CampaignRow(Published, 5)]
    && t.contracts.Keys == {"c"} && SlotIs(t.contracts, SLOT, SlotAccepted)
    && t.applications == map["a" := Application("c", "u", AppAccepted, 2)]
    && t.reservations == map["a" := Reservation(SLOT, ConvertedReservation)]
    && t.intents == map[]
    && Paid(t)
  }

  lemma Asked() returns (t: Tables)
    ensures Reachable(t)
    ensures t.campaigns == map["c" := CampaignRow(Published, 5)] && t.contracts == map["c" := [SlotRowOf(Reserved, 2)]]
    ensures t.applications == map["a" := Application("c", "u", AppSubmitted, 1)]
    ensures t.reservations == map["a" := Reservation(SLOT, ActiveReservation)]
    ensures t.intents == map[] && t.assignments == map[] && t.challenges == map[] && t.checkIns == map[] && t.submissions == map[] && t.disputes == map[]
    ensures Paid(t)
  {
    var before := OnOffer();
    var apply := ApplyRequest("c", "u", "a", None, CommunityMission, true, {});
    assert Applications.Open(before.contracts["c"], apply, 0);
    assert OpenSlot(before, apply) == Some(0);
    assert [SlotRowOf(Available, 1)][0 := SlotRowOf(Reserved, 2)] == [SlotRowOf(Reserved, 2)];
    assert MoveSlot(before.contracts, SLOT, Available, Reserved) == map["c" := [SlotRowOf(Reserved, 2)]];
    hide Perform, Reachable, MoveSlot;
    t := TablesAfter(before, ApplyStep(before, apply));
    AfterApplying(before, apply);
  }

  lemma Hired() returns (t: Tables)
    ensures Reachable(t) && Taken(t)
    ensures t.assignments == map[] && t.challenges == map[] && t.checkIns == map[] && t.submissions == map[] && t.disputes == map[]
  {
    var before := Asked();
    var accept := AcceptRequest("a", true);
    assert MoveSlot(before.contracts, SLOT, Reserved, SlotAccepted).Keys == {"c"};
    MissionLockstep.MoveSlotChangesOneSlot(before.contracts, SLOT, Reserved, SlotAccepted);
    hide Perform, Reachable, MoveSlot;
    t := TablesAfter(before, AcceptStep(before, accept));
    AfterAccepting(before, accept);
  }

  const MISSION := Assignment(SLOT, "u", "v", 0, 1000000, Scheduled, 1)

  lemma ScheduledMission() returns (t: Tables)
    ensures Reachable(t) && Taken(t) && t.challenges == map[] && t.checkIns == map[] && t.submissions == map[] && t.disputes == map[]
    ensures t.assignments == map["a" := MISSION]
  {
    hide Perform, Reachable;
    var before := Hired();
    var schedule := ScheduleRequest("a", true, "v", true, 0, 1000000, "UTC");
    assert !NoText("UTC") by { assert 'U' == "UTC"[0] && 'U' in "UTC"; }
    hide NoText;
    t := TablesAfter(before, ScheduleStep(before, schedule));
    AfterScheduling(before, schedule);
  }

  lemma ChallengedMission() returns (t: Tables)
    ensures Reachable(t) && Taken(t) && t.checkIns == map[] && t.submissions == map[] && t.disputes == map[]
    ensures t.assignments == map["a" := MISSION] && t.challenges == map["ch" := Challenge("a", TOKEN, ChallengeActive, 100000)]
  {
    var before := ScheduledMission();
    var issue := IssueRequest("a", true, 10, 100000, QrCode, None, "ch", TOKEN);
    assert RevokeActive(before.challenges, "a") == map[] && !TokenTaken(before.challenges, TOKEN);
    hide Perform, Reachable, RevokeActive, TokenTaken, NoText;
    t := TablesAfter(before, IssueStep(before, issue));
    AfterIssuing(before, issue);
  }

  predicate Working(t: Tables) {
    Taken(t) && t.disputes == map[] && t.assignments == map["a" := MISSION.(status := CheckedIn, version := 2)]
  }

  lemma CheckedInMission() returns (t: Tables)
    ensures Reachable(t) && Working(t) && t.submissions == map[]
  {
    var before := ChallengedMission();
    var consume := ConsumeRequest("ch", TOKEN, "u", "v", 20);
    hide Perform, Reachable;
    t := TablesAfter(before, ConsumeStep(before, consume));
    AfterCheckingIn(before, consume);
  }

  lemma SubmittedMission() returns (t: Tables)
    ensures Reachable(t) && Working(t) && t.submissions == map["a" := [Submission(UnderReview, 30 + FORTY_EIGHT_HOURS, None, 1)]]
  {
    var before := CheckedInMission();
    var submit := SubmitRequest("a", "u", 30, true, true);
    assert Attempts(before.submissions, "a") + [Submission(UnderReview, 30 + FORTY_EIGHT_HOURS, None, 1)]
           == [Submission(UnderReview, 30 + FORTY_EIGHT_HOURS, None, 1)];
    hide Perform, Reachable;
    t := TablesAfter(before, SubmitStep(before, submit));
    AfterSubmitting(before, submit);
  }
}
