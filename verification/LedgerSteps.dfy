/** Every posting keeps the ledger's invariants. */
module LedgerSteps {
  import opened Wrappers
  import opened MarketTables
  import opened Sorting
  import opened FeeAllocation
  import opened Ledger
  import opened LedgerAccounts
  import opened LedgerConservation
  import opened MissionLockstep
  import opened Applications
  import Campaigns
  import CampaignContracts

  // ----- finance adjustments

  /** The two entries of an adjustment journal. */
  function AdjustmentPair(publicId: Id, amount: int, currency: string, debit: Account, credit: Account): seq<Entry> {
    [Entry(AdjustmentSource(publicId), debit, Debit, amount, currency, None),
     Entry(AdjustmentSource(publicId), credit, Credit, amount, currency, None)]
  }

  lemma AdjustmentKeepsEntries(snapshots: map<Id, Snapshot>, allocations: map<Id, seq<Allocation>>, accounts: map<string, Account>,
                               journals: map<Source, Journal>, entries: seq<Entry>, completed: set<SlotRef>, refunded: set<SlotRef>,
                               publicId: Id, journal: Journal, debit: Account, credit: Account)
    requires allocations.Keys == snapshots.Keys && EntriesHold(snapshots, allocations, accounts, journals, entries, completed, refunded)
    requires AccountId(debit) in accounts && accounts[AccountId(debit)] == debit
    requires AccountId(credit) in accounts && accounts[AccountId(credit)] == credit
    requires AdjustmentSource(publicId) !in journals && journal.total > 0
    ensures EntriesHold(snapshots, allocations, accounts, journals[AdjustmentSource(publicId) := journal],
                        entries + AdjustmentPair(publicId, journal.total, journal.currency, debit, credit), completed, refunded)
  {
    hide Balanced, DebitedOnce, Conserved;
    var source, added := AdjustmentSource(publicId), AdjustmentPair(publicId, journal.total, journal.currency, debit, credit);
    NewEntriesAreSound(entries, added, accounts, snapshots, journals, accounts, snapshots, journals[source := journal]);
    SumOfTwo(added[0], added[1], SideOf(source, Debit));
    SumOfTwo(added[0], added[1], SideOf(source, Credit));
    NewJournalKeepsBalanced(entries, journals, source, journal, added);
    EntriesWithoutSlotKeepDebitedOnce(entries, completed + refunded, added);
    forall c | c in snapshots ensures Conserved(c, snapshots[c], allocations[c], entries + added, completed, refunded) {
      UnrelatedEntriesKeepConserved(c, snapshots[c], allocations[c], entries, completed, refunded, added);
    }
  }

  lemma NewAdjustmentKeepsLedger(t: Tables, publicId: Id, journal: Journal, debit: string, credit: string)
    requires LedgerHolds(t) && debit in t.accounts && credit in t.accounts
    requires AdjustmentSource(publicId) !in t.journals && journal.total > 0 && journal.kind == FinanceAdjustment
    ensures LedgerHolds(t.(journals := t.journals[AdjustmentSource(publicId) := journal],
                           entries := t.entries + AdjustmentPair(publicId, journal.total, journal.currency, t.accounts[debit], t.accounts[credit])))
  {
    hide EntriesHold, SnapshotSound, PostedSlots;
    AdjustmentKeepsEntries(t.snapshots, t.allocations, t.accounts, t.journals, t.entries,
                           PostedSlots(t.assignments, t.intents, CreatorPayableFull), PostedSlots(t.assignments, t.intents, SlotRefundFull),
                           publicId, journal, t.accounts[debit], t.accounts[credit]);
  }

  lemma AdjustKeepsLedger(t: Tables, publicId: Id, isFinanceOperator: bool, request: AdjustmentRequest)
    requires LedgerHolds(t)
    ensures LedgerHolds(TablesAfter(t, AdjustStep(t, publicId, isFinanceOperator, request)))
  {
    hide LedgerHolds;
    var step := AdjustStep(t, publicId, isFinanceOperator, request);
    if step.Committed? && step.tables != t {
      NewAdjustmentKeepsLedger(t, publicId, step.value, request.debitAccountId, request.creditAccountId);
    }
  }

  // ----- campaign funding

  lemma {:induction false} TotalsAddUp(allocations: seq<Allocation>)
    requires forall i :: 0 <= i < |allocations| ==> allocations[i].total == allocations[i].reward + allocations[i].platformFee
    ensures Sum(allocations, TotalPart) == Sum(allocations, RewardPart) + Sum(allocations, FeePart)
  {
    if allocations != [] {
      TotalsAddUp(allocations[1..]);
    }
  }

  lemma RowsAreAllocatable(slots: seq<Slot>)
    requires forall i :: 0 <= i < |slots| ==> slots[i].reward > 0
    requires DistinctBy(slots, CampaignContracts.IdOfSlot)
    ensures NonNegativeRewards(SlotRows(slots)) && DistinctIds(SlotRows(slots))
    ensures Sum(SlotRows(slots), Reward) == Sum(slots, Campaigns.RewardOf)
  {
    var rows := SlotRows(slots);
    assert forall i :: 0 <= i < |rows| ==> rows[i].id == CampaignContracts.IdOfSlot(slots[i]);
    SumPointwise(SlotRows(slots), slots, Reward, Campaigns.RewardOf);
  }

  /** What the allocation of a sound contract comes to: every slot in its place, adding up to what is due. */
  lemma AllocationsAreSound(t: Tables, campaign: Campaign, c: Id, allocations: seq<Allocation>, funding: FundingRequest)
    requires c in t.contracts && CampaignContracts.ContractSound(campaign, t.contracts[c]) && Campaigns.CampaignChecks(campaign)
    requires AllocationsFor(t, campaign, c) == Some(allocations)
    requires forall allocation <- allocations :: AllocationChecks(allocation)
    ensures SnapshotSound(campaign, t.contracts[c],
                          Snapshot(campaign.rewardPool, campaign.platformFee, campaign.totalDue, campaign.currency, funding), allocations)
  {
    var slots := t.contracts[c];
    RowsAreAllocatable(slots);
    var fees := AllocateFifteenPercentFee(SlotRows(slots), campaign.platformFee).value;
    AllocationShape(SlotRows(slots), campaign.platformFee, fees);
    FeesSumToThePlatformFee(SlotRows(slots), campaign.platformFee, fees);
    forall i | 0 <= i < |slots| ensures allocations[i] == AllocationOf(fees[i], campaign.currency) && AllocationSound(allocations[i], slots[i]) {
      assert allocations[i] in allocations;
    }
    SumPointwise(allocations, slots, RewardPart, Campaigns.RewardOf);
    SumPointwise(allocations, fees, FeePart, Fee);
    TotalsAddUp(allocations);
  }

  lemma NothingMovedBeforeFunding(entries: seq<Entry>, accounts: map<string, Account>, snapshots: map<Id, Snapshot>,
                                  journals: map<Source, Journal>, c: Id, currency: string)
    requires EntriesSound(entries, accounts, snapshots, journals) && AccountsHold(accounts, snapshots) && c !in snapshots
    ensures Sum(entries, FundedAndDrained(CampaignFunds(c, currency))) == 0
    ensures forall payee :: Sum(entries, PaidTo(payee, c)) == 0
  {
    forall i | 0 <= i < |entries| ensures entries[i].account != CampaignFunds(c, currency) {
      assert EntrySound(entries[i], accounts, snapshots, journals);
    }
    SumIsZero(entries, FundedAndDrained(CampaignFunds(c, currency)));
    forall payee ensures Sum(entries, PaidTo(payee, c)) == 0 {
      forall i | 0 <= i < |entries| ensures PaidTo(payee, c)(entries[i]) == 0 {
        assert EntrySound(entries[i], accounts, snapshots, journals);
      }
      SumIsZero(entries, PaidTo(payee, c));
    }
  }

  /** The two entries of a funding journal. */
  function FundingPair(c: Id, snapshot: Snapshot): seq<Entry> {
    var source := ProviderFunding(snapshot.funding.providerEventId);
    [Entry(source, ProviderClearing(snapshot.currency), Debit, snapshot.totalDue, snapshot.currency, None),
     Entry(source, CampaignFunds(c, snapshot.currency), Credit, snapshot.totalDue, snapshot.currency, None)]
  }

  lemma FundingStartsConserved(entries: seq<Entry>, c: Id, snapshot: Snapshot, allocations: seq<Allocation>,
                               completed: set<SlotRef>, refunded: set<SlotRef>)
    requires Sum(entries, FundedAndDrained(CampaignFunds(c, snapshot.currency))) == 0
    requires forall payee :: Sum(entries, PaidTo(payee, c)) == 0
    requires forall slot <- completed + refunded :: slot.campaignId != c
    ensures Conserved(c, snapshot, allocations, entries + FundingPair(c, snapshot), completed, refunded)
  {
    var added := FundingPair(c, snapshot);
    SumSplits(entries, added, FundedAndDrained(CampaignFunds(c, snapshot.currency)));
    SumOfTwo(added[0], added[1], FundedAndDrained(CampaignFunds(c, snapshot.currency)));
    forall payee: Payee ensures Sum(entries + added, PaidTo(payee, c)) == 0 {
      SumSplits(entries, added, PaidTo(payee, c));
      SumOfTwo(added[0], added[1], PaidTo(payee, c));
    }
    NothingWithin(allocations, c, 0, completed + refunded, TotalPart);
    NothingWithin(allocations, c, 0, completed, RewardPart);
    NothingWithin(allocations, c, 0, completed, FeePart);
    NothingWithin(allocations, c, 0, refunded, TotalPart);
  }

  lemma FundingKeepsAllConserved(snapshots: map<Id, Snapshot>, allocations: map<Id, seq<Allocation>>, entries: seq<Entry>,
                                 completed: set<SlotRef>, refunded: set<SlotRef>, c: Id, snapshot: Snapshot, parts: seq<Allocation>)
    requires allocations.Keys == snapshots.Keys && AllConserved(snapshots, allocations, entries, completed, refunded)
    requires c !in snapshots
    requires Sum(entries, FundedAndDrained(CampaignFunds(c, snapshot.currency))) == 0
    requires forall payee :: Sum(entries, PaidTo(payee, c)) == 0
    ensures AllConserved(snapshots[c := snapshot], allocations[c := parts], entries + FundingPair(c, snapshot), completed, refunded)
  {
    FundingStartsConserved(entries, c, snapshot, parts, completed, refunded);
    forall other | other in snapshots
      ensures Conserved(other, snapshots[other], allocations[other], entries + FundingPair(c, snapshot), completed, refunded)
    {
      UnrelatedEntriesKeepConserved(other, snapshots[other], allocations[other], entries, completed, refunded, FundingPair(c, snapshot));
    }
    hide Conserved;
  }

  lemma FundingPairBalances(c: Id, snapshot: Snapshot)
    ensures forall direction :: Sum(FundingPair(c, snapshot), SideOf(ProviderFunding(snapshot.funding.providerEventId), direction)) == snapshot.totalDue
  {
    var added, source := FundingPair(c, snapshot), ProviderFunding(snapshot.funding.providerEventId);
    forall direction ensures Sum(added, SideOf(source, direction)) == snapshot.totalDue {
      SumOfTwo(added[0], added[1], SideOf(source, direction));
    }
  }

  lemma FundingKeepsEntries(snapshots: map<Id, Snapshot>, allocations: map<Id, seq<Allocation>>, accounts: map<string, Account>,
                            journals: map<Source, Journal>, entries: seq<Entry>, completed: set<SlotRef>, refunded: set<SlotRef>,
                            c: Id, snapshot: Snapshot, parts: seq<Allocation>, journal: Journal, accounts': map<string, Account>)
    requires allocations.Keys == snapshots.Keys && EntriesHold(snapshots, allocations, accounts, journals, entries, completed, refunded)
    requires AccountsHold(accounts, snapshots) && c !in snapshots && snapshot.totalDue == journal.total > 0 && snapshot.currency == journal.currency
    requires ProviderFunding(snapshot.funding.providerEventId) !in journals
    requires forall id :: id in accounts ==> id in accounts' && accounts'[id] == accounts[id]
    requires AccountId(ProviderClearing(snapshot.currency)) in accounts' && Row(accounts', ProviderClearing(snapshot.currency)) == ProviderClearing(snapshot.currency)
    requires AccountId(CampaignFunds(c, snapshot.currency)) in accounts' && Row(accounts', CampaignFunds(c, snapshot.currency)) == CampaignFunds(c, snapshot.currency)
    ensures EntriesHold(snapshots[c := snapshot], allocations[c := parts], accounts',
                        journals[ProviderFunding(snapshot.funding.providerEventId) := journal], entries + FundingPair(c, snapshot),
                        completed, refunded)
  {
    var source, added := ProviderFunding(snapshot.funding.providerEventId), FundingPair(c, snapshot);
    NewEntriesAreSound(entries, added, accounts, snapshots, journals, accounts', snapshots[c := snapshot], journals[source := journal]);
    FundingPairBalances(c, snapshot);
    NewJournalKeepsBalanced(entries, journals, source, journal, added);
    EntriesWithoutSlotKeepDebitedOnce(entries, completed + refunded, added);
    NothingMovedBeforeFunding(entries, accounts, snapshots, journals, c, snapshot.currency);
    FundingKeepsAllConserved(snapshots, allocations, entries, completed, refunded, c, snapshot, parts);
    hide EntriesSound, Balanced, DebitedOnce, AllConserved;
  }

  lemma EnsuringKeepsAccounts(accounts: map<string, Account>, snapshots: map<Id, Snapshot>, account: Account)
    requires AccountsHold(accounts, snapshots) && |account.currency| == 3
    requires account.CampaignFunds? ==> account.campaignId in snapshots
    ensures AccountUsable(accounts, account) && Row(EnsureAccount(accounts, account), account) == account
    ensures forall id :: id in accounts ==> EnsureAccount(accounts, account)[id] == accounts[id]
    ensures AccountsHold(EnsureAccount(accounts, account), snapshots)
  {
    EnsuringNeverConflicts(accounts, account);
  }

  lemma EnsuringFundsKeepsAccounts(accounts: map<string, Account>, snapshots: map<Id, Snapshot>, c: Id, snapshot: Snapshot)
    requires AccountsHold(accounts, snapshots) && |snapshot.currency| == 3
    ensures var funds := CampaignFunds(c, snapshot.currency);
            && AccountUsable(accounts, funds) && Row(EnsureAccount(accounts, funds), funds) == funds
            && (forall id :: id in accounts ==> EnsureAccount(accounts, funds)[id] == accounts[id])
            && AccountsHold(EnsureAccount(accounts, funds), snapshots[c := snapshot])
  {
    EnsuringNeverConflicts(accounts, CampaignFunds(c, snapshot.currency));
  }

  lemma FundingKeepsSnapshots(t: Tables, c: Id, snapshot: Snapshot, allocations: seq<Allocation>, campaign: Campaign)
    requires SnapshotsHold(t.campaigns, t.contracts, t.snapshots, t.allocations)
    requires c in t.contracts && campaign.status == Funded && SnapshotSound(campaign, t.contracts[c], snapshot, allocations)
    ensures SnapshotsHold(t.campaigns[c := campaign], t.contracts, t.snapshots[c := snapshot], t.allocations[c := allocations])
  {
    hide SnapshotSound;
  }

  lemma FundingKeepsJournals(t: Tables, c: Id, snapshot: Snapshot, journal: Journal)
    requires JournalsHold(t.intents, t.snapshots, t.journals) && journal.request == FundingAsked(snapshot.funding)
    requires ProviderFunding(snapshot.funding.providerEventId) !in t.journals
    ensures JournalsHold(t.intents, t.snapshots[c := snapshot], t.journals[ProviderFunding(snapshot.funding.providerEventId) := journal])
  {
  }

  lemma StatusDoesNotMatterToSnapshots(campaign: Campaign, updated: Campaign, slots: seq<Slot>, snapshot: Snapshot, allocations: seq<Allocation>)
    requires SnapshotSound(campaign, slots, snapshot, allocations) && CampaignContracts.SameTerms(updated, campaign)
    ensures SnapshotSound(updated, slots, snapshot, allocations)
  {
  }

  lemma AcceptedSnapshot(snapshots: map<Id, Snapshot>, campaign: Campaign, funding: FundingRequest)
    requires SnapshotRefusal(snapshots, campaign, funding).None?
    ensures campaign.rewardPool > 0 && campaign.platformFee > 0 && funding.campaignId !in snapshots
  {
  }

  lemma FundKeepsLedger(t: Tables, funding: FundingRequest)
    requires LedgerHolds(t) && CampaignContracts.ContractsHold(t.campaigns, t.contracts)
    ensures LedgerHolds(TablesAfter(t, FundStep(t, funding)))
  {
    hide EntriesHold, SnapshotSound, JournalsHold, AccountsHold, PostedSlots, CampaignContracts.ContractSound,
         AllocationsFor, SnapshotRefusal;
    var step, c := FundStep(t, funding), funding.campaignId;
    if step.Committed? && step.tables != t {
      var campaign, snapshot, after := t.campaigns[c], step.value, step.tables;
      var journal := after.journals[ProviderFunding(funding.providerEventId)];
      AcceptedSnapshot(t.snapshots, campaign, funding);
      var clearing, funds := ProviderClearing(campaign.currency), CampaignFunds(c, campaign.currency);
      EnsuringKeepsAccounts(t.accounts, t.snapshots, clearing);
      EnsuringFundsKeepsAccounts(EnsureAccount(t.accounts, clearing), t.snapshots, c, snapshot);
      assert Row(after.accounts, clearing) == clearing;
      AllocationsAreSound(t, campaign, c, after.allocations[c], funding);
      StatusDoesNotMatterToSnapshots(campaign, after.campaigns[c], t.contracts[c], snapshot, after.allocations[c]);
      FundingKeepsSnapshots(t, c, snapshot, after.allocations[c], after.campaigns[c]);
      FundingKeepsJournals(t, c, snapshot, journal);
      FundingKeepsEntries(t.snapshots, t.allocations, t.accounts, t.journals, t.entries,
                          PostedSlots(t.assignments, t.intents, CreatorPayableFull), PostedSlots(t.assignments, t.intents, SlotRefundFull),
                          c, snapshot, after.allocations[c], journal, after.accounts);
    }
  }

  // ----- posting an intent

  lemma PostingMarksSlot(assignments: map<Id, Assignment>, intents: map<Id, Intent>, a: Id, posted: Intent, action: IntentAction)
    requires a in intents && a in assignments && intents[a].status == PendingLedger
    requires posted.status == Posted && posted.action == intents[a].action
    ensures PostedSlots(assignments, intents[a := posted], action)
            == Marked(PostedSlots(assignments, intents, action), assignments[a].slot, posted.action == action)
  {
    var before, after := PostedSlots(assignments, intents, action), PostedSlots(assignments, intents[a := posted], action);
    forall slot | slot in before ensures slot in after {
      var b :| b in intents && b in assignments && intents[b].status == Posted && intents[b].action == action && assignments[b].slot == slot;
      assert b != a;
    }
  }

  lemma IntentHoldsItsSlot(t: Tables, a: Id)
    requires Lockstep(t.campaigns, t.contracts, t.applications, t.reservations)
    requires Assigned(t.applications, t.reservations, t.assignments) && a in t.assignments
    ensures a in t.reservations && Live(t.reservations[a]) && t.reservations[a].slot == t.assignments[a].slot
  {
    assert Mirrors(t.assignments[a], t.applications[a], t.reservations[a]);
    assert InStep(t.campaigns, t.contracts, t.applications[a], t.reservations[a]);
  }

  lemma PendingSlotIsNotPosted(t: Tables, a: Id, action: IntentAction)
    requires MissionsHold(t) && a in t.intents && t.intents[a].status == PendingLedger
    ensures t.assignments[a].slot !in PostedSlots(t.assignments, t.intents, action)
  {
    hide AllInStep, TakenSlotsAreHeld, Assigned, CheckInsFollow;
    IntentHoldsItsSlot(t, a);
    forall b | b in t.intents && b in t.assignments && t.intents[b].status == Posted ensures t.assignments[b].slot != t.assignments[a].slot {
      IntentHoldsItsSlot(t, b);
    }
  }

  function DrainingEntry(source: Source, allocation: Allocation, currency: string, slot: SlotRef): Entry {
    Entry(source, CampaignFunds(slot.campaignId, currency), Debit, allocation.total, currency, Some(slot))
  }

  function CompletionCredits(source: Source, creatorId: Id, allocation: Allocation, currency: string, slot: SlotRef): seq<Entry> {
    [Entry(source, CreatorPayable(creatorId, currency), Credit, allocation.reward, currency, Some(slot)),
     Entry(source, FeeRevenue(currency), Credit, allocation.platformFee, currency, Some(slot))]
  }

  function RefundCredits(source: Source, businessId: Id, allocation: Allocation, currency: string, slot: SlotRef): seq<Entry> {
    [Entry(source, BusinessRefund(businessId, currency), Credit, allocation.total, currency, Some(slot))]
  }

  /** The entries a posting appends: the slot's funds go to a creator and the platform, or back to a business. */
  ghost predicate DrainsSlot(added: seq<Entry>, source: Source, allocation: Allocation, currency: string, slot: SlotRef, action: IntentAction) {
    if action == CreatorPayableFull then
      exists creatorId :: added == [DrainingEntry(source, allocation, currency, slot)] + CompletionCredits(source, creatorId, allocation, currency, slot)
    else
      exists businessId :: added == [DrainingEntry(source, allocation, currency, slot)] + RefundCredits(source, businessId, allocation, currency, slot)
  }

  /** What a posting adds to any total. */
  lemma DrainAdds(added: seq<Entry>, source: Source, allocation: Allocation, currency: string, slot: SlotRef, action: IntentAction)
    requires DrainsSlot(added, source, allocation, currency, slot, action) && source.IntentSource?
    requires allocation.total == allocation.reward + allocation.platformFee
    ensures Sum(added, SideOf(source, Debit)) == allocation.total == Sum(added, SideOf(source, Credit))
    ensures Sum(added, FundedAndDrained(CampaignFunds(slot.campaignId, currency))) == -allocation.total
    ensures Sum(added, PaidTo(Creators, slot.campaignId)) == if action == CreatorPayableFull then allocation.reward else 0
    ensures Sum(added, PaidTo(Platform, slot.campaignId)) == if action == CreatorPayableFull then allocation.platformFee else 0
    ensures Sum(added, PaidTo(Business, slot.campaignId)) == if action == CreatorPayableFull then 0 else allocation.total
    ensures forall other :: Sum(added, DebitsOf(other)) == if other == slot then 1 else 0
  {
    forall weight: Entry -> int
      ensures Sum(added, weight) == weight(added[0]) + weight(added[1]) + if action == CreatorPayableFull then weight(added[2]) else 0
    {
      DrainSum(added, source, allocation, currency, slot, action, weight);
    }
  }

  lemma DrainSum(added: seq<Entry>, source: Source, allocation: Allocation, currency: string, slot: SlotRef, action: IntentAction, weight: Entry -> int)
    requires DrainsSlot(added, source, allocation, currency, slot, action)
    ensures |added| == if action == CreatorPayableFull then 3 else 2
    ensures Sum(added, weight) == weight(added[0]) + weight(added[1]) + if action == CreatorPayableFull then weight(added[2]) else 0
  {
    if action == CreatorPayableFull {
      assert added == [added[0]] + [added[1], added[2]];
      SumOfThree(added[0], added[1], added[2], weight);
    } else {
      assert added == [added[0], added[1]];
      SumOfTwo(added[0], added[1], weight);
    }
  }

  /** The posted slots after a slot is posted for an action. */
  function Marked(slots: set<SlotRef>, slot: SlotRef, marks: bool): set<SlotRef> {
    if marks then slots + {slot} else slots
  }

  lemma DrainKeepsConserved(c: Id, snapshot: Snapshot, allocations: seq<Allocation>, entries: seq<Entry>, completed: set<SlotRef>,
                            refunded: set<SlotRef>, added: seq<Entry>, source: Source, slot: SlotRef, action: IntentAction)
    requires Conserved(c, snapshot, allocations, entries, completed, refunded)
    requires slot.campaignId == c && slot.position < |allocations| && slot !in completed && slot !in refunded && source.IntentSource?
    requires DrainsSlot(added, source, allocations[slot.position], snapshot.currency, slot, action)
    requires allocations[slot.position].total == allocations[slot.position].reward + allocations[slot.position].platformFee
    ensures Conserved(c, snapshot, allocations, entries + added, Marked(completed, slot, action == CreatorPayableFull),
                      Marked(refunded, slot, action == SlotRefundFull))
  {
    DrainAdds(added, source, allocations[slot.position], snapshot.currency, slot, action);
    SumSplits(entries, added, FundedAndDrained(CampaignFunds(c, snapshot.currency)));
    SumSplits(entries, added, PaidTo(Creators, c));
    SumSplits(entries, added, PaidTo(Platform, c));
    SumSplits(entries, added, PaidTo(Business, c));
    AddingSlot(allocations, 0, completed + refunded, slot, c, TotalPart);
    AddingSlot(allocations, 0, completed, slot, c, RewardPart);
    AddingSlot(allocations, 0, completed, slot, c, FeePart);
    AddingSlot(allocations, 0, refunded, slot, c, TotalPart);
    assert Marked(completed, slot, action == CreatorPayableFull) + Marked(refunded, slot, action == SlotRefundFull)
           == completed + refunded + {slot};
  }

  lemma OtherSlotKeepsConserved(c: Id, snapshot: Snapshot, allocations: seq<Allocation>, entries: seq<Entry>, completed: set<SlotRef>,
                                refunded: set<SlotRef>, slot: SlotRef, action: IntentAction)
    requires Conserved(c, snapshot, allocations, entries, completed, refunded)
    requires slot.campaignId != c && slot !in completed && slot !in refunded
    ensures Conserved(c, snapshot, allocations, entries, Marked(completed, slot, action == CreatorPayableFull),
                      Marked(refunded, slot, action == SlotRefundFull))
  {
    AddingSlot(allocations, 0, completed + refunded, slot, c, TotalPart);
    AddingSlot(allocations, 0, completed, slot, c, RewardPart);
    AddingSlot(allocations, 0, completed, slot, c, FeePart);
    AddingSlot(allocations, 0, refunded, slot, c, TotalPart);
    assert Marked(completed, slot, action == CreatorPayableFull) + Marked(refunded, slot, action == SlotRefundFull)
           == completed + refunded + {slot};
  }

  lemma DrainIsUnrelatedElsewhere(added: seq<Entry>, source: Source, allocation: Allocation, currency: string, slot: SlotRef,
                                  action: IntentAction, c: Id, otherCurrency: string)
    requires DrainsSlot(added, source, allocation, currency, slot, action) && c != slot.campaignId
    ensures forall i :: 0 <= i < |added| ==> Unrelated(c, otherCurrency, added[i])
  {
  }

  lemma DrainKeepsAllConserved(snapshots: map<Id, Snapshot>, allocations: map<Id, seq<Allocation>>, entries: seq<Entry>,
                               completed: set<SlotRef>, refunded: set<SlotRef>, added: seq<Entry>, source: Source, slot: SlotRef,
                               action: IntentAction)
    requires allocations.Keys == snapshots.Keys && AllConserved(snapshots, allocations, entries, completed, refunded)
    requires slot.campaignId in snapshots && slot.position < |allocations[slot.campaignId]|
    requires slot !in completed && slot !in refunded && source.IntentSource?
    requires var allocation := allocations[slot.campaignId][slot.position];
             && allocation.total == allocation.reward + allocation.platformFee
             && DrainsSlot(added, source, allocation, snapshots[slot.campaignId].currency, slot, action)
    ensures AllConserved(snapshots, allocations, entries + added, Marked(completed, slot, action == CreatorPayableFull),
                         Marked(refunded, slot, action == SlotRefundFull))
  {
    forall c | c in snapshots
      ensures Conserved(c, snapshots[c], allocations[c], entries + added, Marked(completed, slot, action == CreatorPayableFull),
                        Marked(refunded, slot, action == SlotRefundFull))
    {
      if c == slot.campaignId {
        DrainKeepsConserved(c, snapshots[c], allocations[c], entries, completed, refunded, added, source, slot, action);
      } else {
        DrainIsUnrelatedElsewhere(added, source, allocations[slot.campaignId][slot.position], snapshots[slot.campaignId].currency,
                                  slot, action, c, snapshots[c].currency);
        UnrelatedEntriesKeepConserved(c, snapshots[c], allocations[c], entries, completed, refunded, added);
        OtherSlotKeepsConserved(c, snapshots[c], allocations[c], entries + added, completed, refunded, slot, action);
      }
    }
    hide Conserved, DrainsSlot;
  }

  lemma DrainKeepsDebitedOnce(entries: seq<Entry>, posted: set<SlotRef>, added: seq<Entry>, slot: SlotRef)
    requires DebitedOnce(entries, posted) && slot !in posted
    requires forall other :: Sum(added, DebitsOf(other)) == if other == slot then 1 else 0
    ensures DebitedOnce(entries + added, posted + {slot})
  {
    forall other ensures Sum(entries + added, DebitsOf(other)) == if other in posted + {slot} then 1 else 0 {
      SumSplits(entries, added, DebitsOf(other));
    }
  }

  lemma DrainIsSound(added: seq<Entry>, accounts: map<string, Account>, snapshots: map<Id, Snapshot>, journals: map<Source, Journal>,
                     source: Source, allocation: Allocation, currency: string, slot: SlotRef, action: IntentAction)
    requires DrainsSlot(added, source, allocation, currency, slot, action) && source in journals && slot.campaignId in snapshots
    requires currency == journals[source].currency
    requires allocation.reward > 0 && allocation.platformFee > 0 && allocation.total > 0
    requires forall i :: 0 <= i < |added| ==> AccountId(added[i].account) in accounts && Row(accounts, added[i].account) == added[i].account
    ensures EntriesSound(added, accounts, snapshots, journals)
    ensures forall i :: 0 <= i < |added| ==> added[i].source == source
  {
  }

  lemma PostingKeepsEntries(snapshots: map<Id, Snapshot>, allocations: map<Id, seq<Allocation>>, accounts: map<string, Account>,
                            journals: map<Source, Journal>, entries: seq<Entry>, completed: set<SlotRef>, refunded: set<SlotRef>,
                            added: seq<Entry>, source: Source, journal: Journal, slot: SlotRef, action: IntentAction, accounts': map<string, Account>)
    requires allocations.Keys == snapshots.Keys && EntriesHold(snapshots, allocations, accounts, journals, entries, completed, refunded)
    requires slot.campaignId in snapshots && slot.position < |allocations[slot.campaignId]|
    requires slot !in completed && slot !in refunded && source.IntentSource? && source !in journals
    requires var allocation := allocations[slot.campaignId][slot.position];
             && allocation.total == allocation.reward + allocation.platformFee && allocation.reward > 0 && allocation.platformFee > 0
             && journal.total == allocation.total && journal.currency == snapshots[slot.campaignId].currency
             && DrainsSlot(added, source, allocation, snapshots[slot.campaignId].currency, slot, action)
    requires forall id :: id in accounts ==> id in accounts' && accounts'[id] == accounts[id]
    requires forall i :: 0 <= i < |added| ==> AccountId(added[i].account) in accounts' && Row(accounts', added[i].account) == added[i].account
    ensures EntriesHold(snapshots, allocations, accounts', journals[source := journal], entries + added,
                        Marked(completed, slot, action == CreatorPayableFull), Marked(refunded, slot, action == SlotRefundFull))
  {
    hide Balanced, DebitedOnce, AllConserved;
    var allocation, currency := allocations[slot.campaignId][slot.position], snapshots[slot.campaignId].currency;
    DrainAdds(added, source, allocation, currency, slot, action);
    DrainIsSound(added, accounts', snapshots, journals[source := journal], source, allocation, currency, slot, action);
    NewEntriesAreSound(entries, added, accounts, snapshots, journals, accounts', snapshots, journals[source := journal]);
    NewJournalKeepsBalanced(entries, journals, source, journal, added);
    DrainKeepsDebitedOnce(entries, completed + refunded, added, slot);
    assert Marked(completed, slot, action == CreatorPayableFull) + Marked(refunded, slot, action == SlotRefundFull)
           == completed + refunded + {slot};
    DrainKeepsAllConserved(snapshots, allocations, entries, completed, refunded, added, source, slot, action);
  }

  /** The accounts after a posting: still in order, none lost, and every account credited is there. */
  ghost predicate PostingSound(posting: Posting, accounts: map<string, Account>, snapshots: map<Id, Snapshot>) {
    && AccountsHold(posting.accounts, snapshots)
    && (forall id :: id in accounts ==> id in posting.accounts && posting.accounts[id] == accounts[id])
    && (forall i :: 0 <= i < |posting.credits| ==>
          AccountId(posting.credits[i].account) in posting.accounts
          && Row(posting.accounts, posting.credits[i].account) == posting.credits[i].account)
  }

  lemma CompletionSucceeds(accounts: map<string, Account>, snapshots: map<Id, Snapshot>, creatorId: Id, source: Source,
                           allocation: Allocation, currency: string, slot: SlotRef)
    requires AccountsHold(accounts, snapshots) && |currency| == 3
    ensures var posting := CompletionPosting(accounts, CreatorPayable(creatorId, currency), FeeRevenue(currency), source, allocation, currency, slot);
            posting.Some? && PostingSound(posting.value, accounts, snapshots)
            && posting.value.credits == CompletionCredits(source, creatorId, allocation, currency, slot)
  {
    hide AccountsHold, AccountId, AccountUsable;
    var payable, revenue := CreatorPayable(creatorId, currency), FeeRevenue(currency);
    EnsuringKeepsAccounts(accounts, snapshots, payable);
    EnsuringKeepsAccounts(EnsureAccount(accounts, payable), snapshots, revenue);
  }

  lemma RefundSucceeds(accounts: map<string, Account>, snapshots: map<Id, Snapshot>, businessId: Id, source: Source,
                       allocation: Allocation, currency: string, slot: SlotRef)
    requires AccountsHold(accounts, snapshots) && |currency| == 3
    ensures var posting := RefundPosting(accounts, BusinessRefund(businessId, currency), source, allocation, currency, slot);
            posting.Some? && PostingSound(posting.value, accounts, snapshots)
            && posting.value.credits == RefundCredits(source, businessId, allocation, currency, slot)
  {
    EnsuringKeepsAccounts(accounts, snapshots, BusinessRefund(businessId, currency));
    hide AccountsHold, AccountId, AccountUsable;
  }

  /** With the accounts in order, a posting never meets a conflicting account, and it credits exactly the accounts
      it names. */
  lemma PostingSucceeds(t: Tables, a: Id)
    requires IntentJoins(t, a) && AllocationExists(t, t.assignments[a].slot) && AccountsHold(t.accounts, t.snapshots)
    ensures PostingFor(t, a).Some? && PostingSound(PostingFor(t, a).value, t.accounts, t.snapshots)
    ensures var slot := t.assignments[a].slot;
            var allocation, currency := t.allocations[slot.campaignId][slot.position], t.snapshots[slot.campaignId].currency;
            PostingFor(t, a).value.credits
            == if t.intents[a].action == CreatorPayableFull
               then CompletionCredits(IntentSource(a), t.assignments[a].creatorId, allocation, currency, slot)
               else RefundCredits(IntentSource(a), t.campaigns[t.applications[a].campaignId].businessId, allocation, currency, slot)
  {
    var slot := t.assignments[a].slot;
    var allocation, currency := t.allocations[slot.campaignId][slot.position], t.snapshots[slot.campaignId].currency;
    CompletionSucceeds(t.accounts, t.snapshots, t.assignments[a].creatorId, IntentSource(a), allocation, currency, slot);
    RefundSucceeds(t.accounts, t.snapshots, t.campaigns[t.applications[a].campaignId].businessId, IntentSource(a), allocation, currency, slot);
    hide AccountsHold, PostingSound, CompletionPosting, RefundPosting;
  }

  lemma PostingKeepsJournals(intents: map<Id, Intent>, snapshots: map<Id, Snapshot>, journals: map<Source, Journal>, a: Id,
                             posted: Intent, journal: Journal)
    requires JournalsHold(intents, snapshots, journals) && a in intents && intents[a].action == posted.action
    requires posted.status == Posted && journal.request == IntentAsked(a, posted.action)
    ensures JournalsHold(intents[a := posted], snapshots, journals[IntentSource(a) := journal])
  {
  }

  lemma SlotBelongsToCampaign(t: Tables, a: Id)
    requires MissionsHold(t) && a in t.assignments
    ensures a in t.applications && t.assignments[a].slot.campaignId == t.applications[a].campaignId
    ensures SlotExists(t.contracts, t.assignments[a].slot) && IsPublished(t.campaigns, t.applications[a].campaignId)
  {
    assert Mirrors(t.assignments[a], t.applications[a], t.reservations[a]);
    assert InStep(t.campaigns, t.contracts, t.applications[a], t.reservations[a]);
  }

  lemma AllocationIsSound(t: Tables, slot: SlotRef)
    requires SnapshotsHold(t.campaigns, t.contracts, t.snapshots, t.allocations)
    requires SlotExists(t.contracts, slot) && IsPublished(t.campaigns, slot.campaignId)
    ensures t.allocations.Keys == t.snapshots.Keys
    ensures AllocationExists(t, slot) && AllocationSound(t.allocations[slot.campaignId][slot.position], SlotAt(t.contracts, slot))
  {
    assert SnapshotSound(t.campaigns[slot.campaignId], t.contracts[slot.campaignId], t.snapshots[slot.campaignId], t.allocations[slot.campaignId]);
  }

  lemma ConsumeIntentKeepsLedger(t: Tables, a: Id)
    requires LedgerHolds(t) && MissionsHold(t)
    ensures LedgerHolds(TablesAfter(t, ConsumeIntentStep(t, a)))
  {
    hide EntriesHold, SnapshotsHold, JournalsHold, AccountsHold, PostedSlots, MissionsHold, PostingFor, AccountId;
    var step := ConsumeIntentStep(t, a);
    if step.Committed? && step.tables != t {
      var slot, action, journal, after := t.assignments[a].slot, t.intents[a].action, step.value, step.tables;
      var source, completed, refunded := IntentSource(a), PostedSlots(t.assignments, t.intents, CreatorPayableFull),
                                         PostedSlots(t.assignments, t.intents, SlotRefundFull);
      SlotBelongsToCampaign(t, a);
      AllocationIsSound(t, slot);
      PostingSucceeds(t, a);
      PostingKeepsJournals(t.intents, t.snapshots, t.journals, a, after.intents[a], journal);
      PostingMarksSlot(t.assignments, t.intents, a, after.intents[a], CreatorPayableFull);
      PostingMarksSlot(t.assignments, t.intents, a, after.intents[a], SlotRefundFull);
      PendingSlotIsNotPosted(t, a, CreatorPayableFull);
      PendingSlotIsNotPosted(t, a, SlotRefundFull);
      var allocation, currency := t.allocations[slot.campaignId][slot.position], t.snapshots[slot.campaignId].currency;
      var added := [DrainingEntry(source, allocation, currency, slot)] + PostingFor(t, a).value.credits;
      assert DrainsSlot(added, source, allocation, currency, slot, action);
      FundsAccountIsThere(PostingFor(t, a).value.accounts, t.snapshots, slot.campaignId);
      PostingKeepsEntries(t.snapshots, t.allocations, t.accounts, t.journals, t.entries, completed, refunded, added, source, journal,
                          slot, action, after.accounts);
    }
  }

  lemma FundsAccountIsThere(accounts: map<string, Account>, snapshots: map<Id, Snapshot>, c: Id)
    requires AccountsHold(accounts, snapshots) && c in snapshots
    ensures var funds := CampaignFunds(c, snapshots[c].currency); AccountId(funds) in accounts && Row(accounts, funds) == funds
  {
    var funds := CampaignFunds(c, snapshots[c].currency);
    AccountIdIsInjective(accounts[AccountId(funds)], funds);
  }
}
