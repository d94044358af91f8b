/** What holds in every state that a run of the marketplace can reach. */
module MarketResults {
  import opened Wrappers
  import opened MarketTables
  import opened Sorting
  import opened FeeAllocation
  import opened Campaigns
  import opened Applications
  import opened CheckIns
  import opened Ledger
  import opened LedgerAccounts
  import opened MissionLockstep
  import opened CampaignContracts
  import opened LedgerConservation
  import opened LedgerSteps
  import opened Market
  import opened MarketHistory

  // ----- slots and the applications that hold them

  /** The application holds the slot, and reservation and application have the statuses that go together. */
  predicate Holds(t: Tables, a: Id, slot: SlotRef, status: ApplicationStatus) {
    && a in t.applications && a in t.reservations
    && t.applications[a].status == status
    && t.reservations[a] == Reservation(slot, ReservationFor(status))
  }

  lemma HolderDecidesSlot(t: Tables, slot: SlotRef, a: Id)
    requires MissionsHold(t) && a in t.reservations && Live(t.reservations[a]) && t.reservations[a].slot == slot
    ensures SlotExists(t.contracts, slot) && a in t.applications && t.applications[a].status != AppWithdrawn
    ensures SlotAt(t.contracts, slot).status == SlotFor(t.applications[a].status)
    ensures Holds(t, a, slot, t.applications[a].status)
    ensures forall b :: b in t.reservations && Live(t.reservations[b]) && t.reservations[b].slot == slot ==> b == a
  {
    assert InStep(t.campaigns, t.contracts, t.applications[a], t.reservations[a]);
  }

  lemma HeldSlotHasOneHolder(t: Tables, slot: SlotRef, a: Id, status: ApplicationStatus)
    requires MissionsHold(t) && Holds(t, a, slot, status) && status != AppWithdrawn
    ensures SlotIs(t.contracts, slot, SlotFor(status)) && SlotHeld(t.reservations, slot)
    ensures forall b, other :: other != AppWithdrawn && Holds(t, b, slot, other) ==> b == a && other == status
  {
    hide MissionsHold;
    HolderDecidesSlot(t, slot, a);
    forall b, other | other != AppWithdrawn && Holds(t, b, slot, other) ensures b == a && other == status {
      assert b in t.reservations && Live(t.reservations[b]);
    }
  }

  lemma TakenSlotHasHolder(t: Tables, slot: SlotRef) returns (a: Id)
    requires MissionsHold(t) && SlotHeld(t.reservations, slot)
    ensures a in t.applications && t.applications[a].status != AppWithdrawn && Holds(t, a, slot, t.applications[a].status)
  {
    a :| a in t.reservations && t.reservations[a].slot == slot && t.reservations[a].status != ReleasedReservation;
    HolderDecidesSlot(t, slot, a);
  }

  lemma UnheldSlotIsAvailable(t: Tables, slot: SlotRef)
    requires MissionsHold(t) && SlotExists(t.contracts, slot)
    ensures SlotHeld(t.reservations, slot) || SlotAt(t.contracts, slot).status == Available
  {
    hide AllInStep, OneHolderEach, Assigned, IntentsFollow, CheckInsFollow;
  }

  lemma SlotsAgreeWithHolders(t: Tables, slot: SlotRef)
    requires MissionsHold(t) && SlotExists(t.contracts, slot)
    ensures SlotAt(t.contracts, slot).status == Available <==> !SlotHeld(t.reservations, slot)
    ensures forall status :: status != AppWithdrawn ==>
              (SlotAt(t.contracts, slot).status == SlotFor(status) <==> exists a :: Holds(t, a, slot, status))
    ensures forall a, b, x, y :: x != AppWithdrawn && y != AppWithdrawn && Holds(t, a, slot, x) && Holds(t, b, slot, y) ==> a == b
  {
    hide MissionsHold, Holds, SlotHeld;
    var held := SlotHeld(t.reservations, slot);
    UnheldSlotIsAvailable(t, slot);
    if held {
      var a := TakenSlotHasHolder(t, slot);
      HeldSlotHasOneHolder(t, slot, a, t.applications[a].status);
    }
    forall a, status | status != AppWithdrawn && Holds(t, a, slot, status)
      ensures SlotIs(t.contracts, slot, SlotFor(status)) && held
      ensures forall b, other :: other != AppWithdrawn && Holds(t, b, slot, other) ==> b == a
    {
      HeldSlotHasOneHolder(t, slot, a, status);
    }
  }

  lemma AssignmentsAgreeWithHolders(t: Tables, a: Id)
    requires MissionsHold(t) && a in t.assignments
    ensures SlotExists(t.contracts, t.assignments[a].slot)
    ensures Holds(t, a, t.assignments[a].slot, ApplicationFor(t.assignments[a].status))
    ensures t.assignments[a].creatorId == t.applications[a].creatorId
  {
    assert Mirrors(t.assignments[a], t.applications[a], t.reservations[a]);
    assert InStep(t.campaigns, t.contracts, t.applications[a], t.reservations[a]);
  }

  /** In every reachable state a slot is available exactly when nobody holds it, and otherwise exactly one
      application holds it, with the statuses that go with the slot's: reserved with an active reservation of a submitted
      application, accepted with a converted one of an accepted application, and so on. A mission assigned to the slot
      belongs to that holder and stands where its application does. */
  lemma SlotsAndHoldersInLockstep(t: Tables, slot: SlotRef)
    requires Reachable(t) && SlotExists(t.contracts, slot)
    ensures SlotAt(t.contracts, slot).status == Available <==> !SlotHeld(t.reservations, slot)
    ensures forall status :: status != AppWithdrawn ==>
              (SlotAt(t.contracts, slot).status == SlotFor(status) <==> exists a :: Holds(t, a, slot, status))
    ensures forall a, b, x, y :: x != AppWithdrawn && y != AppWithdrawn && Holds(t, a, slot, x) && Holds(t, b, slot, y) ==> a == b
    ensures forall a :: a in t.assignments && t.assignments[a].slot == slot ==>
              && Holds(t, a, slot, ApplicationFor(t.assignments[a].status))
              && t.assignments[a].creatorId == t.applications[a].creatorId
  {
    hide MissionsHold, LedgerHolds, ContractsHold, Holds, SlotHeld, Reachable;
    ReachableHolds(t);
    SlotsAgreeWithHolders(t, slot);
    forall a | a in t.assignments && t.assignments[a].slot == slot
      ensures Holds(t, a, slot, ApplicationFor(t.assignments[a].status)) && a in t.applications
      ensures t.assignments[a].creatorId == t.applications[a].creatorId
    {
      AssignmentsAgreeWithHolders(t, a);
    }
  }

  /** When a submitted application is accepted or withdrawn, none of the updates checks that it hit; yet each hits
      exactly its row: the application, its reservation and its slot move, and nothing else changes. */
  lemma LeavingHitsEveryRow(t: Tables, a: Id, to: ApplicationStatus)
    requires Reachable(t) && Joins(t, a) && t.applications[a].status == AppSubmitted && to in {AppAccepted, AppWithdrawn}
    ensures var after, slot := TablesAfter(t, Leave(t, a, to, ReservationFor(to), SlotFor(to))), t.reservations[a].slot;
            && after == t.(applications := after.applications, reservations := after.reservations, contracts := after.contracts)
            && after.applications == t.applications[a := t.applications[a].(status := to, version := t.applications[a].version + 1)]
            && after.reservations == t.reservations[a := t.reservations[a].(status := ReservationFor(to))]
            && (forall other :: SlotExists(after.contracts, other) <==> SlotExists(t.contracts, other))
            && SlotAt(t.contracts, slot).status == Reserved
            && (forall other :: SlotExists(t.contracts, other) ==>
                  SlotAt(after.contracts, other)
                  == if other == slot then SlotAt(t.contracts, slot).(status := SlotFor(to), version := SlotAt(t.contracts, slot).version + 1)
                     else SlotAt(t.contracts, other))
  {
    hide LedgerHolds, ContractsHold, Reachable, MissionsHold;
    ReachableHolds(t);
    UncheckedUpdatesHitTheirRow(t, a);
    MoveSlotChangesOneSlot(t.contracts, t.reservations[a].slot, Reserved, SlotFor(to));
    hide MoveSlot;
  }

  // ----- unique indexes that the checks before them already imply

  /** The slot that an application is given is never held by another live reservation. */
  lemma LiveSlotIndexNeverFires(t: Tables, req: ApplyRequest)
    requires Reachable(t) && OpenSlot(t, req).Some?
    ensures !SlotHeld(t.reservations, SlotRef(req.campaignId, OpenSlot(t, req).value))
  {
    hide LedgerHolds, ContractsHold, MissionsHold;
    ReachableHolds(t);
    SlotsAgreeWithHolders(t, SlotRef(req.campaignId, OpenSlot(t, req).value));
  }

  lemma AssignedSlotIsHeld(t: Tables, a: Id, b: Id)
    requires MissionsHold(t) && Schedulable(t, a) && b in t.assignments && t.assignments[b].slot == t.reservations[a].slot
    ensures a == b
  {
    hide AllInStep, TakenSlotsAreHeld, Assigned, IntentsFollow, CheckInsFollow;
    IntentHoldsItsSlot(t, b);
  }

  /** An accepted application that is not scheduled yet never meets a slot that is. */
  lemma AssignmentSlotIndexNeverFires(t: Tables, a: Id)
    requires Reachable(t) && Schedulable(t, a) && a !in t.assignments
    ensures !SlotScheduled(t.assignments, t.reservations[a].slot)
  {
    hide LedgerHolds, ContractsHold, MissionsHold;
    ReachableHolds(t);
    if b :| b in t.assignments && t.assignments[b].slot == t.reservations[a].slot {
      AssignedSlotIsHeld(t, a, b);
    }
  }

  /** A live challenge of a scheduled mission never meets the unique indexes of the check-in events. */
  lemma CheckInIndexesNeverFire(t: Tables, challengeId: Id)
    requires Reachable(t) && challengeId in t.challenges && t.challenges[challengeId].status == ChallengeActive
    requires t.challenges[challengeId].applicationId in t.assignments
    requires t.assignments[t.challenges[challengeId].applicationId].status == Scheduled
    ensures t.challenges[challengeId].applicationId !in t.checkIns && !ChallengeRecorded(t.checkIns, challengeId)
  {
    hide LedgerHolds, ContractsHold, Lockstep, Assigned, IntentsFollow;
    ReachableHolds(t);
  }

  // ----- the terms a campaign was submitted with

  /** At or past submission a campaign has exactly its slot count of slots, adding up to its pool, and at least
      four fifths of them are Community Slots. */
  lemma SubmittedCampaignsReconcile(t: Tables, c: Id)
    requires Reachable(t) && c in t.campaigns && NeedsContract(t.campaigns[c].status)
    ensures c in t.contracts && SlotsReconcile(t.campaigns[c], t.contracts[c])
    ensures 5 * Sum(t.contracts[c], OneIfCommunity) >= 4 * |t.contracts[c]|
  {
    hide LedgerHolds, MissionsHold;
    ReachableHolds(t);
  }

  lemma AllocationNeedsTheDisclosedFee(t: Tables, c: Id)
    requires ContractsHold(t.campaigns, t.contracts) && c in t.campaigns && t.campaigns[c].status == Approved
    ensures var campaign := t.campaigns[c];
            AllocationsFor(t, campaign, c).Some? <==> campaign.platformFee == (campaign.rewardPool * 15 + 50) / 100
  {
    var campaign, slots := t.campaigns[c], t.contracts[c];
    assert ContractSound(campaign, slots);
    RowsAreAllocatable(slots);
    AllocationFailsOnlyOnUndisclosedFee(SlotRows(slots), campaign.platformFee);
  }

  lemma FundingAccountsAreUsable(t: Tables, c: Id)
    requires AccountsKeyed(t.accounts) && c in t.campaigns && |t.campaigns[c].currency| == 3
    ensures var clearing, funds := ProviderClearing(t.campaigns[c].currency), CampaignFunds(c, t.campaigns[c].currency);
            AccountUsable(t.accounts, clearing) && AccountUsable(EnsureAccount(t.accounts, clearing), funds)
  {
    EnsuringNeverConflicts(t.accounts, ProviderClearing(t.campaigns[c].currency));
    EnsuringNeverConflicts(EnsureAccount(t.accounts, ProviderClearing(t.campaigns[c].currency)), CampaignFunds(c, t.campaigns[c].currency));
  }

  /** A first funding of an approved campaign is refused as unallocatable exactly when the platform fee is not the
      rounded 15% of the pool: its slots always reconcile and its accounts never conflict. */
  lemma FundingIsUnallocatableExactlyWhen(t: Tables, funding: FundingRequest)
    requires Reachable(t) && funding.campaignId in t.campaigns && t.campaigns[funding.campaignId].status == Approved
    ensures var campaign := t.campaigns[funding.campaignId];
            FundStep(t, funding) == RolledBack(LedgerAllocationInvalid)
            <==> campaign.platformFee != (campaign.rewardPool * 15 + 50) / 100
  {
    hide MissionsHold, EntriesHold, SnapshotSound, JournalsHold, ContractSound, AllocationsFor, SnapshotRefusal, PostedSlots;
    ReachableHolds(t);
    AllocationNeedsTheDisclosedFee(t, funding.campaignId);
    FundingAccountsAreUsable(t, funding.campaignId);
    RefusalIsNotUnallocatable(t.snapshots, t.campaigns[funding.campaignId], funding);
  }

  lemma RefusalIsNotUnallocatable(snapshots: map<Id, Snapshot>, campaign: Campaign, funding: FundingRequest)
    ensures SnapshotRefusal(snapshots, campaign, funding) != Some(LedgerAllocationInvalid)
  {
  }

  // ----- which campaigns can be funded at all

  ghost function LengthsSum(ids: set<Id>): nat {
    if ids == {} then 0 else var id :| id in ids; |id| + LengthsSum(ids - {id})
  }

  lemma {:induction false} LengthsSumBounds(ids: set<Id>, id: Id)
    requires id in ids
    ensures |id| <= LengthsSum(ids)
  {
    var first :| first in ids && LengthsSum(ids) == |first| + LengthsSum(ids - {first});
    assert LengthsSum(ids - {first}) >= 0;
    if first != id {
      LengthsSumBounds(ids - {first}, id);
    }
  }

  /** There is always an id that is not in use, whatever is put in front of it. */
  lemma UnusedId(ids: set<Id>) returns (unused: Id)
    ensures forall prefix: string :: prefix + unused !in ids
    ensures unused !in ids && !Blank(unused)
  {
    unused := seq(LengthsSum(ids) + 1, _ => 'x');
    forall prefix: string ensures prefix + unused !in ids {
      if prefix + unused in ids {
        LengthsSumBounds(ids, prefix + unused);
      }
    }
    assert "" + unused == unused;
    assert unused[0] in unused;
  }

  function IdsInUse(t: Tables): set<Id> {
    (set source | source in t.journals :: t.journals[source].publicId)
    + (set source | source in t.journals && source.ProviderFunding? :: source.eventId)
    + (set c | c in t.snapshots :: t.snapshots[c].funding.referencePublicId)
    + (set c | c in t.snapshots :: t.snapshots[c].funding.providerObjectId)
    + (set c | c in t.snapshots :: t.snapshots[c].funding.fundingPublicId)
    + (set c | c in t.snapshots :: t.snapshots[c].funding.providerEventId)
    + (set c | c in t.snapshots :: t.snapshots[c].funding.transferGroup)
  }

  function FreshFunding(c: Id, id: Id): FundingRequest {
    FundingRequest(c, 0, id, id, "stripe", id, id, id, id, id)
  }

  lemma FreshFundingIsAccepted(t: Tables, c: Id, id: Id, campaign: Campaign)
    requires id !in IdsInUse(t) && !Blank(id) && c !in t.snapshots && campaign.rewardPool > 0 && campaign.platformFee > 0
    ensures var funding := FreshFunding(c, id);
            && SnapshotRefusal(t.snapshots, campaign, funding).None?
            && !TransactionIdTaken(t.journals, funding.transactionPublicId)
            && ProviderFunding(funding.providerEventId) !in t.journals
  {
    hide Blank;
    forall other | other in t.snapshots
      ensures t.snapshots[other].funding.referencePublicId != id && t.snapshots[other].funding.providerObjectId != id
      ensures t.snapshots[other].funding.fundingPublicId != id && t.snapshots[other].funding.providerEventId != id
      ensures t.snapshots[other].funding.transferGroup != id
    {
    }
  }

  lemma ApprovedIsNotFunded(t: Tables, c: Id)
    requires SnapshotsHold(t.campaigns, t.contracts, t.snapshots, t.allocations)
    requires c in t.campaigns && t.campaigns[c].status == Approved
    ensures c !in t.snapshots
  {
  }

  lemma SoundContractPays(campaign: Campaign, slots: seq<Slot>)
    requires ContractSound(campaign, slots) && CampaignChecks(campaign)
    ensures campaign.rewardPool > 0 && |campaign.currency| == 3
    ensures (campaign.rewardPool * 15 + 50) / 100 == 0 ==> exists i :: 0 <= i < |slots| && slots[i].reward < 7
  {
    assert slots == [slots[0]] + slots[1..];
    RewardsAreNotNegative(slots[1..]);
  }

  lemma {:induction false} RewardsAreNotNegative(slots: seq<Slot>)
    requires forall i :: 0 <= i < |slots| ==> slots[i].reward > 0
    ensures Sum(slots, RewardOf) >= 0
  {
    if slots != [] {
      RewardsAreNotNegative(slots[1..]);
    }
  }

  lemma FreshFundingCommits(t: Tables, c: Id, id: Id, allocations: seq<Allocation>)
    requires Invariant(t) && c in t.campaigns && t.campaigns[c].status == Approved && id !in IdsInUse(t) && !Blank(id)
    requires AllocationsFor(t, t.campaigns[c], c) == Some(allocations) && t.campaigns[c].platformFee > 0
    requires forall allocation <- allocations :: AllocationChecks(allocation)
    ensures FundStep(t, FreshFunding(c, id)).Committed?
  {
    hide MissionsHold, EntriesHold, SnapshotsHold, JournalsHold, PostedSlots, AllocationsFor, SnapshotRefusal, IdsInUse, Blank,
         AccountUsable, SlotsReconcile;
    assert ContractSound(t.campaigns[c], t.contracts[c]);
    SoundContractPays(t.campaigns[c], t.contracts[c]);
    ApprovedIsNotFunded(t, c);
    FreshFundingIsAccepted(t, c, id, t.campaigns[c]);
    FundingAccountsAreUsable(t, c);
    hide ContractsHold;
  }

  lemma FundableWhenItsRowsInsert(t: Tables, c: Id)
    requires Reachable(t) && c in t.campaigns && t.campaigns[c].status == Approved
    ensures var allocations := AllocationsFor(t, t.campaigns[c], c);
            SomeFundingCommits(t, c) <==> allocations.Some? && forall allocation <- allocations.value :: AllocationChecks(allocation)
  {
    hide MissionsHold, EntriesHold, SnapshotSound, AccountsHold, JournalsHold, PostedSlots, ContractSound, RequestsHold, IdsInUse;
    var allocations := AllocationsFor(t, t.campaigns[c], c);
    ReachableHolds(t);
    ApprovedHasContract(t.campaigns, t.contracts, c);
    ApprovedIsNotFunded(t, c);
    if allocations.Some? && forall allocation <- allocations.value :: AllocationChecks(allocation) {
      AllocatedFeeIsPositive(t, c, allocations.value);
      var id := UnusedId(IdsInUse(t));
      FreshFundingCommits(t, c, id, allocations.value);
      assert FreshFunding(c, id).campaignId == c;
    }
    hide Invariant, AllocationsFor, SnapshotRefusal, IdsInUse;
  }

  ghost predicate SomeFundingCommits(t: Tables, c: Id) {
    exists funding: FundingRequest :: funding.campaignId == c && FundStep(t, funding).Committed?
  }

  /** The fee is the rounded 15% of the pool, and every slot worth less than seven cents ranks early enough, by remainder
      and ordinal, for one of the cents that rounding down leaves over. */
  predicate FeeReachesEverySlot(campaign: Campaign, slots: seq<Slot>) {
    campaign.platformFee == (campaign.rewardPool * 15 + 50) / 100 && EverySlotPays(SlotRows(slots))
  }

  lemma RowsInsertExactlyWhen(t: Tables, c: Id)
    requires ContractsHold(t.campaigns, t.contracts) && c in t.campaigns && t.campaigns[c].status == Approved && c in t.contracts
    ensures var allocations := AllocationsFor(t, t.campaigns[c], c);
            (allocations.Some? && forall allocation <- allocations.value :: AllocationChecks(allocation))
            <==> FeeReachesEverySlot(t.campaigns[c], t.contracts[c])
  {
    var campaign, slots, allocations := t.campaigns[c], t.contracts[c], AllocationsFor(t, t.campaigns[c], c);
    AllocationNeedsTheDisclosedFee(t, c);
    assert ContractSound(campaign, slots);
    RowsAreAllocatable(slots);
    if allocations.Some? {
      var fees := AllocateFifteenPercentFee(SlotRows(slots), campaign.platformFee).value;
      AllocationShape(SlotRows(slots), campaign.platformFee, fees);
      FeesArePositiveExactlyWhen(SlotRows(slots), campaign.platformFee, fees);
      PositiveRowsInsert(slots, fees, allocations.value, campaign.currency);
    }
    hide EverySlotPays, AllocationChecks, AllocateFifteenPercentFee, ContractSound;
  }

  lemma PositiveRowsInsert(slots: seq<Slot>, fees: seq<SlotFee>, allocations: seq<Allocation>, currency: string)
    requires |fees| == |slots| && allocations == Allocations(fees, currency)
    requires forall i :: 0 <= i < |slots| ==> fees[i].slot == SlotRows(slots)[i] && slots[i].reward > 0
    ensures (forall allocation <- allocations :: AllocationChecks(allocation)) <==> forall fee <- fees :: fee.platformFee > 0
  {
    if forall allocation <- allocations :: AllocationChecks(allocation) {
      forall fee <- fees ensures fee.platformFee > 0 {
        var i :| 0 <= i < |fees| && fees[i] == fee;
        assert allocations[i] in allocations;
      }
    }
    if forall fee <- fees :: fee.platformFee > 0 {
      forall allocation <- allocations ensures AllocationChecks(allocation) {
        var i :| 0 <= i < |fees| && allocations[i] == allocation;
        assert fees[i] in fees;
      }
    }
  }

  /** Some funding of an approved campaign succeeds exactly when its fee is the disclosed one and reaches every slot. */
  lemma ApprovedCampaignIsFundableExactlyWhen(t: Tables, c: Id)
    requires Reachable(t) && c in t.campaigns && t.campaigns[c].status == Approved
    ensures c in t.contracts && (SomeFundingCommits(t, c) <==> FeeReachesEverySlot(t.campaigns[c], t.contracts[c]))
  {
    hide LedgerHolds, MissionsHold, ContractsHold, FeeReachesEverySlot, AllocationsFor, FundStep, Reachable;
    ReachableHolds(t);
    ApprovedHasContract(t.campaigns, t.contracts, c);
    RowsInsertExactlyWhen(t, c);
    FundableWhenItsRowsInsert(t, c);
  }

  lemma AllocatedFeeIsPositive(t: Tables, c: Id, allocations: seq<Allocation>)
    requires ContractsHold(t.campaigns, t.contracts) && c in t.campaigns && c in t.contracts
    requires AllocationsFor(t, t.campaigns[c], c) == Some(allocations) && forall allocation <- allocations :: AllocationChecks(allocation)
    ensures t.campaigns[c].platformFee > 0
  {
    var campaign, slots := t.campaigns[c], t.contracts[c];
    assert ContractSound(campaign, slots);
    RowsAreAllocatable(slots);
    var fees := AllocateFifteenPercentFee(SlotRows(slots), campaign.platformFee).value;
    hide AllocateFifteenPercentFee, SlotRows, DistinctBy, DistinctIds, NonNegativeRewards;
    AllocationShape(SlotRows(slots), campaign.platformFee, fees);
    FeesSumToThePlatformFee(SlotRows(slots), campaign.platformFee, fees);
    forall i | 0 <= i < |fees| ensures fees[i].platformFee > 0 {
      assert allocations[i] == AllocationOf(fees[i], campaign.currency) && allocations[i] in allocations;
    }
    PositiveFeesAddUp(fees);
  }

  lemma {:induction false} PositiveFeesAddUp(fees: seq<SlotFee>)
    requires forall i :: 0 <= i < |fees| ==> fees[i].platformFee > 0
    ensures Sum(fees, Fee) >= |fees|
  {
    if fees != [] {
      PositiveFeesAddUp(fees[1..]);
    }
  }

  // ----- the money

  lemma FundsOfSnapshot(c: Id, campaign: Campaign, slots: seq<Slot>, snapshot: Snapshot, allocations: seq<Allocation>, entries: seq<Entry>,
                        completed: set<SlotRef>, refunded: set<SlotRef>)
    requires Conserved(c, snapshot, allocations, entries, completed, refunded) && SnapshotSound(campaign, slots, snapshot, allocations)
    ensures var funds := CampaignFunds(c, snapshot.currency);
            && Sum(entries, Movement(funds)) == SumOutside(allocations, c, 0, completed + refunded, TotalPart) + Sum(entries, Adjusted(funds))
            && SumOutside(allocations, c, 0, completed + refunded, TotalPart) >= 0
  {
    MovementSplits(entries, CampaignFunds(c, snapshot.currency));
    InsideAndOutside(allocations, c, 0, completed + refunded, TotalPart);
    assert allocations[0..] == allocations;
    assert forall i :: 0 <= i < |allocations| ==> AllocationSound(allocations[i], slots[i]);
    OutsideIsNotNegative(allocations, c, 0, completed + refunded);
  }

  /** A funded campaign's funds are the allocations whose slots have not been posted, plus what finance
      adjustments moved; without adjustments they are never negative. */
  lemma FundsAreWhatIsNotYetPosted(t: Tables, c: Id)
    requires Reachable(t) && c in t.snapshots
    ensures c in t.allocations
    ensures var funds := CampaignFunds(c, t.snapshots[c].currency);
            var posted := PostedSlots(t.assignments, t.intents, CreatorPayableFull) + PostedSlots(t.assignments, t.intents, SlotRefundFull);
            && Sum(t.entries, Movement(funds)) == SumOutside(t.allocations[c], c, 0, posted, TotalPart) + Sum(t.entries, Adjusted(funds))
            && SumOutside(t.allocations[c], c, 0, posted, TotalPart) >= 0
            && ((forall entry <- t.entries :: entry.account == funds ==> !entry.source.AdjustmentSource?) ==> Sum(t.entries, Movement(funds)) >= 0)
  {
    hide MissionsHold, ContractsHold, AccountsHold, JournalsHold, PostedSlots, EntriesSound, Balanced, DebitedOnce, Reachable, SnapshotSound, Conserved;
    ReachableHolds(t);
    var funds := CampaignFunds(c, t.snapshots[c].currency);
    var completed, refunded := PostedSlots(t.assignments, t.intents, CreatorPayableFull), PostedSlots(t.assignments, t.intents, SlotRefundFull);
    FundsOfSnapshot(c, t.campaigns[c], t.contracts[c], t.snapshots[c], t.allocations[c], t.entries, completed, refunded);
    if forall entry <- t.entries :: entry.account == funds ==> !entry.source.AdjustmentSource? {
      SumIsZero(t.entries, Adjusted(funds));
    }
  }

  lemma {:induction false} OutsideIsNotNegative(allocations: seq<Allocation>, c: Id, from: nat, slots: set<SlotRef>)
    requires forall i :: 0 <= i < |allocations| ==> allocations[i].total >= 0
    ensures SumOutside(allocations, c, from, slots, TotalPart) >= 0
    decreases |allocations| - from
  {
    if from < |allocations| {
      OutsideIsNotNegative(allocations, c, from + 1, slots);
    }
  }

  /** A slot's allocation is debited once when its intent has been posted, and not at all before. */
  lemma EachSlotIsDebitedAtMostOnce(t: Tables, slot: SlotRef)
    requires Reachable(t)
    ensures var posted := PostedSlots(t.assignments, t.intents, CreatorPayableFull) + PostedSlots(t.assignments, t.intents, SlotRefundFull);
            Sum(t.entries, DebitsOf(slot)) == if slot in posted then 1 else 0
  {
    hide MissionsHold, ContractsHold, AccountsHold, JournalsHold, SnapshotsHold, PostedSlots, EntriesSound, Balanced, AllConserved;
    ReachableHolds(t);
  }

  /** What left a campaign's funds went, to the cent, to the creators and the platform for the slots completed and
      back to the business for the slots refunded. */
  lemma WhatLeftTheFundsIsPaidOut(t: Tables, c: Id)
    requires Reachable(t) && c in t.snapshots
    ensures c in t.allocations
    ensures var completed, refunded := PostedSlots(t.assignments, t.intents, CreatorPayableFull), PostedSlots(t.assignments, t.intents, SlotRefundFull);
            && Sum(t.entries, PaidTo(Creators, c)) == SumWithin(t.allocations[c], c, 0, completed, RewardPart)
            && Sum(t.entries, PaidTo(Platform, c)) == SumWithin(t.allocations[c], c, 0, completed, FeePart)
            && Sum(t.entries, PaidTo(Business, c)) == SumWithin(t.allocations[c], c, 0, refunded, TotalPart)
            && t.snapshots[c].totalDue - Sum(t.entries, FundedAndDrained(CampaignFunds(c, t.snapshots[c].currency)))
               == Sum(t.entries, PaidTo(Creators, c)) + Sum(t.entries, PaidTo(Platform, c)) + Sum(t.entries, PaidTo(Business, c))
  {
    hide MissionsHold, ContractsHold, AccountsHold, JournalsHold, PostedSlots, EntriesSound, Balanced, DebitedOnce;
    ReachableHolds(t);
    var completed, refunded := PostedSlots(t.assignments, t.intents, CreatorPayableFull), PostedSlots(t.assignments, t.intents, SlotRefundFull);
    assert Conserved(c, t.snapshots[c], t.allocations[c], t.entries, completed, refunded);
    assert SnapshotSound(t.campaigns[c], t.contracts[c], t.snapshots[c], t.allocations[c]);
    DisjointSlots(t.allocations[c], c, 0, completed, refunded, TotalPart);
    PartsMakeTotal(t.allocations[c], c, 0, completed);
  }

  lemma {:induction false} PartsMakeTotal(allocations: seq<Allocation>, c: Id, from: nat, slots: set<SlotRef>)
    requires forall i :: 0 <= i < |allocations| ==> allocations[i].total == allocations[i].reward + allocations[i].platformFee
    ensures SumWithin(allocations, c, from, slots, TotalPart)
            == SumWithin(allocations, c, from, slots, RewardPart) + SumWithin(allocations, c, from, slots, FeePart)
    decreases |allocations| - from
  {
    if from < |allocations| {
      PartsMakeTotal(allocations, c, from + 1, slots);
    }
  }

  /** When every slot has been posted, everything due has become creator payables, fee revenue and refunds. */
  lemma FullyPostedCampaignIsPaidOut(t: Tables, c: Id)
    requires Reachable(t) && c in t.snapshots && c in t.contracts
    requires var posted := PostedSlots(t.assignments, t.intents, CreatorPayableFull) + PostedSlots(t.assignments, t.intents, SlotRefundFull);
             forall i :: 0 <= i < |t.contracts[c]| ==> SlotRef(c, i) in posted
    ensures t.snapshots[c].totalDue
            == Sum(t.entries, PaidTo(Creators, c)) + Sum(t.entries, PaidTo(Platform, c)) + Sum(t.entries, PaidTo(Business, c))
  {
    hide MissionsHold, ContractsHold, AccountsHold, JournalsHold, PostedSlots, EntriesSound, Balanced, DebitedOnce;
    ReachableHolds(t);
    WhatLeftTheFundsIsPaidOut(t, c);
    var completed, refunded := PostedSlots(t.assignments, t.intents, CreatorPayableFull), PostedSlots(t.assignments, t.intents, SlotRefundFull);
    assert Conserved(c, t.snapshots[c], t.allocations[c], t.entries, completed, refunded);
    assert SnapshotSound(t.campaigns[c], t.contracts[c], t.snapshots[c], t.allocations[c]);
    InsideAndOutside(t.allocations[c], c, 0, completed + refunded, TotalPart);
    assert t.allocations[c][0..] == t.allocations[c];
    NothingOutside(t.allocations[c], c, 0, completed + refunded);
  }

  lemma {:induction false} NothingOutside(allocations: seq<Allocation>, c: Id, from: nat, slots: set<SlotRef>)
    requires forall i :: 0 <= i < |allocations| ==> SlotRef(c, i) in slots
    ensures SumOutside(allocations, c, from, slots, TotalPart) == 0
    decreases |allocations| - from
  {
    if from < |allocations| {
      NothingOutside(allocations, c, from + 1, slots);
    }
  }

  function OneOf(source: Source): Entry -> int {
    (entry: Entry) => if entry.source == source then 1 else 0
  }

  function OneOfSide(source: Source, direction: Direction): Entry -> int {
    (entry: Entry) => if entry.source == source && entry.direction == direction then 1 else 0
  }

  /** What the trigger on transactions and entries asks of a journal when its transaction commits. */
  ghost predicate BalanceTriggerPasses(entries: seq<Entry>, source: Source, journal: Journal) {
    && Sum(entries, OneOf(source)) >= 2
    && Sum(entries, SideOf(source, Debit)) == journal.total
    && Sum(entries, SideOf(source, Credit)) == journal.total
    && |set entry | entry in entries && entry.source == source :: entry.currency| == 1
    && forall entry <- entries :: entry.source == source ==> entry.currency == journal.currency
  }

  /** What the trigger on snapshots and allocations asks: the rows joined with their slots reconcile with the snapshot, and
      no row differs from its slot. */
  ghost predicate AllocationTriggerPasses(slotCount: int, slots: seq<Slot>, snapshot: Snapshot, allocations: seq<Allocation>) {
    && |allocations| == slotCount
    && Sum(allocations, RewardPart) == snapshot.rewardPool
    && Sum(allocations, FeePart) == snapshot.platformFee
    && Sum(allocations, TotalPart) == snapshot.totalDue
    && forall i :: 0 <= i < |allocations| ==>
         && i < |slots| && slots[i].reward == allocations[i].reward
         && slots[i].currency == allocations[i].currency == snapshot.currency
  }

  lemma {:induction false} CountSplits(entries: seq<Entry>, source: Source)
    ensures Sum(entries, OneOf(source)) == Sum(entries, OneOfSide(source, Debit)) + Sum(entries, OneOfSide(source, Credit))
  {
    if entries != [] {
      CountSplits(entries[1..], source);
    }
  }

  lemma {:induction false} MovingSideIsThere(entries: seq<Entry>, source: Source, direction: Direction)
    ensures Sum(entries, OneOfSide(source, direction)) >= 0
    ensures Sum(entries, SideOf(source, direction)) > 0 ==>
              Sum(entries, OneOfSide(source, direction)) >= 1 && exists entry :: entry in entries && entry.source == source
  {
    if entries != [] {
      MovingSideIsThere(entries[1..], source, direction);
      if entries[0].source != source || entries[0].direction != direction {
        assert forall entry :: entry in entries[1..] ==> entry in entries;
      } else {
        assert entries[0] in entries;
      }
    }
  }

  lemma JournalPasses(entries: seq<Entry>, accounts: map<string, Account>, snapshots: map<Id, Snapshot>, journals: map<Source, Journal>,
                      source: Source)
    requires EntriesSound(entries, accounts, snapshots, journals) && Balanced(entries, journals) && source in journals
    ensures BalanceTriggerPasses(entries, source, journals[source])
  {
    CountSplits(entries, source);
    MovingSideIsThere(entries, source, Debit);
    MovingSideIsThere(entries, source, Credit);
    forall entry | entry in entries && entry.source == source ensures entry.currency == journals[source].currency {
      var i :| 0 <= i < |entries| && entries[i] == entry;
      assert EntrySound(entries[i], accounts, snapshots, journals);
    }
    var some :| some in entries && some.source == source;
    assert (set entry | entry in entries && entry.source == source :: entry.currency) == {some.currency};
  }

  lemma SnapshotPasses(campaign: Campaign, slots: seq<Slot>, snapshot: Snapshot, allocations: seq<Allocation>)
    requires SnapshotSound(campaign, slots, snapshot, allocations) && ContractSound(campaign, slots)
    ensures AllocationTriggerPasses(campaign.slotCount, slots, snapshot, allocations)
  {
    assert forall i :: 0 <= i < |slots| ==> AllocationSound(allocations[i], slots[i]);
  }

  /** Every reachable state passes the two constraint triggers that look at the ledger when a transaction commits: each
      journal has entries on both sides that add up to its total in its one currency, and each snapshot's allocations
      reconcile with it and agree with their slots in reward and currency. */
  lemma CommitTriggersNeverFire(t: Tables)
    requires Reachable(t)
    ensures forall source :: source in t.journals ==> BalanceTriggerPasses(t.entries, source, t.journals[source])
    ensures forall c :: c in t.snapshots ==>
              && c in t.campaigns && c in t.contracts && c in t.allocations
              && AllocationTriggerPasses(t.campaigns[c].slotCount, t.contracts[c], t.snapshots[c], t.allocations[c])
  {
    hide MissionsHold, AccountsHold, JournalsHold, DebitedOnce, AllConserved, BalanceTriggerPasses, EntriesSound, Balanced,
         AllocationTriggerPasses, SnapshotSound, ContractSound, Reachable;
    ReachableHolds(t);
    forall source | source in t.journals ensures BalanceTriggerPasses(t.entries, source, t.journals[source]) {
      JournalPasses(t.entries, t.accounts, t.snapshots, t.journals, source);
    }
    forall c | c in t.snapshots
      ensures AllocationTriggerPasses(t.campaigns[c].slotCount, t.contracts[c], t.snapshots[c], t.allocations[c])
    {
      SnapshotPasses(t.campaigns[c], t.contracts[c], t.snapshots[c], t.allocations[c]);
    }
  }

  // ----- consuming intents

  lemma IntentIsReady(t: Tables, a: Id)
    requires MissionsHold(t) && a in t.intents
    ensures IntentJoins(t, a) && FinalStatesMatch(t, a)
  {
    hide OneHolderEach, TakenSlotsAreHeld, CheckInsFollow;
    assert Mirrors(t.assignments[a], t.applications[a], t.reservations[a]);
    assert InStep(t.campaigns, t.contracts, t.applications[a], t.reservations[a]);
  }

  lemma FundsAccountExists(accounts: map<string, Account>, snapshots: map<Id, Snapshot>, c: Id)
    requires AccountsHold(accounts, snapshots) && c in snapshots
    ensures AccountExists(accounts, CampaignFunds(c, snapshots[c].currency))
  {
    FundsAccountIsThere(accounts, snapshots, c);
  }

  /** A pending intent is always ready: consuming it commits exactly when no journal has taken the public id that
      is built for it. */
  lemma PendingIntentPostsExactlyWhen(t: Tables, a: Id)
    requires Reachable(t) && a in t.intents && t.intents[a].status == PendingLedger
    ensures var step := ConsumeIntentStep(t, a);
            if TransactionIdTaken(t.journals, "ledger_" + t.intents[a].publicId) then step == RolledBack(ConstraintViolated)
            else step.Committed? && step.value.request == IntentAsked(a, t.intents[a].action)
  {
    hide MissionsHold, ContractsHold, EntriesHold, PostedSlots, SnapshotsHold, AccountsHold, PostingFor, TransactionIdTaken;
    ReachableHolds(t);
    IntentIsReady(t, a);
    SlotBelongsToCampaign(t, a);
    AllocationIsSound(t, t.assignments[a].slot);
    FundsAccountExists(t.accounts, t.snapshots, t.assignments[a].slot.campaignId);
    PostingSucceeds(t, a);
  }

  /** A posted intent always finds its journal; consuming it again returns that journal and changes nothing. */
  lemma PostedIntentKeepsItsJournal(t: Tables, a: Id)
    requires Reachable(t) && a in t.intents && t.intents[a].status == Posted
    ensures IntentSource(a) in t.journals && ConsumeIntentStep(t, a) == Committed(t.journals[IntentSource(a)], t)
  {
    hide MissionsHold, ContractsHold, EntriesHold, PostedSlots, SnapshotsHold, AccountsHold;
    ReachableHolds(t);
    IntentIsReady(t, a);
  }

  lemma {:induction false} RunsCompose(t: Tables, first: seq<Op>, second: seq<Op>)
    ensures Run(Run(t, first), second) == Run(t, first + second)
    decreases |first|
  {
    if first == [] {
      assert first + second == second;
    } else {
      RunsCompose(Perform(t, first[0]), first[1..], second);
      assert (first + second)[0] == first[0] && (first + second)[1..] == first[1..] + second;
    }
  }

  lemma RunsStayReachable(t: Tables, ops: seq<Op>)
    requires Reachable(t)
    ensures Reachable(Run(t, ops))
  {
    var before :| t == Run(EMPTY_TABLES, before);
    RunsCompose(EMPTY_TABLES, before, ops);
  }

  lemma OneStepRun(t: Tables, op: Op)
    ensures Run(t, [op]) == Perform(t, op)
  {
    hide Perform;
    assert [op][1..] == [];
  }

  lemma Then(t: Tables, op: Op)
    requires Reachable(t)
    ensures Reachable(Perform(t, op))
  {
    hide Perform;
    OneStepRun(t, op);
    RunsStayReachable(t, [op]);
  }

  /** Once consumed, an intent answers with the same journal after any run, and a run never posts it twice. */
  lemma ConsumedIntentReplays(t: Tables, a: Id, ops: seq<Op>)
    requires Reachable(t) && ConsumeIntentStep(t, a).Committed?
    ensures var later := Run(ConsumeIntentStep(t, a).tables, ops);
            ConsumeIntentStep(later, a) == Committed(ConsumeIntentStep(t, a).value, later)
  {
    hide ConsumeIntentStep, Reachable;
    JournalOfConsumedIntent(t, a);
    var after := Perform(t, ConsumeIntent(a));
    assert after == ConsumeIntentStep(t, a).tables;
    hide Perform;
    Then(t, ConsumeIntent(a));
    RunsStayReachable(after, ops);
    RunExtends(after, ops);
    PostedIntentKeepsItsJournal(Run(after, ops), a);
  }

  lemma JournalOfConsumedIntent(t: Tables, a: Id)
    requires ConsumeIntentStep(t, a).Committed?
    ensures var after := ConsumeIntentStep(t, a).tables;
            && a in after.intents && after.intents[a].status == Posted
            && IntentSource(a) in after.journals && after.journals[IntentSource(a)] == ConsumeIntentStep(t, a).value
  {
  }
}
