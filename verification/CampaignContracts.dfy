/** A campaign's slots keep the terms they were submitted with. */
module CampaignContracts {
  import opened MarketTables
  import opened Sorting
  import opened Campaigns
  import opened Applications

  function IdOfSlot(slot: Slot): Id { slot.publicId }

  ghost predicate ContractSound(campaign: Campaign, slots: seq<Slot>) {
    && SlotsReconcile(campaign, slots)
    && (forall i :: 0 <= i < |slots| ==> slots[i].reward > 0 && slots[i].currency == campaign.currency)
    && DistinctBy(slots, IdOfSlot)
  }

  predicate NeedsContract(status: CampaignStatus) {
    status in {Submitted, Approved, Funded, Published}
  }

  ghost predicate ContractsHold(campaigns: map<Id, Campaign>, contracts: map<Id, seq<Slot>>) {
    && (forall c :: c in campaigns ==> CampaignChecks(campaigns[c]))
    && (forall c :: c in contracts ==> c in campaigns && ContractSound(campaigns[c], contracts[c]))
    && (forall c :: c in campaigns && NeedsContract(campaigns[c].status) ==> c in contracts)
  }

  // ----- configuring a draft

  function ToRow(slot: SlotInput): Slot { slot.Row() }

  lemma {:induction false} InsertedIdsAreDistinct(contracts: map<Id, seq<Slot>>, slots: seq<SlotInput>)
    requires SlotsInsert(contracts, slots)
    ensures DistinctBy(slots, PublicIdOf)
  {
    forall i, j | 0 <= i < j < |slots| ensures PublicIdOf(slots[i]) != PublicIdOf(slots[j]) {
      assert SlotInserts(contracts, slots[..j], slots[j]);
      assert slots[..j][i] == slots[i] && slots[..j][i] in slots[..j];
    }
  }

  lemma RowTerms(slot: SlotInput)
    requires SlotChecks(slot) && ValidReachConfiguration(slot)
    ensures RewardOf(slot.Row()) == InputReward(slot) > 0
    ensures OneIfCommunity(slot.Row()) == OneIfCommunityInput(slot)
  {
  }

  lemma RowsAreSound(contracts: map<Id, seq<Slot>>, slots: seq<SlotInput>, campaign: Campaign)
    requires SlotContract(slots, campaign) && SlotsInsert(contracts, slots)
    ensures ContractSound(campaign, Rows(slots))
    ensures forall i :: 0 <= i < |Rows(slots)| ==> Rows(slots)[i].status == Available
  {
    var ordered := Sort(slots, OrdinalAtMost);
    SortKeepsElements(slots, OrdinalAtMost);
    forall slot <- slots ensures SlotChecks(slot) {
      var i :| 0 <= i < |slots| && slots[i] == slot;
      assert SlotInserts(contracts, slots[..i], slots[i]);
    }
    forall i | 0 <= i < |ordered|
      ensures ordered[i].Row().currency == campaign.currency
      ensures RewardOf(ordered[i].Row()) == InputReward(ordered[i]) > 0 && OneIfCommunity(ordered[i].Row()) == OneIfCommunityInput(ordered[i])
    {
      assert ordered[i] in slots;
      RowTerms(ordered[i]);
    }
    assert Rows(slots) == Map(ordered, ToRow);
    SumOfMap(ordered, ToRow, RewardOf, InputReward);
    SumOfMap(ordered, ToRow, OneIfCommunity, OneIfCommunityInput);
    SortKeepsSum(slots, OrdinalAtMost, InputReward);
    SortKeepsSum(slots, OrdinalAtMost, OneIfCommunityInput);
    InsertedIdsAreDistinct(contracts, slots);
    SortKeepsDistinct(slots, OrdinalAtMost, PublicIdOf);
    assert forall i :: 0 <= i < |ordered| ==> IdOfSlot(Rows(slots)[i]) == PublicIdOf(ordered[i]);
  }

  /** The slot stored at a position is the one configured with the next ordinal. */
  lemma RowsFollowOrdinals(slots: seq<SlotInput>, campaign: Campaign, i: nat)
    requires SlotContract(slots, campaign) && i < |slots|
    ensures |Sort(slots, OrdinalAtMost)| == |slots|
    ensures Sort(slots, OrdinalAtMost)[i] in slots && Sort(slots, OrdinalAtMost)[i].ordinal == i + 1
    ensures Rows(slots)[i] == Sort(slots, OrdinalAtMost)[i].Row()
  {
    SortKeepsElements(slots, OrdinalAtMost);
    SortMaps(slots, OrdinalOf, OrdinalAtMost, AtMost);
    assert Map(Sort(slots, OrdinalAtMost), OrdinalOf)[i] == i + 1;
  }

  lemma RowsStandAtTheirOrdinals(slots: seq<SlotInput>, campaign: Campaign, k: nat)
    requires SlotContract(slots, campaign) && k < |slots|
    ensures |Rows(slots)| == |slots| && 1 <= slots[k].ordinal <= |slots| && Rows(slots)[slots[k].ordinal - 1] == slots[k].Row()
  {
    hide SlotContract, Sort;
    var ordered := Sort(slots, OrdinalAtMost);
    SortKeepsElements(slots, OrdinalAtMost);
    assert slots[k] in ordered;
    var i :| 0 <= i < |ordered| && ordered[i] == slots[k];
    RowsFollowOrdinals(slots, campaign, i);
  }

  /** In whatever order a contract's slots are sent, each is stored at the position that its ordinal names. */
  lemma ConfiguredSlotsFollowOrdinals(t: Tables, req: ConfigureRequest, k: nat)
    requires ConfigureStep(t, req).Committed? && k < |req.slots|
    ensures req.campaignId in ConfigureStep(t, req).tables.contracts
    ensures var slots, slot := ConfigureStep(t, req).tables.contracts[req.campaignId], req.slots[k];
            |slots| == |req.slots| && 1 <= slot.ordinal <= |slots| && slots[slot.ordinal - 1] == slot.Row()
  {
    hide SlotContract, SlotsInsert, Rows, Blank;
    RowsStandAtTheirOrdinals(req.slots, t.campaigns[req.campaignId], k);
  }

  lemma ConfigureKeepsContracts(t: Tables, req: ConfigureRequest)
    requires ContractsHold(t.campaigns, t.contracts)
    ensures var after := TablesAfter(t, ConfigureStep(t, req)); ContractsHold(after.campaigns, after.contracts)
  {
    if ConfigureStep(t, req).Committed? {
      RowsAreSound(t.contracts, req.slots, t.campaigns[req.campaignId]);
      hide ContractSound;
    }
  }

  // ----- campaigns change status

  predicate SameTerms(x: Campaign, y: Campaign) {
    x == y.(status := x.status, version := x.version)
  }

  lemma ChangingStatusKeepsContracts(campaigns: map<Id, Campaign>, contracts: map<Id, seq<Slot>>, c: Id, campaign: Campaign)
    requires ContractsHold(campaigns, contracts) && c in campaigns && SameTerms(campaign, campaigns[c])
    requires NeedsContract(campaign.status) ==> c in contracts
    ensures ContractsHold(campaigns[c := campaign], contracts)
  {
    assert c in contracts ==> ContractSound(campaigns[c], contracts[c]) == ContractSound(campaign, contracts[c]);
    hide ContractSound;
  }

  lemma CreateDraftKeepsContracts(t: Tables, req: DraftRequest)
    requires ContractsHold(t.campaigns, t.contracts)
    ensures var after := TablesAfter(t, CreateDraftStep(t, req)); ContractsHold(after.campaigns, after.contracts)
  {
    hide ContractSound;
  }

  lemma SubmittedDraftHasContract(campaigns: map<Id, Campaign>, contracts: map<Id, seq<Slot>>, c: Id)
    requires ContractsHold(campaigns, contracts) && c in campaigns && NeedsContract(campaigns[c].status)
    ensures c in contracts
  {
  }

  lemma TransitionChangesStatus(t: Tables, req: TransitionRequest)
    ensures var after, c := TablesAfter(t, TransitionStep(t, req)), req.campaignId;
            && after == t.(campaigns := after.campaigns, requests := after.requests)
            && (after.campaigns != t.campaigns ==>
                  && c in t.campaigns && c in after.campaigns && after.campaigns == t.campaigns[c := after.campaigns[c]]
                  && SameTerms(after.campaigns[c], t.campaigns[c]) && after.campaigns[c].status in AllowedTransitions(t.campaigns[c].status)
                  && (NeedsContract(after.campaigns[c].status) ==> NeedsContract(t.campaigns[c].status) || c in t.contracts))
  {
    hide SlotsReconcile;
  }

  lemma TransitionKeepsContracts(t: Tables, req: TransitionRequest)
    requires ContractsHold(t.campaigns, t.contracts)
    ensures var after := TablesAfter(t, TransitionStep(t, req)); ContractsHold(after.campaigns, after.contracts)
  {
    hide ContractsHold, TransitionStep;
    TransitionChangesStatus(t, req);
    var step, c := TransitionStep(t, req), req.campaignId;
    if step.Committed? && step.tables.campaigns != t.campaigns {
      if NeedsContract(t.campaigns[c].status) {
        SubmittedDraftHasContract(t.campaigns, t.contracts, c);
      }
      ChangingStatusKeepsContracts(t.campaigns, t.contracts, c, step.tables.campaigns[c]);
    }
  }

  // ----- slots change status

  lemma UpdatedRowKeepsContract(campaign: Campaign, slots: seq<Slot>, i: nat, to: SlotStatus)
    requires ContractSound(campaign, slots) && i < |slots|
    ensures ContractSound(campaign, slots[i := slots[i].(status := to, version := slots[i].version + 1)])
  {
    var row := slots[i].(status := to, version := slots[i].version + 1);
    SumOfUpdate(slots, i, row, RewardOf);
    SumOfUpdate(slots, i, row, OneIfCommunity);
  }

  lemma MovingSlotKeepsContracts(campaigns: map<Id, Campaign>, contracts: map<Id, seq<Slot>>, slot: SlotRef, from: SlotStatus, to: SlotStatus)
    requires ContractsHold(campaigns, contracts)
    ensures ContractsHold(campaigns, MoveSlot(contracts, slot, from, to))
  {
    hide ContractSound;
    if SlotIs(contracts, slot, from) {
      var slots := contracts[slot.campaignId];
      UpdatedRowKeepsContract(campaigns[slot.campaignId], slots, slot.position, to);
    }
  }
}
