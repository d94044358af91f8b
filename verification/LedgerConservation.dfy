/** What the journals move: every campaign's funds, and where they go. */
module LedgerConservation {
  import opened Wrappers
  import opened MarketTables
  import opened Sorting
  import opened Ledger
  import opened LedgerAccounts

  // ----- what an entry contributes to a total

  function Signed(entry: Entry): int { if entry.direction == Credit then entry.amount else -entry.amount }

  function Movement(account: Account): Entry -> int {
    (entry: Entry) => if entry.account == account then Signed(entry) else 0
  }

  function Adjusted(account: Account): Entry -> int {
    (entry: Entry) => if entry.account == account && entry.source.AdjustmentSource? then Signed(entry) else 0
  }

  function FundedAndDrained(account: Account): Entry -> int {
    (entry: Entry) => if entry.account == account && !entry.source.AdjustmentSource? then Signed(entry) else 0
  }

  function SideOf(source: Source, direction: Direction): Entry -> int {
    (entry: Entry) => if entry.source == source && entry.direction == direction then entry.amount else 0
  }

  function DebitsOf(slot: SlotRef): Entry -> int {
    (entry: Entry) => if entry.allocation == Some(slot) && entry.direction == Debit then 1 else 0
  }

  datatype Payee = Creators | Platform | Business

  predicate Pays(account: Account, payee: Payee) {
    match payee
    case Creators => account.CreatorPayable?
    case Platform => account.FeeRevenue?
    case Business => account.BusinessRefund?
  }

  function PaidTo(payee: Payee, campaignId: Id): Entry -> int {
    (entry: Entry) =>
      if entry.allocation.Some? && entry.allocation.value.campaignId == campaignId && entry.direction == Credit
         && Pays(entry.account, payee)
      then entry.amount else 0
  }

  // ----- sums over a campaign's slots

  function RewardPart(allocation: Allocation): int { allocation.reward }

  function FeePart(allocation: Allocation): int { allocation.platformFee }

  function TotalPart(allocation: Allocation): int { allocation.total }

  /** The parts of the allocations, from a position on, whose slots are in the set. */
  function SumWithin(allocations: seq<Allocation>, campaignId: Id, from: nat, slots: set<SlotRef>, part: Allocation -> int): int
    decreases |allocations| - from
  {
    if from >= |allocations| then 0
    else (if SlotRef(campaignId, from) in slots then part(allocations[from]) else 0)
         + SumWithin(allocations, campaignId, from + 1, slots, part)
  }

  function SumOutside(allocations: seq<Allocation>, campaignId: Id, from: nat, slots: set<SlotRef>, part: Allocation -> int): int
    decreases |allocations| - from
  {
    if from >= |allocations| then 0
    else (if SlotRef(campaignId, from) in slots then 0 else part(allocations[from]))
         + SumOutside(allocations, campaignId, from + 1, slots, part)
  }

  lemma {:induction false} InsideAndOutside(allocations: seq<Allocation>, campaignId: Id, from: nat, slots: set<SlotRef>, part: Allocation -> int)
    requires from <= |allocations|
    ensures SumWithin(allocations, campaignId, from, slots, part) + SumOutside(allocations, campaignId, from, slots, part)
            == Sum(allocations[from..], part)
    decreases |allocations| - from
  {
    if from < |allocations| {
      InsideAndOutside(allocations, campaignId, from + 1, slots, part);
      assert allocations[from..][1..] == allocations[from + 1..];
    }
  }

  lemma {:induction false} AddingSlot(allocations: seq<Allocation>, from: nat, slots: set<SlotRef>, slot: SlotRef, campaignId: Id, part: Allocation -> int)
    requires slot !in slots
    ensures SumWithin(allocations, campaignId, from, slots + {slot}, part)
            == SumWithin(allocations, campaignId, from, slots, part)
               + if slot.campaignId == campaignId && from <= slot.position < |allocations| then part(allocations[slot.position]) else 0
    decreases |allocations| - from
  {
    if from < |allocations| {
      AddingSlot(allocations, from + 1, slots, slot, campaignId, part);
    }
  }

  lemma {:induction false} NothingWithin(allocations: seq<Allocation>, campaignId: Id, from: nat, slots: set<SlotRef>, part: Allocation -> int)
    requires forall slot <- slots :: slot.campaignId != campaignId
    ensures SumWithin(allocations, campaignId, from, slots, part) == 0
    decreases |allocations| - from
  {
    if from < |allocations| {
      NothingWithin(allocations, campaignId, from + 1, slots, part);
    }
  }

  lemma {:induction false} DisjointSlots(allocations: seq<Allocation>, campaignId: Id, from: nat, left: set<SlotRef>, right: set<SlotRef>, part: Allocation -> int)
    requires left !! right
    ensures SumWithin(allocations, campaignId, from, left + right, part)
            == SumWithin(allocations, campaignId, from, left, part) + SumWithin(allocations, campaignId, from, right, part)
    decreases |allocations| - from
  {
    if from < |allocations| {
      DisjointSlots(allocations, campaignId, from + 1, left, right, part);
    }
  }

  // ----- the invariants

  /** The slots whose intent for the action has been posted. */
  ghost function PostedSlots(assignments: map<Id, Assignment>, intents: map<Id, Intent>, action: IntentAction): set<SlotRef> {
    set a | a in intents && a in assignments && intents[a].status == Posted && intents[a].action == action :: assignments[a].slot
  }

  predicate AllocationSound(allocation: Allocation, slot: Slot) {
    && allocation.reward == slot.reward > 0
    && allocation.platformFee > 0
    && allocation.total == allocation.reward + allocation.platformFee
    && allocation.currency == slot.currency
  }

  ghost predicate SnapshotSound(campaign: Campaign, slots: seq<Slot>, snapshot: Snapshot, allocations: seq<Allocation>) {
    && snapshot.rewardPool == campaign.rewardPool && snapshot.platformFee == campaign.platformFee
    && snapshot.totalDue == campaign.totalDue && snapshot.currency == campaign.currency
    && |allocations| == |slots|
    && (forall i :: 0 <= i < |slots| ==> AllocationSound(allocations[i], slots[i]) && slots[i].currency == snapshot.currency)
    && Sum(allocations, RewardPart) == snapshot.rewardPool
    && Sum(allocations, FeePart) == snapshot.platformFee
    && Sum(allocations, TotalPart) == snapshot.totalDue
  }

  ghost predicate SnapshotsHold(campaigns: map<Id, Campaign>, contracts: map<Id, seq<Slot>>, snapshots: map<Id, Snapshot>,
                                allocations: map<Id, seq<Allocation>>)
  {
    && (forall c :: c in snapshots <==> c in campaigns && campaigns[c].status in {Funded, Published})
    && allocations.Keys == snapshots.Keys
    && (forall c :: c in snapshots ==> c in contracts && SnapshotSound(campaigns[c], contracts[c], snapshots[c], allocations[c]))
  }

  ghost predicate AccountsHold(accounts: map<string, Account>, snapshots: map<Id, Snapshot>) {
    && AccountsKeyed(accounts)
    && (forall id :: id in accounts && accounts[id].CampaignFunds? ==> accounts[id].campaignId in snapshots)
    && (forall c :: c in snapshots ==> |snapshots[c].currency| == 3 && AccountId(CampaignFunds(c, snapshots[c].currency)) in accounts)
  }

  ghost predicate JournalsHold(intents: map<Id, Intent>, snapshots: map<Id, Snapshot>, journals: map<Source, Journal>) {
    && (forall a :: IntentSource(a) in journals <==> a in intents && intents[a].status == Posted)
    && (forall a :: IntentSource(a) in journals ==> journals[IntentSource(a)].request == IntentAsked(a, intents[a].action))
    && (forall c :: c in snapshots ==>
          && ProviderFunding(snapshots[c].funding.providerEventId) in journals
          && journals[ProviderFunding(snapshots[c].funding.providerEventId)].request == FundingAsked(snapshots[c].funding))
  }

  predicate EntrySound(entry: Entry, accounts: map<string, Account>, snapshots: map<Id, Snapshot>, journals: map<Source, Journal>) {
    && entry.amount > 0
    && entry.source in journals && entry.currency == journals[entry.source].currency
    && AccountId(entry.account) in accounts && accounts[AccountId(entry.account)] == entry.account
    && (entry.allocation.Some? ==> entry.allocation.value.campaignId in snapshots)
  }

  ghost predicate EntriesSound(entries: seq<Entry>, accounts: map<string, Account>, snapshots: map<Id, Snapshot>, journals: map<Source, Journal>) {
    forall i :: 0 <= i < |entries| ==> EntrySound(entries[i], accounts, snapshots, journals)
  }

  ghost predicate Balanced(entries: seq<Entry>, journals: map<Source, Journal>) {
    forall source :: source in journals ==>
      Sum(entries, SideOf(source, Debit)) == journals[source].total == Sum(entries, SideOf(source, Credit)) && journals[source].total > 0
  }

  ghost predicate DebitedOnce(entries: seq<Entry>, posted: set<SlotRef>) {
    forall slot :: Sum(entries, DebitsOf(slot)) == if slot in posted then 1 else 0
  }

  ghost predicate Conserved(campaignId: Id, snapshot: Snapshot, allocations: seq<Allocation>, entries: seq<Entry>,
                            completed: set<SlotRef>, refunded: set<SlotRef>)
  {
    && Sum(entries, FundedAndDrained(CampaignFunds(campaignId, snapshot.currency)))
       == snapshot.totalDue - SumWithin(allocations, campaignId, 0, completed + refunded, TotalPart)
    && Sum(entries, PaidTo(Creators, campaignId)) == SumWithin(allocations, campaignId, 0, completed, RewardPart)
    && Sum(entries, PaidTo(Platform, campaignId)) == SumWithin(allocations, campaignId, 0, completed, FeePart)
    && Sum(entries, PaidTo(Business, campaignId)) == SumWithin(allocations, campaignId, 0, refunded, TotalPart)
  }

  ghost predicate AllConserved(snapshots: map<Id, Snapshot>, allocations: map<Id, seq<Allocation>>, entries: seq<Entry>,
                               completed: set<SlotRef>, refunded: set<SlotRef>)
    requires allocations.Keys == snapshots.Keys
  {
    && (forall c :: c in snapshots ==> Conserved(c, snapshots[c], allocations[c], entries, completed, refunded))
    && completed !! refunded
    && (forall slot :: slot in completed + refunded ==> slot.campaignId in snapshots)
  }

  ghost predicate EntriesHold(snapshots: map<Id, Snapshot>, allocations: map<Id, seq<Allocation>>, accounts: map<string, Account>,
                              journals: map<Source, Journal>, entries: seq<Entry>, completed: set<SlotRef>, refunded: set<SlotRef>)
    requires allocations.Keys == snapshots.Keys
  {
    && EntriesSound(entries, accounts, snapshots, journals)
    && Balanced(entries, journals)
    && DebitedOnce(entries, completed + refunded)
    && AllConserved(snapshots, allocations, entries, completed, refunded)
  }

  ghost predicate LedgerHolds(t: Tables) {
    && SnapshotsHold(t.campaigns, t.contracts, t.snapshots, t.allocations)
    && AccountsHold(t.accounts, t.snapshots)
    && JournalsHold(t.intents, t.snapshots, t.journals)
    && EntriesHold(t.snapshots, t.allocations, t.accounts, t.journals, t.entries,
                   PostedSlots(t.assignments, t.intents, CreatorPayableFull), PostedSlots(t.assignments, t.intents, SlotRefundFull))
  }

  // ----- sums after appending entries

  lemma SumOfTwo(x: Entry, y: Entry, weight: Entry -> int)
    ensures Sum([x, y], weight) == weight(x) + weight(y)
  {
    assert [x, y][1..] == [y];
    assert Sum([y], weight) == weight(y) + Sum([y][1..], weight);
  }

  lemma SumOfThree(x: Entry, y: Entry, z: Entry, weight: Entry -> int)
    ensures Sum([x] + [y, z], weight) == weight(x) + weight(y) + weight(z)
  {
    assert ([x] + [y, z])[1..] == [y, z];
    SumOfTwo(y, z, weight);
  }

  lemma {:induction false} SumIsZero(entries: seq<Entry>, weight: Entry -> int)
    requires forall i :: 0 <= i < |entries| ==> weight(entries[i]) == 0
    ensures Sum(entries, weight) == 0
  {
    if entries != [] {
      SumIsZero(entries[1..], weight);
    }
  }

  lemma {:induction false} MovementSplits(entries: seq<Entry>, account: Account)
    ensures Sum(entries, Movement(account)) == Sum(entries, FundedAndDrained(account)) + Sum(entries, Adjusted(account))
  {
    if entries != [] {
      MovementSplits(entries[1..], account);
    }
  }

  // ----- new entries and the totals they do not touch

  predicate Unrelated(campaignId: Id, currency: string, entry: Entry) {
    && FundedAndDrained(CampaignFunds(campaignId, currency))(entry) == 0
    && (entry.allocation.Some? ==> entry.allocation.value.campaignId != campaignId)
  }

  lemma UnrelatedEntriesKeepConserved(campaignId: Id, snapshot: Snapshot, allocations: seq<Allocation>, entries: seq<Entry>,
                                      completed: set<SlotRef>, refunded: set<SlotRef>, added: seq<Entry>)
    requires Conserved(campaignId, snapshot, allocations, entries, completed, refunded)
    requires forall i :: 0 <= i < |added| ==> Unrelated(campaignId, snapshot.currency, added[i])
    ensures Conserved(campaignId, snapshot, allocations, entries + added, completed, refunded)
  {
    SumSplits(entries, added, FundedAndDrained(CampaignFunds(campaignId, snapshot.currency)));
    SumIsZero(added, FundedAndDrained(CampaignFunds(campaignId, snapshot.currency)));
    forall payee: Payee ensures Sum(entries + added, PaidTo(payee, campaignId)) == Sum(entries, PaidTo(payee, campaignId)) {
      SumSplits(entries, added, PaidTo(payee, campaignId));
      SumIsZero(added, PaidTo(payee, campaignId));
    }
  }

  lemma NewJournalKeepsBalanced(entries: seq<Entry>, journals: map<Source, Journal>, source: Source, journal: Journal, added: seq<Entry>)
    requires Balanced(entries, journals) && source !in journals
    requires forall i :: 0 <= i < |entries| ==> entries[i].source in journals
    requires forall i :: 0 <= i < |added| ==> added[i].source == source
    requires Sum(added, SideOf(source, Debit)) == journal.total == Sum(added, SideOf(source, Credit)) && journal.total > 0
    ensures Balanced(entries + added, journals[source := journal])
  {
    forall other, direction | other in journals[source := journal]
      ensures Sum(entries + added, SideOf(other, direction)) == journals[source := journal][other].total
    {
      SumSplits(entries, added, SideOf(other, direction));
      if other == source {
        SumIsZero(entries, SideOf(other, direction));
        assert direction == Debit || direction == Credit;
      } else {
        SumIsZero(added, SideOf(other, direction));
        assert direction == Debit || direction == Credit;
      }
    }
  }

  lemma NewEntriesAreSound(entries: seq<Entry>, added: seq<Entry>, accounts: map<string, Account>, snapshots: map<Id, Snapshot>,
                           journals: map<Source, Journal>, accounts': map<string, Account>, snapshots': map<Id, Snapshot>,
                           journals': map<Source, Journal>)
    requires EntriesSound(entries, accounts, snapshots, journals)
    requires forall id :: id in accounts ==> id in accounts' && accounts'[id] == accounts[id]
    requires snapshots.Keys <= snapshots'.Keys
    requires forall source :: source in journals ==> source in journals' && journals'[source] == journals[source]
    requires EntriesSound(added, accounts', snapshots', journals')
    ensures EntriesSound(entries + added, accounts', snapshots', journals')
  {
    forall i | 0 <= i < |entries + added| ensures EntrySound((entries + added)[i], accounts', snapshots', journals') {
      if i < |entries| {
        assert EntrySound(entries[i], accounts, snapshots, journals);
      }
    }
  }

  lemma EntriesWithoutSlotKeepDebitedOnce(entries: seq<Entry>, posted: set<SlotRef>, added: seq<Entry>)
    requires DebitedOnce(entries, posted)
    requires forall i :: 0 <= i < |added| ==> added[i].allocation.None?
    ensures DebitedOnce(entries + added, posted)
  {
    forall slot ensures Sum(entries + added, DebitsOf(slot)) == if slot in posted then 1 else 0 {
      SumSplits(entries, added, DebitsOf(slot));
      SumIsZero(added, DebitsOf(slot));
    }
  }
}
