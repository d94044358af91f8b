/** The double-entry ledger: campaign funding, financial action intents and finance adjustments. */
module Ledger {
  import opened Wrappers
  import opened MarketTables
  import opened Sorting
  import opened FeeAllocation
  import Campaigns

  // ----- accounts

  /** The public id that the ledger builds for an account. */
  function AccountId(account: Account): string {
    match account
    case ProviderClearing(currency) => "acct_provider_clearing_" + currency
    case CampaignFunds(campaignId, currency) => "acct_campaign_funds_" + campaignId + "_" + currency
    case CreatorPayable(creatorId, currency) => "acct_creator_payable_" + creatorId + "_" + currency
    case FeeRevenue(currency) => "acct_platform_fee_revenue_" + currency
    case BusinessRefund(businessId, currency) => "acct_business_refund_" + businessId + "_" + currency
  }

  predicate SameCode(x: Account, y: Account) {
    match x
    case ProviderClearing(_) => y.ProviderClearing?
    case CampaignFunds(_, _) => y.CampaignFunds?
    case CreatorPayable(_, _) => y.CreatorPayable?
    case FeeRevenue(_) => y.FeeRevenue?
    case BusinessRefund(_, _) => y.BusinessRefund?
  }

  /** Whether the account is there or can be inserted; only its code and currency are compared. */
  predicate AccountUsable(accounts: map<string, Account>, account: Account) {
    var id := AccountId(account);
    id in accounts ==> SameCode(accounts[id], account) && accounts[id].currency == account.currency
  }

  function EnsureAccount(accounts: map<string, Account>, account: Account): (r: map<string, Account>)
    ensures AccountId(account) in r
  {
    if AccountId(account) in accounts then accounts else accounts[AccountId(account) := account]
  }

  function Row(accounts: map<string, Account>, account: Account): Account
    requires AccountId(account) in accounts
  {
    accounts[AccountId(account)]
  }

  predicate TransactionIdTaken(journals: map<Source, Journal>, publicId: Id) {
    exists source <- journals :: journals[source].publicId == publicId
  }

  // ----- funding

  /** A campaign's slots as `ORDER BY ordinal` lists them. */
  function SlotRows(slots: seq<Slot>): (rows: seq<SlotRow>)
    ensures |rows| == |slots|
  {
    seq(|slots|, i requires 0 <= i < |slots| => SlotRow(slots[i].publicId, i + 1, slots[i].reward))
  }

  function AllocationOf(fee: SlotFee, currency: string): Allocation {
    Allocation(fee.slot.reward, fee.platformFee, fee.slot.reward + fee.platformFee, currency)
  }

  function Allocations(fees: seq<SlotFee>, currency: string): (rows: seq<Allocation>)
    ensures |rows| == |fees| && forall i :: 0 <= i < |fees| ==> rows[i] == AllocationOf(fees[i], currency)
  {
    seq(|fees|, i requires 0 <= i < |fees| => AllocationOf(fees[i], currency))
  }

  predicate AllocationChecks(allocation: Allocation) {
    allocation.reward > 0 && allocation.platformFee > 0
  }

  predicate ProviderReferenceInserts(snapshots: map<Id, Snapshot>, funding: FundingRequest) {
    && !Blank(funding.providerAccount) && !Blank(funding.providerObjectId)
    && forall c <- snapshots ::
         && snapshots[c].funding.referencePublicId != funding.referencePublicId
         && (snapshots[c].funding.provider, snapshots[c].funding.providerAccount, snapshots[c].funding.providerObjectId)
            != (funding.provider, funding.providerAccount, funding.providerObjectId)
  }

  predicate FundingIdTaken(snapshots: map<Id, Snapshot>, fundingPublicId: Id) {
    exists c <- snapshots :: snapshots[c].funding.fundingPublicId == fundingPublicId
  }

  predicate EventOrGroupTaken(snapshots: map<Id, Snapshot>, funding: FundingRequest) {
    exists c <- snapshots :: snapshots[c].funding.providerEventId == funding.providerEventId
                          || snapshots[c].funding.transferGroup == funding.transferGroup
  }

  /** What inserting the provider reference and the snapshot row reports, in the order the database checks them. */
  function SnapshotRefusal(snapshots: map<Id, Snapshot>, campaign: Campaign, funding: FundingRequest): Option<Error> {
    if !ProviderReferenceInserts(snapshots, funding) then Some(LedgerProviderConflict)
    else if campaign.rewardPool <= 0 || campaign.platformFee <= 0 then Some(ConstraintViolated)
    else if Blank(funding.providerEventId) || Blank(funding.transferGroup) then Some(LedgerProviderConflict)
    else if FundingIdTaken(snapshots, funding.fundingPublicId) || funding.campaignId in snapshots then Some(ConstraintViolated)
    else if EventOrGroupTaken(snapshots, funding) then Some(LedgerProviderConflict)
    else None
  }

  /** The snapshot of the campaign joins its journal. */
  predicate FundingRecorded(t: Tables, campaignId: Id) {
    campaignId in t.snapshots && ProviderFunding(t.snapshots[campaignId].funding.providerEventId) in t.journals
  }

  function ContractOf(t: Tables, campaignId: Id): seq<Slot> {
    if campaignId in t.contracts then t.contracts[campaignId] else []
  }

  /** The slots as selected, and the fee of each; none when the slots or the fee do not reconcile. */
  function AllocationsFor(t: Tables, campaign: Campaign, campaignId: Id): Option<seq<Allocation>> {
    var slots := ContractOf(t, campaignId);
    if |slots| != campaign.slotCount || Sum(slots, Campaigns.RewardOf) != campaign.rewardPool then None
    else
      var fees := AllocateFifteenPercentFee(SlotRows(slots), campaign.platformFee);
      if fees.Failure? then None else Some(Allocations(fees.value, campaign.currency))
  }

  function FundingEntries(accounts: map<string, Account>, campaign: Campaign, funding: FundingRequest): seq<Entry>
    requires AccountId(ProviderClearing(campaign.currency)) in accounts
    requires AccountId(CampaignFunds(funding.campaignId, campaign.currency)) in accounts
  {
    var source := ProviderFunding(funding.providerEventId);
    [Entry(source, Row(accounts, ProviderClearing(campaign.currency)), Debit, campaign.totalDue, campaign.currency, None),
     Entry(source, Row(accounts, CampaignFunds(funding.campaignId, campaign.currency)), Credit, campaign.totalDue, campaign.currency, None)]
  }

  function RecordFundingStep(t: Tables, campaign: Campaign, funding: FundingRequest, allocations: seq<Allocation>): Step<Snapshot> {
    var refusal := SnapshotRefusal(t.snapshots, campaign, funding);
    var clearing := ProviderClearing(campaign.currency);
    var funds := CampaignFunds(funding.campaignId, campaign.currency);
    var withClearing := EnsureAccount(t.accounts, clearing);
    var accounts := EnsureAccount(withClearing, funds);
    var source := ProviderFunding(funding.providerEventId);
    if refusal.Some? then RolledBack(refusal.value)
    else if exists allocation <- allocations :: !AllocationChecks(allocation) then RolledBack(ConstraintViolated)
    else if !AccountUsable(t.accounts, clearing) || !AccountUsable(withClearing, funds) then RolledBack(LedgerAllocationInvalid)
    else if TransactionIdTaken(t.journals, funding.transactionPublicId) then RolledBack(ConstraintViolated)
    else if source in t.journals then RolledBack(LedgerProviderConflict)
    else
      var snapshot := Snapshot(campaign.rewardPool, campaign.platformFee, campaign.totalDue, campaign.currency, funding);
      var journal := Journal(funding.transactionPublicId, CampaignFunding, campaign.totalDue, campaign.currency, FundingAsked(funding));
      Committed(snapshot, t.(snapshots := t.snapshots[funding.campaignId := snapshot],
                             allocations := t.allocations[funding.campaignId := allocations],
                             accounts := accounts,
                             journals := t.journals[source := journal],
                             entries := t.entries + FundingEntries(accounts, campaign, funding),
                             campaigns := t.campaigns[funding.campaignId := campaign.(status := Funded, version := campaign.version + 1)]))
  }

  function FundStep(t: Tables, funding: FundingRequest): Step<Snapshot> {
    if funding.campaignId !in t.campaigns then RolledBack(LedgerTransitionConflict)
    else
      var campaign := t.campaigns[funding.campaignId];
      if FundingRecorded(t, funding.campaignId) then
        var snapshot := t.snapshots[funding.campaignId];
        if t.journals[ProviderFunding(snapshot.funding.providerEventId)].request == FundingAsked(funding)
        then Committed(snapshot, t) else RolledBack(LedgerAlreadyFunded)
      else if campaign.status != Approved then RolledBack(LedgerTransitionConflict)
      else
        var allocations := AllocationsFor(t, campaign, funding.campaignId);
        if allocations.None? then RolledBack(LedgerAllocationInvalid)
        else RecordFundingStep(t, campaign, funding, allocations.value)
  }

  // ----- consuming an intent

  /** The intent joins its assignment, application, slot and campaign. */
  predicate IntentJoins(t: Tables, applicationId: Id) {
    && applicationId in t.intents
    && applicationId in t.assignments
    && applicationId in t.applications
    && SlotExists(t.contracts, t.assignments[applicationId].slot)
    && t.applications[applicationId].campaignId in t.campaigns
  }

  predicate AllocationExists(t: Tables, slot: SlotRef) {
    slot.campaignId in t.snapshots && slot.campaignId in t.allocations && slot.position < |t.allocations[slot.campaignId]|
  }

  predicate FinalStatesMatch(t: Tables, applicationId: Id)
    requires IntentJoins(t, applicationId)
  {
    var completed := t.intents[applicationId].action.CreatorPayableFull?;
    && t.assignments[applicationId].status == (if completed then MissionCompleted else MissionNoPayout)
    && t.applications[applicationId].status == (if completed then AppCompleted else AppNoPayout)
    && SlotAt(t.contracts, t.assignments[applicationId].slot).status == (if completed then SlotCompleted else SlotNoPayout)
  }

  predicate AccountExists(accounts: map<string, Account>, account: Account) {
    exists id <- accounts :: accounts[id] == account
  }

  /** The accounts after the posting has ensured the ones it credits, and what it credits them with. */
  datatype Posting = Posting(accounts: map<string, Account>, credits: seq<Entry>)

  function CompletionPosting(accounts: map<string, Account>, payable: Account, revenue: Account, source: Source,
                             allocation: Allocation, currency: string, slot: SlotRef): Option<Posting>
  {
    var withPayable := EnsureAccount(accounts, payable);
    if !AccountUsable(accounts, payable) || !AccountUsable(withPayable, revenue) then None
    else
      var ensured := EnsureAccount(withPayable, revenue);
      Some(Posting(ensured, [Entry(source, Row(withPayable, payable), Credit, allocation.reward, currency, Some(slot)),
                             Entry(source, Row(ensured, revenue), Credit, allocation.platformFee, currency, Some(slot))]))
  }

  function RefundPosting(accounts: map<string, Account>, refund: Account, source: Source, allocation: Allocation,
                         currency: string, slot: SlotRef): Option<Posting>
  {
    if !AccountUsable(accounts, refund) then None
    else
      var ensured := EnsureAccount(accounts, refund);
      Some(Posting(ensured, [Entry(source, Row(ensured, refund), Credit, allocation.total, currency, Some(slot))]))
  }

  function PostingFor(t: Tables, applicationId: Id): Option<Posting>
    requires IntentJoins(t, applicationId) && AllocationExists(t, t.assignments[applicationId].slot)
  {
    var slot, source := t.assignments[applicationId].slot, IntentSource(applicationId);
    var allocation, currency := t.allocations[slot.campaignId][slot.position], t.snapshots[slot.campaignId].currency;
    if t.intents[applicationId].action.CreatorPayableFull? then
      CompletionPosting(t.accounts, CreatorPayable(t.assignments[applicationId].creatorId, currency), FeeRevenue(currency),
                        source, allocation, currency, slot)
    else
      RefundPosting(t.accounts, BusinessRefund(t.campaigns[t.applications[applicationId].campaignId].businessId, currency),
                    source, allocation, currency, slot)
  }

  function PostIntentStep(t: Tables, applicationId: Id): Step<Journal>
    requires IntentJoins(t, applicationId) && AllocationExists(t, t.assignments[applicationId].slot)
  {
    var intent, slot := t.intents[applicationId], t.assignments[applicationId].slot;
    var allocation, currency := t.allocations[slot.campaignId][slot.position], t.snapshots[slot.campaignId].currency;
    var funds := CampaignFunds(t.applications[applicationId].campaignId, currency);
    var source, posting := IntentSource(applicationId), PostingFor(t, applicationId);
    if !AccountExists(t.accounts, funds) then RolledBack(LedgerIntentNotReady)
    else if TransactionIdTaken(t.journals, "ledger_" + intent.publicId) || source in t.journals then RolledBack(ConstraintViolated)
    else if posting.None? then RolledBack(LedgerAllocationInvalid)
    else
      var journal := Journal("ledger_" + intent.publicId, if intent.action.CreatorPayableFull? then SlotCompletion else SlotRefund,
                             allocation.total, currency, IntentAsked(applicationId, intent.action));
      var debit := Entry(source, funds, Debit, allocation.total, currency, Some(slot));
      Committed(journal, t.(journals := t.journals[source := journal],
                            accounts := posting.value.accounts,
                            entries := t.entries + ([debit] + posting.value.credits),
                            intents := t.intents[applicationId := intent.(status := Posted, version := intent.version + 1)]))
  }

  function ConsumeIntentStep(t: Tables, applicationId: Id): Step<Journal> {
    if !IntentJoins(t, applicationId) then RolledBack(LedgerIntentNotFound)
    else if t.intents[applicationId].status == Posted then
      if IntentSource(applicationId) in t.journals then Committed(t.journals[IntentSource(applicationId)], t)
      else RolledBack(LedgerTransitionConflict)
    else if !AllocationExists(t, t.assignments[applicationId].slot) || !FinalStatesMatch(t, applicationId)
    then RolledBack(LedgerIntentNotReady)
    else PostIntentStep(t, applicationId)
  }

  // ----- finance adjustments

  function AdjustStep(t: Tables, publicId: Id, isFinanceOperator: bool, request: AdjustmentRequest): Step<Journal> {
    var source := AdjustmentSource(publicId);
    if request.amount <= 0 || NoText(request.reason) then RolledBack(LedgerAdjustmentInvalid)
    else if !isFinanceOperator then RolledBack(LedgerAccessDenied)
    else if source in t.journals then
      if t.journals[source].request == AdjustmentAsked(request) then Committed(t.journals[source], t)
      else RolledBack(LedgerIdempotencyConflict)
    else if request.debitAccountId !in t.accounts || request.creditAccountId !in t.accounts
            || request.debitAccountId == request.creditAccountId
    then RolledBack(LedgerAdjustmentInvalid)
    else
      var debit, credit := t.accounts[request.debitAccountId], t.accounts[request.creditAccountId];
      if debit.currency != request.currency || credit.currency != request.currency then RolledBack(LedgerCurrencyMismatch)
      else if Blank(publicId) || TransactionIdTaken(t.journals, publicId) then RolledBack(ConstraintViolated)
      else
        var journal := Journal(publicId, FinanceAdjustment, request.amount, request.currency, AdjustmentAsked(request));
        Committed(journal, t.(journals := t.journals[source := journal],
                              entries := t.entries + [Entry(source, debit, Debit, request.amount, request.currency, None),
                                                      Entry(source, credit, Credit, request.amount, request.currency, None)]))
  }

  class LedgerStore {
    const pool: Database

    constructor (pool: Database)
      ensures this.pool == pool
    {
      this.pool := pool;
    }

    method RecordCampaignFunding(funding: FundingRequest) returns (r: Result<Snapshot, Error>)
      modifies pool
      ensures r == Outcome(FundStep(old(pool.tables), funding))
      ensures pool.tables == TablesAfter(old(pool.tables), FundStep(old(pool.tables), funding))
    {
      hide SnapshotRefusal, TransactionIdTaken, SlotRows;
      var t := pool.tables;
      if funding.campaignId !in t.campaigns {
        return Failure(LedgerTransitionConflict);
      }
      var campaign := t.campaigns[funding.campaignId];
      if FundingRecorded(t, funding.campaignId) {
        var existing := t.snapshots[funding.campaignId];
        if t.journals[ProviderFunding(existing.funding.providerEventId)].request == FundingAsked(funding) {
          return Success(existing);
        }
        return Failure(LedgerAlreadyFunded);
      }
      if campaign.status != Approved {
        return Failure(LedgerTransitionConflict);
      }
      var slots := ContractOf(t, funding.campaignId);
      if |slots| != campaign.slotCount || Sum(slots, Campaigns.RewardOf) != campaign.rewardPool {
        return Failure(LedgerAllocationInvalid);
      }
      var fees := AllocateFifteenPercentFee(SlotRows(slots), campaign.platformFee);
      if fees.Failure? {
        return Failure(LedgerAllocationInvalid);
      }

      var refusal := SnapshotRefusal(t.snapshots, campaign, funding);
      if refusal.Some? {
        return Failure(refusal.value);
      }
      var snapshot := Snapshot(campaign.rewardPool, campaign.platformFee, campaign.totalDue, campaign.currency, funding);
      var snapshots := t.snapshots[funding.campaignId := snapshot];
      var inserted := InsertAllocations(fees.value, campaign.currency);
      if inserted.None? {
        return Failure(ConstraintViolated);
      }
      var allocations := t.allocations[funding.campaignId := inserted.value];

      var accounts := t.accounts;
      if !AccountUsable(accounts, ProviderClearing(campaign.currency)) {
        return Failure(LedgerAllocationInvalid);
      }
      accounts := EnsureAccount(accounts, ProviderClearing(campaign.currency));
      if !AccountUsable(accounts, CampaignFunds(funding.campaignId, campaign.currency)) {
        return Failure(LedgerAllocationInvalid);
      }
      accounts := EnsureAccount(accounts, CampaignFunds(funding.campaignId, campaign.currency));

      if TransactionIdTaken(t.journals, funding.transactionPublicId) {
        return Failure(ConstraintViolated);
      }
      if ProviderFunding(funding.providerEventId) in t.journals {
        return Failure(LedgerProviderConflict);
      }
      var journal := Journal(funding.transactionPublicId, CampaignFunding, campaign.totalDue, campaign.currency, FundingAsked(funding));
      var journals := t.journals[ProviderFunding(funding.providerEventId) := journal];
      var entries := t.entries + FundingEntries(accounts, campaign, funding);
      var campaigns := t.campaigns[funding.campaignId := campaign.(status := Funded, version := campaign.version + 1)];
      pool.tables := t.(snapshots := snapshots, allocations := allocations, accounts := accounts, journals := journals,
                        entries := entries, campaigns := campaigns);
      return Success(snapshot);
    }

    method ConsumeFinancialActionIntent(applicationId: Id) returns (r: Result<Journal, Error>)
      modifies pool
      ensures r == Outcome(ConsumeIntentStep(old(pool.tables), applicationId))
      ensures pool.tables == TablesAfter(old(pool.tables), ConsumeIntentStep(old(pool.tables), applicationId))
    {
      var t := pool.tables;
      if !IntentJoins(t, applicationId) {
        return Failure(LedgerIntentNotFound);
      }
      var intent, slot, source := t.intents[applicationId], t.assignments[applicationId].slot, IntentSource(applicationId);
      if intent.status == Posted {
        if source !in t.journals {
          return Failure(LedgerTransitionConflict);
        }
        return Success(t.journals[source]);
      }
      if !AllocationExists(t, slot) {
        return Failure(LedgerIntentNotReady);
      }
      if !FinalStatesMatch(t, applicationId) {
        return Failure(LedgerIntentNotReady);
      }
      var allocation, currency := t.allocations[slot.campaignId][slot.position], t.snapshots[slot.campaignId].currency;
      var funds := CampaignFunds(t.applications[applicationId].campaignId, currency);
      if !AccountExists(t.accounts, funds) {
        return Failure(LedgerIntentNotReady);
      }
      if TransactionIdTaken(t.journals, "ledger_" + intent.publicId) || source in t.journals {
        return Failure(ConstraintViolated);
      }
      var completion := intent.action == CreatorPayableFull;
      var journal := Journal("ledger_" + intent.publicId, if completion then SlotCompletion else SlotRefund, allocation.total,
                             currency, IntentAsked(applicationId, intent.action));
      var journals := t.journals[source := journal];
      var accounts, entries := t.accounts, t.entries;
      var debit := Entry(source, funds, Debit, allocation.total, currency, Some(slot));
      entries := entries + [debit];
      if completion {
        var payable, revenue := CreatorPayable(t.assignments[applicationId].creatorId, currency), FeeRevenue(currency);
        if !AccountUsable(accounts, payable) {
          return Failure(LedgerAllocationInvalid);
        }
        accounts := EnsureAccount(accounts, payable);
        var creatorPayable := Row(accounts, payable);
        if !AccountUsable(accounts, revenue) {
          return Failure(LedgerAllocationInvalid);
        }
        accounts := EnsureAccount(accounts, revenue);
        var feeRevenue := Row(accounts, revenue);
        entries := entries + [Entry(source, creatorPayable, Credit, allocation.reward, currency, Some(slot)),
                              Entry(source, feeRevenue, Credit, allocation.platformFee, currency, Some(slot))];
      } else {
        var refund := BusinessRefund(t.campaigns[t.applications[applicationId].campaignId].businessId, currency);
        if !AccountUsable(accounts, refund) {
          return Failure(LedgerAllocationInvalid);
        }
        accounts := EnsureAccount(accounts, refund);
        entries := entries + [Entry(source, Row(accounts, refund), Credit, allocation.total, currency, Some(slot))];
      }
      assert entries == t.entries + ([debit] + PostingFor(t, applicationId).value.credits);
      var intents := t.intents[applicationId := intent.(status := Posted, version := intent.version + 1)];
      pool.tables := t.(journals := journals, accounts := accounts, entries := entries, intents := intents);
      return Success(journal);
    }

    method PostFinanceAdjustment(publicId: Id, isFinanceOperator: bool, request: AdjustmentRequest) returns (r: Result<Journal, Error>)
      modifies pool
      ensures r == Outcome(AdjustStep(old(pool.tables), publicId, isFinanceOperator, request))
      ensures pool.tables == TablesAfter(old(pool.tables), AdjustStep(old(pool.tables), publicId, isFinanceOperator, request))
    {
      if request.amount <= 0 || NoText(request.reason) {
        return Failure(LedgerAdjustmentInvalid);
      }
      var t, source := pool.tables, AdjustmentSource(publicId);
      if !isFinanceOperator {
        return Failure(LedgerAccessDenied);
      }
      if source in t.journals {
        if t.journals[source].request == AdjustmentAsked(request) {
          return Success(t.journals[source]);
        }
        return Failure(LedgerIdempotencyConflict);
      }
      if request.debitAccountId !in t.accounts || request.creditAccountId !in t.accounts
         || request.debitAccountId == request.creditAccountId {
        return Failure(LedgerAdjustmentInvalid);
      }
      var debit, credit := t.accounts[request.debitAccountId], t.accounts[request.creditAccountId];
      if debit.currency != request.currency || credit.currency != request.currency {
        return Failure(LedgerCurrencyMismatch);
      }
      if Blank(publicId) || TransactionIdTaken(t.journals, publicId) {
        return Failure(ConstraintViolated);
      }
      var journal := Journal(publicId, FinanceAdjustment, request.amount, request.currency, AdjustmentAsked(request));
      var journals := t.journals[source := journal];
      var entries := t.entries;
      entries := entries + [Entry(source, debit, Debit, request.amount, request.currency, None)];
      entries := entries + [Entry(source, credit, Credit, request.amount, request.currency, None)];
      assert entries == t.entries + [Entry(source, debit, Debit, request.amount, request.currency, None),
                                     Entry(source, credit, Credit, request.amount, request.currency, None)];
      pool.tables := t.(journals := journals, entries := entries);
      return Success(journal);
    }
  }

  /** Inserts the allocations one by one; the first that breaks a constraint undoes them all. */
  method InsertAllocations(fees: seq<SlotFee>, currency: string) returns (rows: Option<seq<Allocation>>)
    ensures rows == if exists allocation <- Allocations(fees, currency) :: !AllocationChecks(allocation) then None
                    else Some(Allocations(fees, currency))
  {
    var inserted: seq<Allocation> := [];
    for i := 0 to |fees|
      invariant inserted == Allocations(fees, currency)[..i]
      invariant forall k :: 0 <= k < i ==> AllocationChecks(inserted[k])
    {
      assert Allocations(fees, currency)[i] == AllocationOf(fees[i], currency);
      if !AllocationChecks(AllocationOf(fees[i], currency)) {
        return None;
      }
      inserted := inserted + [AllocationOf(fees[i], currency)];
    }
    assert inserted == Allocations(fees, currency);
    return Some(inserted);
  }
}
