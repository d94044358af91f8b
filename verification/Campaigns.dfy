/** Campaign drafts and status transitions, each under an idempotency key. */
module Campaigns {
  import opened Wrappers
  import opened MarketTables
  import opened Sorting
  import opened Idempotency

  const CREATE_DRAFT := "campaign.create-draft"
  const TRANSITION := "campaign.transition"

  function AllowedTransitions(from: CampaignStatus): set<CampaignStatus> {
    match from
    case Approved => {Canceled}
    case Canceled => {}
    case Draft => {Submitted, Canceled}
    case Funded => {Published}
    case Published => {}
    case Submitted => {Approved, Canceled}
  }

  /** `managesBusiness` is what the membership table answers about the actor and the business. */
  datatype DraftRequest = DraftRequest(actorId: Id, managesBusiness: bool, key: string, businessId: Id, publicId: Id,
                                       title: string, rewardPool: int, platformFee: int, totalDue: int,
                                       currency: string, slotCount: int)
  {
    function Payload(): Payload {
      DraftPayload(actorId, businessId, publicId, title, rewardPool, platformFee, totalDue, currency, slotCount)
    }

    function Row(): Campaign {
      Campaign(businessId, title, rewardPool, platformFee, totalDue, currency, slotCount, Draft, 1)
    }
  }

  /** `deliverables` is the number of deliverable requirements of the campaign's latest brief. */
  datatype TransitionRequest = TransitionRequest(actorId: Id, managesBusiness: bool, key: string, campaignId: Id,
                                                 expectedVersion: int, reason: Option<string>, toStatus: CampaignStatus,
                                                 deliverables: nat)
  {
    function Payload(): Payload {
      TransitionPayload(actorId, campaignId, expectedVersion, reason, toStatus)
    }
  }

  /** The CHECK constraints of a campaign row. */
  predicate CampaignChecks(campaign: Campaign) {
    && campaign.rewardPool >= 0
    && campaign.platformFee >= 0
    && campaign.totalDue == campaign.rewardPool + campaign.platformFee
    && 1 <= campaign.slotCount <= 20
    && IsCurrencyCode(campaign.currency)
  }

  function RewardOf(slot: Slot): int { slot.reward }

  function OneIfCommunity(slot: Slot): int { if slot.kind.Community? then 1 else 0 }

  // Math.ceil(slotCount * 0.8), which JavaScript computes exactly for the slot counts the table allows.
  function MinimumCommunitySlots(slotCount: int): int { (4 * slotCount + 4) / 5 }

  /** The slots that a campaign may be submitted, approved, funded and published with. */
  predicate SlotsReconcile(campaign: Campaign, slots: seq<Slot>) {
    && |slots| == campaign.slotCount
    && Sum(slots, OneIfCommunity) >= MinimumCommunitySlots(campaign.slotCount)
    && Sum(slots, RewardOf) == campaign.rewardPool
  }

  // A campaign receives its brief together with its slots.
  predicate ContractComplete(t: Tables, campaignId: Id, deliverables: nat)
    requires campaignId in t.campaigns
  {
    campaignId in t.contracts && deliverables >= 1 && SlotsReconcile(t.campaigns[campaignId], t.contracts[campaignId])
  }

  function CreateDraftStep(t: Tables, req: DraftRequest): Step<Record> {
    var earlier := EarlierResponse(t.requests, CREATE_DRAFT, req.key, req.Payload());
    if !req.managesBusiness then RolledBack(CampaignAccessDenied)
    else if earlier.Some? then Answer(t, earlier.value)
    else if !CampaignChecks(req.Row()) || req.publicId in t.campaigns then RolledBack(ConstraintViolated)
    else
      var record := CampaignRecord(req.publicId, req.Row());
      Committed(record, t.(campaigns := t.campaigns[req.publicId := req.Row()],
                           requests := Remember(t.requests, CREATE_DRAFT, req.key, req.Payload(), record)))
  }

  function TransitionStep(t: Tables, req: TransitionRequest): Step<Record> {
    if req.campaignId !in t.campaigns || !req.managesBusiness then RolledBack(CampaignAccessDenied)
    else
      var current := t.campaigns[req.campaignId];
      var earlier := EarlierResponse(t.requests, TRANSITION, req.key, req.Payload());
      if earlier.Some? then Answer(t, earlier.value)
      else if current.version != req.expectedVersion then RolledBack(CampaignVersionConflict)
      else if req.toStatus !in AllowedTransitions(current.status) then RolledBack(CampaignTransitionConflict)
      else if current.status == Draft && req.toStatus == Submitted && !ContractComplete(t, req.campaignId, req.deliverables)
      then RolledBack(CampaignContractIncomplete)
      else
        var updated := current.(status := req.toStatus, version := current.version + 1);
        var record := CampaignRecord(req.campaignId, updated);
        Committed(record, t.(campaigns := t.campaigns[req.campaignId := updated],
                             requests := Remember(t.requests, TRANSITION, req.key, req.Payload(), record)))
  }

  class CampaignStore {
    const pool: Database

    constructor (pool: Database)
      ensures this.pool == pool
    {
      this.pool := pool;
    }

    method CreateDraftCampaign(req: DraftRequest) returns (r: Result<Record, Error>)
      modifies pool
      ensures r == Outcome(CreateDraftStep(old(pool.tables), req))
      ensures pool.tables == TablesAfter(old(pool.tables), CreateDraftStep(old(pool.tables), req))
    {
      var t := pool.tables;
      if !req.managesBusiness {
        return Failure(CampaignAccessDenied);
      }
      if (CREATE_DRAFT, req.key) in t.requests {
        return ExistingResponse(t.requests[(CREATE_DRAFT, req.key)], req.Payload());
      }
      var requests := ClaimKey(t.requests, CREATE_DRAFT, req.key, req.Payload());

      if !CampaignChecks(req.Row()) || req.publicId in t.campaigns {
        return Failure(ConstraintViolated);
      }
      var campaigns := t.campaigns[req.publicId := req.Row()];
      var record := CampaignRecord(req.publicId, campaigns[req.publicId]);
      ClaimThenComplete(t.requests, CREATE_DRAFT, req.key, req.Payload(), record);
      requests := CompleteKey(requests, CREATE_DRAFT, req.key, record);
      pool.tables := t.(campaigns := campaigns, requests := requests);
      return Success(record);
    }

    method TransitionCampaign(req: TransitionRequest) returns (r: Result<Record, Error>)
      modifies pool
      ensures r == Outcome(TransitionStep(old(pool.tables), req))
      ensures pool.tables == TablesAfter(old(pool.tables), TransitionStep(old(pool.tables), req))
    {
      var t := pool.tables;
      if req.campaignId !in t.campaigns || !req.managesBusiness {
        return Failure(CampaignAccessDenied);
      }
      var current := t.campaigns[req.campaignId];
      if (TRANSITION, req.key) in t.requests {
        return ExistingResponse(t.requests[(TRANSITION, req.key)], req.Payload());
      }
      var requests := ClaimKey(t.requests, TRANSITION, req.key, req.Payload());

      if current.version != req.expectedVersion {
        return Failure(CampaignVersionConflict);
      }
      if req.toStatus !in AllowedTransitions(current.status) {
        return Failure(CampaignTransitionConflict);
      }
      if current.status == Draft && req.toStatus == Submitted && !ContractComplete(t, req.campaignId, req.deliverables) {
        return Failure(CampaignContractIncomplete);
      }
      var campaigns := t.campaigns[req.campaignId := current.(status := req.toStatus, version := current.version + 1)];
      var record := CampaignRecord(req.campaignId, campaigns[req.campaignId]);
      ClaimThenComplete(t.requests, TRANSITION, req.key, req.Payload(), record);
      requests := CompleteKey(requests, TRANSITION, req.key, record);
      pool.tables := t.(campaigns := campaigns, requests := requests);
      return Success(record);
    }
  }
}
