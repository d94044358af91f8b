/** Campaign contracts, and creators' applications that reserve their slots. */
module Applications {
  import opened Wrappers
  import opened MarketTables
  import opened Sorting
  import opened Idempotency
  import Campaigns

  // ----- a campaign's slots

  datatype SlotType = CommunityType | ReachType

  datatype SlotInput = SlotInput(publicId: Id, ordinal: int, slotType: SlotType, baseReward: int, bonusReward: int,
                                 addOnBonus: Option<int>, reachLevel: Option<ReachLevel>, reachPlatform: Option<string>,
                                 currency: string)
  {
    function AddOn(): int { if addOnBonus.Some? then addOnBonus.value else 0 }

    function Reward(): int { baseReward + bonusReward + AddOn() }

    function Row(): Slot {
      var kind := if reachLevel.Some? && reachPlatform.Some? then Reach(ReachTier(reachPlatform.value, reachLevel.value)) else Community;
      Slot(publicId, kind, Reward(), currency, Available, 1)
    }
  }

  function InputReward(slot: SlotInput): int { slot.Reward() }

  function OneIfCommunityInput(slot: SlotInput): int { if slot.slotType.CommunityType? then 1 else 0 }

  function PublicIdOf(slot: SlotInput): Id { slot.publicId }

  function OrdinalOf(slot: SlotInput): int { slot.ordinal }

  predicate AtMost(x: int, y: int) { x <= y }

  predicate OrdinalAtMost(x: SlotInput, y: SlotInput) { AtMost(OrdinalOf(x), OrdinalOf(y)) }

  predicate ValidReachConfiguration(slot: SlotInput) {
    && slot.AddOn() >= 0
    && if slot.slotType.CommunityType? then slot.reachLevel.None? && slot.reachPlatform.None? && slot.bonusReward == 0
       else slot.reachLevel.Some? && slot.reachPlatform.Some? && slot.bonusReward > 0
  }

  predicate SlotContract(slots: seq<SlotInput>, campaign: Campaign) {
    && |slots| == campaign.slotCount
    && Sort(Map(slots, OrdinalOf), AtMost) == seq(|slots|, i => i + 1)
    && Sum(slots, InputReward) == campaign.rewardPool
    && Sum(slots, OneIfCommunityInput) >= Campaigns.MinimumCommunitySlots(campaign.slotCount)
    && (forall slot <- slots :: slot.currency == campaign.currency)
    && (forall slot <- slots :: ValidReachConfiguration(slot))
  }

  /** The CHECK constraints of a slot row that SlotContract does not already imply. */
  predicate SlotChecks(slot: SlotInput) {
    && slot.baseReward > 0
    && (slot.slotType.ReachType? ==>
          match slot.reachLevel
          case None => false
          case Some(Level1) => slot.bonusReward * 2 == slot.baseReward
          case Some(Level2) => slot.bonusReward == slot.baseReward
          case Some(Level3) => slot.bonusReward == slot.baseReward * 2)
  }

  predicate SlotIdTaken(contracts: map<Id, seq<Slot>>, publicId: Id) {
    exists campaignId <- contracts :: exists slot <- contracts[campaignId] :: slot.publicId == publicId
  }

  predicate SlotInserts(contracts: map<Id, seq<Slot>>, earlier: seq<SlotInput>, slot: SlotInput) {
    SlotChecks(slot) && !SlotIdTaken(contracts, slot.publicId) && forall other <- earlier :: other.publicId != slot.publicId
  }

  predicate SlotsInsert(contracts: map<Id, seq<Slot>>, slots: seq<SlotInput>) {
    forall i :: 0 <= i < |slots| ==> SlotInserts(contracts, slots[..i], slots[i])
  }

  /** The inserted rows as `ORDER BY ordinal` lists them. */
  function Rows(slots: seq<SlotInput>): seq<Slot> {
    Map(Sort(slots, OrdinalAtMost), (slot: SlotInput) => slot.Row())
  }

  /** Inserts the slots one by one; the first that breaks a constraint undoes them all. */
  method InsertSlots(contracts: map<Id, seq<Slot>>, slots: seq<SlotInput>) returns (rows: Option<seq<Slot>>)
    ensures rows == if SlotsInsert(contracts, slots) then Some(Rows(slots)) else None
  {
    var inserted: seq<SlotInput> := [];
    for i := 0 to |slots|
      invariant inserted == slots[..i]
      invariant forall k :: 0 <= k < i ==> SlotInserts(contracts, slots[..k], slots[k])
    {
      if !SlotInserts(contracts, inserted, slots[i]) {
        return None;
      }
      inserted := inserted + [slots[i]];
    }
    assert inserted == slots;
    return Some(Rows(inserted));
  }

  datatype ConfigureRequest = ConfigureRequest(campaignId: Id, managesBusiness: bool, templateActive: bool, brief: string,
                                               slots: seq<SlotInput>)

  datatype ContractSummary = ContractSummary(briefVersion: int, communitySlots: int, totalSlots: int)

  function ConfigureStep(t: Tables, req: ConfigureRequest): Step<ContractSummary> {
    if req.campaignId !in t.campaigns || !req.managesBusiness then RolledBack(ApplicationAccessDenied)
    else if t.campaigns[req.campaignId].status != Draft then RolledBack(CampaignNotAvailable)
    else if req.campaignId in t.contracts || !req.templateActive || !SlotContract(req.slots, t.campaigns[req.campaignId])
    then RolledBack(CampaignContractIncomplete)
    else if Blank(req.brief) || !SlotsInsert(t.contracts, req.slots) then RolledBack(ConstraintViolated)
    else Committed(ContractSummary(1, Sum(req.slots, OneIfCommunityInput), |req.slots|),
                   t.(contracts := t.contracts[req.campaignId := Rows(req.slots)]))
  }

  // ----- applications

  /** What the creator asks for: any Community Slot, or a Reach Slot of a tier for which they hold a
      current qualification with consent on a capable platform. */
  datatype Mission = CommunityMission | ReachMission(tiers: set<ReachTier>)
  {
    function Operation(): string {
      if CommunityMission? then "mission-application.apply" else "mission-application.apply-reach"
    }

    predicate Suits(slot: Slot) {
      if CommunityMission? then slot.kind.Community? else slot.kind.Reach? && slot.kind.tier in tiers
    }
  }

  /** `eligible` is what the creator's profile answers; `locked` are the slots another transaction holds,
      which the selection skips. */
  datatype ApplyRequest = ApplyRequest(campaignId: Id, creatorId: Id, publicId: Id, key: Option<string>, mission: Mission,
                                       eligible: bool, locked: set<nat>)
  {
    function Payload(): Payload { ApplyPayload(campaignId, creatorId, publicId) }
  }

  predicate Open(slots: seq<Slot>, req: ApplyRequest, position: nat)
    requires position < |slots|
  {
    slots[position].status == Available && req.mission.Suits(slots[position]) && position !in req.locked
  }

  function FirstOpen(slots: seq<Slot>, req: ApplyRequest, from: nat): (position: Option<nat>)
    requires from <= |slots|
    ensures position.Some? ==> from <= position.value < |slots| && Open(slots, req, position.value)
    ensures forall i :: from <= i < (if position.Some? then position.value else |slots|) ==> !Open(slots, req, i)
    decreases |slots| - from
  {
    if from == |slots| then None
    else if Open(slots, req, from) then Some(from)
    else FirstOpen(slots, req, from + 1)
  }

  predicate HasApplied(applications: map<Id, Application>, campaignId: Id, creatorId: Id) {
    exists a <- applications :: applications[a].campaignId == campaignId && applications[a].creatorId == creatorId
  }

  /** Some application holds the slot by a reservation that was not released. */
  predicate SlotHeld(reservations: map<Id, Reservation>, slot: SlotRef) {
    exists a <- reservations :: reservations[a].slot == slot && reservations[a].status != ReleasedReservation
  }

  predicate IsPublished(campaigns: map<Id, Campaign>, campaignId: Id) {
    campaignId in campaigns && campaigns[campaignId].status == Published
  }

  function OpenSlot(t: Tables, req: ApplyRequest): Option<nat> {
    if req.campaignId in t.contracts then FirstOpen(t.contracts[req.campaignId], req, 0) else None
  }

  function ReserveSlot(t: Tables, req: ApplyRequest, slot: SlotRef): Step<Record> {
    if req.publicId in t.applications then RolledBack(ConstraintViolated)
    else if HasApplied(t.applications, req.campaignId, req.creatorId) then RolledBack(ApplicationAlreadyExists)
    else if req.publicId in t.reservations || SlotHeld(t.reservations, slot) then RolledBack(ConstraintViolated)
    else
      var application := Application(req.campaignId, req.creatorId, AppSubmitted, 1);
      var record := ApplicationRecord(req.publicId, application, slot);
      Committed(record, t.(applications := t.applications[req.publicId := application],
                           contracts := MoveSlot(t.contracts, slot, Available, Reserved),
                           reservations := t.reservations[req.publicId := Reservation(slot, ActiveReservation)],
                           requests := if req.key.None? then t.requests
                                       else Remember(t.requests, req.mission.Operation(), req.key.value, req.Payload(), record)))
  }

  function ApplyStep(t: Tables, req: ApplyRequest): Step<Record> {
    var earlier := if req.key.None? then None else EarlierResponse(t.requests, req.mission.Operation(), req.key.value, req.Payload());
    if earlier.Some? then Answer(t, earlier.value)
    else if !req.eligible then RolledBack(CreatorNotQualified)
    else if !IsPublished(t.campaigns, req.campaignId) then RolledBack(CampaignNotAvailable)
    else
      var position := OpenSlot(t, req);
      if position.None? then RolledBack(if req.mission.CommunityMission? then MissionCapacityFull else CreatorNotQualified)
      else ReserveSlot(t, req, SlotRef(req.campaignId, position.value))
  }

  // ----- the business accepts, the creator withdraws

  datatype AcceptRequest = AcceptRequest(applicationId: Id, managesBusiness: bool)

  datatype WithdrawRequest = WithdrawRequest(applicationId: Id, creatorId: Id)

  /** The application joins its campaign, its reservation and the reserved slot. */
  predicate Joins(t: Tables, applicationId: Id) {
    && applicationId in t.applications
    && t.applications[applicationId].campaignId in t.campaigns
    && applicationId in t.reservations
    && SlotExists(t.contracts, t.reservations[applicationId].slot)
  }

  function Leave(t: Tables, applicationId: Id, status: ApplicationStatus, reservation: ReservationStatus, slot: SlotStatus): Step<Record>
    requires Joins(t, applicationId)
  {
    if t.applications[applicationId].status != AppSubmitted then RolledBack(ApplicationTransitionConflict)
    else
      var applications := MoveApplication(t.applications, applicationId, status);
      var ref := t.reservations[applicationId].slot;
      Committed(ApplicationRecord(applicationId, applications[applicationId], ref),
                t.(applications := applications,
                   reservations := MoveReservation(t.reservations, applicationId, reservation),
                   contracts := MoveSlot(t.contracts, ref, Reserved, slot)))
  }

  function AcceptStep(t: Tables, req: AcceptRequest): Step<Record> {
    if !Joins(t, req.applicationId) || !req.managesBusiness then RolledBack(ApplicationAccessDenied)
    else Leave(t, req.applicationId, AppAccepted, ConvertedReservation, SlotAccepted)
  }

  function WithdrawStep(t: Tables, req: WithdrawRequest): Step<Record> {
    if !Joins(t, req.applicationId) || t.applications[req.applicationId].creatorId != req.creatorId
    then RolledBack(ApplicationAccessDenied)
    else Leave(t, req.applicationId, AppWithdrawn, ReleasedReservation, Available)
  }

  class MissionApplicationStore {
    const pool: Database

    constructor (pool: Database)
      ensures this.pool == pool
    {
      this.pool := pool;
    }

    method ConfigureCampaignContract(req: ConfigureRequest) returns (r: Result<ContractSummary, Error>)
      modifies pool
      ensures r == Outcome(ConfigureStep(old(pool.tables), req))
      ensures pool.tables == TablesAfter(old(pool.tables), ConfigureStep(old(pool.tables), req))
    {
      var t := pool.tables;
      if req.campaignId !in t.campaigns || !req.managesBusiness {
        return Failure(ApplicationAccessDenied);
      }
      if t.campaigns[req.campaignId].status != Draft {
        return Failure(CampaignNotAvailable);
      }
      if req.campaignId in t.contracts || !req.templateActive || !SlotContract(req.slots, t.campaigns[req.campaignId]) {
        return Failure(CampaignContractIncomplete);
      }
      if Blank(req.brief) {
        return Failure(ConstraintViolated);
      }
      var rows := InsertSlots(t.contracts, req.slots);
      if rows.None? {
        return Failure(ConstraintViolated);
      }
      pool.tables := t.(contracts := t.contracts[req.campaignId := rows.value]);
      return Success(ContractSummary(1, Sum(req.slots, OneIfCommunityInput), |req.slots|));
    }

    method Apply(req: ApplyRequest) returns (r: Result<Record, Error>)
      modifies pool
      ensures r == Outcome(ApplyStep(old(pool.tables), req))
      ensures pool.tables == TablesAfter(old(pool.tables), ApplyStep(old(pool.tables), req))
    {
      var t, operation := pool.tables, req.mission.Operation();
      var requests := t.requests;
      if req.key.Some? {
        if (operation, req.key.value) in requests {
          return ExistingResponse(requests[(operation, req.key.value)], req.Payload());
        }
        requests := ClaimKey(requests, operation, req.key.value, req.Payload());
      }
      if !req.eligible {
        return Failure(CreatorNotQualified);
      }
      if !IsPublished(t.campaigns, req.campaignId) {
        return Failure(CampaignNotAvailable);
      }
      var position := OpenSlot(t, req);
      if position.None? {
        return Failure(if req.mission.CommunityMission? then MissionCapacityFull else CreatorNotQualified);
      }
      var slot := SlotRef(req.campaignId, position.value);

      if req.publicId in t.applications {
        return Failure(ConstraintViolated);
      }
      if HasApplied(t.applications, req.campaignId, req.creatorId) {
        return Failure(ApplicationAlreadyExists);
      }
      var applications := t.applications[req.publicId := Application(req.campaignId, req.creatorId, AppSubmitted, 1)];
      var contracts := MoveSlot(t.contracts, slot, Available, Reserved);
      if req.publicId in t.reservations || SlotHeld(t.reservations, slot) {
        return Failure(ConstraintViolated);
      }
      var reservations := t.reservations[req.publicId := Reservation(slot, ActiveReservation)];

      var record := ApplicationRecord(req.publicId, applications[req.publicId], slot);
      if req.key.Some? {
        ClaimThenComplete(t.requests, operation, req.key.value, req.Payload(), record);
        requests := CompleteKey(requests, operation, req.key.value, record);
      }
      pool.tables := t.(applications := applications, contracts := contracts, reservations := reservations, requests := requests);
      return Success(record);
    }

    method AcceptApplication(req: AcceptRequest) returns (r: Result<Record, Error>)
      modifies pool
      ensures r == Outcome(AcceptStep(old(pool.tables), req))
      ensures pool.tables == TablesAfter(old(pool.tables), AcceptStep(old(pool.tables), req))
    {
      var t := pool.tables;
      if !Joins(t, req.applicationId) || !req.managesBusiness {
        return Failure(ApplicationAccessDenied);
      }
      if t.applications[req.applicationId].status != AppSubmitted {
        return Failure(ApplicationTransitionConflict);
      }
      var slot := t.reservations[req.applicationId].slot;
      var applications := MoveApplication(t.applications, req.applicationId, AppAccepted);
      var reservations := MoveReservation(t.reservations, req.applicationId, ConvertedReservation);
      var contracts := MoveSlot(t.contracts, slot, Reserved, SlotAccepted);
      pool.tables := t.(applications := applications, reservations := reservations, contracts := contracts);
      return Success(ApplicationRecord(req.applicationId, applications[req.applicationId], slot));
    }

    method WithdrawApplication(req: WithdrawRequest) returns (r: Result<Record, Error>)
      modifies pool
      ensures r == Outcome(WithdrawStep(old(pool.tables), req))
      ensures pool.tables == TablesAfter(old(pool.tables), WithdrawStep(old(pool.tables), req))
    {
      var t := pool.tables;
      if !Joins(t, req.applicationId) || t.applications[req.applicationId].creatorId != req.creatorId {
        return Failure(ApplicationAccessDenied);
      }
      if t.applications[req.applicationId].status != AppSubmitted {
        return Failure(ApplicationTransitionConflict);
      }
      var slot := t.reservations[req.applicationId].slot;
      var applications := MoveApplication(t.applications, req.applicationId, AppWithdrawn);
      var reservations := MoveReservation(t.reservations, req.applicationId, ReleasedReservation);
      var contracts := MoveSlot(t.contracts, slot, Reserved, Available);
      pool.tables := t.(applications := applications, reservations := reservations, contracts := contracts);
      return Success(ApplicationRecord(req.applicationId, applications[req.applicationId], slot));
    }
  }
}
