/** Repeating a committed request, after anything that may have happened in between. */
module MarketReplays {
  import opened Wrappers
  import opened MarketTables
  import opened Idempotency
  import opened Campaigns
  import opened Applications
  import opened Ledger
  import opened Market
  import opened MarketHistory

  /** The key stands for that payload and that response. */
  ghost predicate Remembers(t: Tables, operation: string, key: string, payload: Payload, record: Record) {
    (operation, key) in t.requests && t.requests[(operation, key)] == Request(payload, Some(record))
  }

  lemma RemembersAlways(t: Tables, ops: seq<Op>, operation: string, key: string, payload: Payload, record: Record)
    requires Remembers(t, operation, key, payload, record)
    ensures Remembers(Run(t, ops), operation, key, payload, record)
  {
    RunExtends(t, ops);
  }

  lemma AnswerIsRemembered(t: Tables, operation: string, key: string, payload: Payload)
    requires (operation, key) in t.requests && ExistingResponse(t.requests[(operation, key)], payload).Success?
    ensures Remembers(t, operation, key, payload, ExistingResponse(t.requests[(operation, key)], payload).value)
  {
  }

  lemma NewRecordIsRemembered(t: Tables, before: map<(string, string), Request>, operation: string, key: string, payload: Payload, record: Record)
    requires t.requests == Remember(before, operation, key, payload, record)
    ensures Remembers(t, operation, key, payload, record)
  {
  }

  lemma DraftIsRemembered(t: Tables, req: DraftRequest)
    requires CreateDraftStep(t, req).Committed?
    ensures Remembers(CreateDraftStep(t, req).tables, CREATE_DRAFT, req.key, req.Payload(), CreateDraftStep(t, req).value)
  {
    hide CampaignChecks, Remember, Remembers, ExistingResponse;
    if (CREATE_DRAFT, req.key) in t.requests {
      AnswerIsRemembered(t, CREATE_DRAFT, req.key, req.Payload());
    } else {
      NewRecordIsRemembered(CreateDraftStep(t, req).tables, t.requests, CREATE_DRAFT, req.key, req.Payload(), CreateDraftStep(t, req).value);
    }
  }

  lemma DraftAgain(t: Tables, payload: Payload, record: Record, again: DraftRequest)
    requires Remembers(t, CREATE_DRAFT, again.key, payload, record) && again.managesBusiness
    ensures CreateDraftStep(t, again) == if again.Payload() == payload then Committed(record, t) else RolledBack(IdempotencyKeyReuse)
  {
  }

  /** Whoever may still manage the business gets the original record back, and nothing changes; under another
      payload the key is refused. */
  lemma CreateDraftReplays(t: Tables, req: DraftRequest, ops: seq<Op>, again: DraftRequest)
    requires CreateDraftStep(t, req).Committed? && again.key == req.key && again.managesBusiness
    ensures var later := Run(CreateDraftStep(t, req).tables, ops);
            CreateDraftStep(later, again) == if again.Payload() == req.Payload() then Committed(CreateDraftStep(t, req).value, later)
                                             else RolledBack(IdempotencyKeyReuse)
  {
    hide CreateDraftStep, Remembers, Run;
    var step := CreateDraftStep(t, req);
    DraftIsRemembered(t, req);
    RemembersAlways(step.tables, ops, CREATE_DRAFT, req.key, req.Payload(), step.value);
    DraftAgain(Run(step.tables, ops), req.Payload(), step.value, again);
  }

  lemma TransitionIsRemembered(t: Tables, req: TransitionRequest)
    requires TransitionStep(t, req).Committed?
    ensures Remembers(TransitionStep(t, req).tables, TRANSITION, req.key, req.Payload(), TransitionStep(t, req).value)
  {
    hide ContractComplete, AllowedTransitions, Remember, Remembers, ExistingResponse;
    if (TRANSITION, req.key) in t.requests {
      AnswerIsRemembered(t, TRANSITION, req.key, req.Payload());
    } else {
      NewRecordIsRemembered(TransitionStep(t, req).tables, t.requests, TRANSITION, req.key, req.Payload(), TransitionStep(t, req).value);
    }
  }

  lemma TransitionAgain(t: Tables, payload: Payload, record: Record, again: TransitionRequest)
    requires Remembers(t, TRANSITION, again.key, payload, record) && again.managesBusiness
    ensures TransitionStep(t, again) == if again.campaignId !in t.campaigns then RolledBack(CampaignAccessDenied)
                                        else if again.Payload() == payload then Committed(record, t) else RolledBack(IdempotencyKeyReuse)
  {
    hide ContractComplete, AllowedTransitions;
  }

  lemma CampaignStays(t: Tables, req: TransitionRequest, ops: seq<Op>)
    requires TransitionStep(t, req).Committed?
    ensures req.campaignId in Run(TransitionStep(t, req).tables, ops).campaigns
  {
    hide Run, ContractComplete, AllowedTransitions;
    assert req.campaignId in t.campaigns;
    hide TransitionStep;
    TransitionExtends(t, req);
    RunExtends(TransitionStep(t, req).tables, ops);
    assert req.campaignId in TransitionStep(t, req).tables.campaigns.Keys;
  }

  /** After any run the key answers the same request with what it answered first, and no other request for any campaign
      that is there by then. */
  lemma TransitionReplays(t: Tables, req: TransitionRequest, ops: seq<Op>, again: TransitionRequest)
    requires TransitionStep(t, req).Committed? && again.key == req.key && again.managesBusiness
    ensures var later := Run(TransitionStep(t, req).tables, ops);
            TransitionStep(later, again) == if again.Payload() == req.Payload() then Committed(TransitionStep(t, req).value, later)
                                            else if again.campaignId in later.campaigns then RolledBack(IdempotencyKeyReuse)
                                            else RolledBack(CampaignAccessDenied)
  {
    hide TransitionStep, Remembers, Run;
    var step := TransitionStep(t, req);
    TransitionIsRemembered(t, req);
    RemembersAlways(step.tables, ops, TRANSITION, req.key, req.Payload(), step.value);
    CampaignStays(t, req, ops);
    TransitionAgain(Run(step.tables, ops), req.Payload(), step.value, again);
  }

  lemma ApplicationIsRemembered(t: Tables, req: ApplyRequest)
    requires ApplyStep(t, req).Committed? && req.key.Some?
    ensures Remembers(ApplyStep(t, req).tables, req.mission.Operation(), req.key.value, req.Payload(), ApplyStep(t, req).value)
  {
    hide MoveSlot, HasApplied, SlotHeld, OpenSlot, Remember, Remembers, ExistingResponse;
    if (req.mission.Operation(), req.key.value) in t.requests {
      AnswerIsRemembered(t, req.mission.Operation(), req.key.value, req.Payload());
    } else {
      NewRecordIsRemembered(ApplyStep(t, req).tables, t.requests, req.mission.Operation(), req.key.value, req.Payload(), ApplyStep(t, req).value);
    }
  }

  lemma ApplyAgain(t: Tables, payload: Payload, record: Record, again: ApplyRequest)
    requires again.key.Some? && Remembers(t, again.mission.Operation(), again.key.value, payload, record)
    ensures ApplyStep(t, again) == if again.Payload() == payload then Committed(record, t) else RolledBack(IdempotencyKeyReuse)
  {
    hide MoveSlot, HasApplied, SlotHeld;
  }

  /** An application's replay does not even depend on the creator still being eligible. */
  lemma ApplyReplays(t: Tables, req: ApplyRequest, ops: seq<Op>, again: ApplyRequest)
    requires ApplyStep(t, req).Committed? && req.key.Some? && again.key == req.key
    requires again.mission.Operation() == req.mission.Operation()
    ensures var later := Run(ApplyStep(t, req).tables, ops);
            ApplyStep(later, again) == if again.Payload() == req.Payload() then Committed(ApplyStep(t, req).value, later)
                                       else RolledBack(IdempotencyKeyReuse)
  {
    hide ApplyStep, Remembers, Run;
    var step := ApplyStep(t, req);
    ApplicationIsRemembered(t, req);
    RemembersAlways(step.tables, ops, req.mission.Operation(), req.key.value, req.Payload(), step.value);
    ApplyAgain(Run(step.tables, ops), req.Payload(), step.value, again);
  }

  /** The campaign's funding was asked for like this. */
  ghost predicate FundedAs(t: Tables, funding: FundingRequest, snapshot: Snapshot) {
    && funding.campaignId in t.campaigns
    && FundingRecorded(t, funding.campaignId)
    && t.snapshots[funding.campaignId] == snapshot
    && t.journals[ProviderFunding(snapshot.funding.providerEventId)].request == FundingAsked(funding)
  }

  lemma RecordedFundingIsAsAsked(t: Tables, campaign: Campaign, funding: FundingRequest, allocations: seq<Allocation>)
    requires RecordFundingStep(t, campaign, funding, allocations).Committed?
    ensures var step := RecordFundingStep(t, campaign, funding, allocations); FundedAs(step.tables, funding, step.value)
  {
    hide SnapshotRefusal, AccountUsable, FundingEntries, TransactionIdTaken, AllocationChecks;
  }

  lemma FundingIsRecordedAsAsked(t: Tables, funding: FundingRequest)
    requires FundStep(t, funding).Committed?
    ensures FundedAs(FundStep(t, funding).tables, funding, FundStep(t, funding).value)
  {
    hide AllocationsFor, RecordFundingStep;
    var allocations := AllocationsFor(t, t.campaigns[funding.campaignId], funding.campaignId);
    if !FundingRecorded(t, funding.campaignId) {
      RecordedFundingIsAsAsked(t, t.campaigns[funding.campaignId], funding, allocations.value);
    }
  }

  lemma FundingIsNeverLost(t: Tables, funding: FundingRequest, snapshot: Snapshot, ops: seq<Op>)
    requires FundedAs(t, funding, snapshot)
    ensures FundedAs(Run(t, ops), funding, snapshot)
  {
    RunExtends(t, ops);
  }

  lemma FundingAgain(t: Tables, funding: FundingRequest, snapshot: Snapshot, again: FundingRequest)
    requires FundedAs(t, funding, snapshot) && again.campaignId == funding.campaignId
    ensures FundStep(t, again) == if again == funding then Committed(snapshot, t) else RolledBack(LedgerAlreadyFunded)
  {
  }

  /** Funding a funded campaign again returns its snapshot for the same request and is refused for another. */
  lemma FundReplays(t: Tables, funding: FundingRequest, ops: seq<Op>, again: FundingRequest)
    requires FundStep(t, funding).Committed? && again.campaignId == funding.campaignId
    ensures var later := Run(FundStep(t, funding).tables, ops);
            FundStep(later, again) == if again == funding then Committed(FundStep(t, funding).value, later) else RolledBack(LedgerAlreadyFunded)
  {
    hide FundStep, FundedAs;
    FundingIsRecordedAsAsked(t, funding);
    FundingIsNeverLost(FundStep(t, funding).tables, funding, FundStep(t, funding).value, ops);
    FundingAgain(Run(FundStep(t, funding).tables, ops), funding, FundStep(t, funding).value, again);
  }

  lemma AdjustmentIsJournaled(t: Tables, publicId: Id, request: AdjustmentRequest)
    requires AdjustStep(t, publicId, true, request).Committed?
    ensures var step := AdjustStep(t, publicId, true, request);
            AdjustmentSource(publicId) in step.tables.journals && step.tables.journals[AdjustmentSource(publicId)] == step.value
            && step.value.request == AdjustmentAsked(request)
  {
  }

  lemma AdjustAgain(t: Tables, publicId: Id, again: AdjustmentRequest, journal: Journal)
    requires AdjustmentSource(publicId) in t.journals && t.journals[AdjustmentSource(publicId)] == journal
    requires again.amount > 0 && !NoText(again.reason)
    ensures AdjustStep(t, publicId, true, again)
            == if journal.request == AdjustmentAsked(again) then Committed(journal, t) else RolledBack(LedgerIdempotencyConflict)
  {
  }

  lemma AdjustReplays(t: Tables, publicId: Id, request: AdjustmentRequest, ops: seq<Op>, again: AdjustmentRequest)
    requires AdjustStep(t, publicId, true, request).Committed? && again.amount > 0 && !NoText(again.reason)
    ensures var later := Run(AdjustStep(t, publicId, true, request).tables, ops);
            AdjustStep(later, publicId, true, again)
            == if again == request then Committed(AdjustStep(t, publicId, true, request).value, later) else RolledBack(LedgerIdempotencyConflict)
  {
    hide AdjustStep, Run, NoText;
    var step := AdjustStep(t, publicId, true, request);
    AdjustmentIsJournaled(t, publicId, request);
    RunExtends(step.tables, ops);
    assert AdjustmentSource(publicId) in Run(step.tables, ops).journals;
    AdjustAgain(Run(step.tables, ops), publicId, again, step.value);
  }
}
