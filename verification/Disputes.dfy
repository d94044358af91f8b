/** Disputes over submissions, and their resolution by an independent reviewer. */
module Disputes {
  import opened Wrappers
  import opened MarketTables
  import opened Submissions

  datatype Opener = BusinessOpener | CreatorOpener

  /** `requirementInBrief`, `managesBusiness`, `reasonAllowed` (for this opener), `citesCorrection` (the requirement
      that the correction names) and `evidenceAccepted` are what the brief, the memberships, the reason codes, the
      correction and the structured evidence answer. */
  datatype OpenRequest = OpenRequest(applicationId: Id, attempt: nat, opener: Opener, actorId: Id, now: int, explanation: string,
                                     requirementInBrief: bool, managesBusiness: bool, reasonAllowed: bool,
                                     citesCorrection: bool, evidenceAccepted: bool)

  function BusinessRefusal(submission: Submission, req: OpenRequest): Option<Error> {
    if !req.reasonAllowed then Some(DisputeEvidenceInvalid)
    else if !req.managesBusiness then Some(DisputeAccessDenied)
    else if submission.status != UnderReview then Some(DisputeTransitionConflict)
    else if req.now >= submission.reviewDeadline then Some(DisputeReviewExpired)
    else None
  }

  function CreatorRefusal(assignment: Assignment, submission: Submission, req: OpenRequest): Option<Error> {
    if assignment.creatorId != req.actorId then Some(DisputeAccessDenied)
    else if !req.reasonAllowed then Some(DisputeEvidenceInvalid)
    else if submission.status != CorrectionRequested then Some(DisputeTransitionConflict)
    else if !CorrectionOpen(submission, req.now) then Some(DisputeReviewExpired)
    else if !req.citesCorrection then Some(DisputeEvidenceInvalid)
    else None
  }

  function OpenStep(t: Tables, req: OpenRequest): Step<Dispute> {
    if !AttemptJoins(t, req.applicationId, req.attempt) then RolledBack(DisputeNotFound)
    else if NoText(req.explanation) || !req.requirementInBrief then RolledBack(DisputeEvidenceInvalid)
    else
      var submission := t.submissions[req.applicationId][req.attempt];
      var refusal := if req.opener.BusinessOpener? then BusinessRefusal(submission, req)
                     else CreatorRefusal(t.assignments[req.applicationId], submission, req);
      if refusal.Some? then RolledBack(refusal.value)
      else if !req.evidenceAccepted then RolledBack(DisputeEvidenceInvalid)
      else if req.applicationId in t.disputes then RolledBack(DisputeAlreadyExists)
      else
        var dispute := Dispute(req.attempt, req.actorId, DisputeOpen, 1);
        Committed(dispute, t.(disputes := t.disputes[req.applicationId := dispute],
                              submissions := MoveSubmission(t.submissions, req.applicationId, req.attempt, Disputed)))
  }

  datatype DisputeOutcome = EarnedFull | NoPayout

  /** `isReviewer` and `inBusiness` are what the staff and business memberships answer about the actor. */
  datatype ResolveRequest = ResolveRequest(applicationId: Id, explanation: string, actorId: Id, isReviewer: bool, inBusiness: bool,
                                           outcome: DisputeOutcome, resolutionId: Id)

  predicate DisputeJoins(t: Tables, applicationId: Id) {
    applicationId in t.disputes && AttemptJoins(t, applicationId, t.disputes[applicationId].attempt)
  }

  predicate Resolvable(t: Tables, applicationId: Id)
    requires DisputeJoins(t, applicationId)
  {
    && t.disputes[applicationId].status == DisputeOpen
    && t.submissions[applicationId][t.disputes[applicationId].attempt].status == Disputed
    && ReadyToEnd(t, applicationId)
  }

  function ResolveStep(t: Tables, req: ResolveRequest): Step<Dispute> {
    if NoText(req.explanation) then RolledBack(DisputeEvidenceInvalid)
    else if !DisputeJoins(t, req.applicationId) then RolledBack(DisputeNotFound)
    else if !req.isReviewer then RolledBack(DisputeAccessDenied)
    else
      var dispute := t.disputes[req.applicationId];
      if req.actorId == t.assignments[req.applicationId].creatorId || req.actorId == dispute.openedBy || req.inBusiness
      then RolledBack(DisputeReviewerConflict)
      else if !Resolvable(t, req.applicationId) then RolledBack(DisputeTransitionConflict)
      else if !IntentInserts(t.intents, req.applicationId, "fin_" + req.resolutionId) then RolledBack(ConstraintViolated)
      else
        var earned := req.outcome.EarnedFull?;
        var updated := dispute.(status := if earned then ResolvedEarnedFull else ResolvedWithoutPayout, version := dispute.version + 1);
        Committed(updated,
                  EndMission(t, req.applicationId, req.resolutionId, if earned then CreatorPayableFull else SlotRefundFull)
                  .(disputes := t.disputes[req.applicationId := updated],
                    submissions := MoveSubmission(t.submissions, req.applicationId, dispute.attempt,
                                                  if earned then ResolvedApproved else ResolvedNoPayout)))
  }

  class DisputeStore {
    const pool: Database

    constructor (pool: Database)
      ensures this.pool == pool
    {
      this.pool := pool;
    }

    method OpenDispute(req: OpenRequest) returns (r: Result<Dispute, Error>)
      modifies pool
      ensures r == Outcome(OpenStep(old(pool.tables), req))
      ensures pool.tables == TablesAfter(old(pool.tables), OpenStep(old(pool.tables), req))
    {
      var t := pool.tables;
      if !AttemptJoins(t, req.applicationId, req.attempt) {
        return Failure(DisputeNotFound);
      }
      var source := t.submissions[req.applicationId][req.attempt];
      if NoText(req.explanation) {
        return Failure(DisputeEvidenceInvalid);
      }
      if !req.requirementInBrief {
        return Failure(DisputeEvidenceInvalid);
      }
      var refusal;
      if req.opener == BusinessOpener {
        refusal := BusinessRefusal(source, req);
      } else {
        refusal := CreatorRefusal(t.assignments[req.applicationId], source, req);
      }
      if refusal.Some? {
        return Failure(refusal.value);
      }
      if !req.evidenceAccepted {
        return Failure(DisputeEvidenceInvalid);
      }
      if req.applicationId in t.disputes {
        return Failure(DisputeAlreadyExists);
      }
      var dispute := Dispute(req.attempt, req.actorId, DisputeOpen, 1);
      var disputes := t.disputes[req.applicationId := dispute];
      var submissions := MoveSubmission(t.submissions, req.applicationId, req.attempt, Disputed);
      pool.tables := t.(disputes := disputes, submissions := submissions);
      return Success(dispute);
    }

    method ResolveDispute(req: ResolveRequest) returns (r: Result<Dispute, Error>)
      modifies pool
      ensures r == Outcome(ResolveStep(old(pool.tables), req))
      ensures pool.tables == TablesAfter(old(pool.tables), ResolveStep(old(pool.tables), req))
    {
      if NoText(req.explanation) {
        return Failure(DisputeEvidenceInvalid);
      }
      var t := pool.tables;
      if !DisputeJoins(t, req.applicationId) {
        return Failure(DisputeNotFound);
      }
      var dispute, assignment := t.disputes[req.applicationId], t.assignments[req.applicationId];
      if !req.isReviewer {
        return Failure(DisputeAccessDenied);
      }
      if req.actorId == assignment.creatorId || req.actorId == dispute.openedBy || req.inBusiness {
        return Failure(DisputeReviewerConflict);
      }
      if dispute.status != DisputeOpen || t.submissions[req.applicationId][dispute.attempt].status != Disputed
         || assignment.status != CheckedIn || t.applications[req.applicationId].status != AppAccepted
         || SlotAt(t.contracts, assignment.slot).status != SlotAccepted {
        return Failure(DisputeTransitionConflict);
      }
      var disputeStatus, submissionStatus, action := ResolvedWithoutPayout, ResolvedNoPayout, SlotRefundFull;
      var assignmentStatus, applicationStatus, slotStatus := MissionNoPayout, AppNoPayout, SlotNoPayout;
      if req.outcome == EarnedFull {
        disputeStatus, submissionStatus, action := ResolvedEarnedFull, ResolvedApproved, CreatorPayableFull;
        assignmentStatus, applicationStatus, slotStatus := MissionCompleted, AppCompleted, SlotCompleted;
      }
      var updated := dispute.(status := disputeStatus, version := dispute.version + 1);
      var disputes := t.disputes[req.applicationId := updated];
      var submissions := MoveSubmission(t.submissions, req.applicationId, dispute.attempt, submissionStatus);
      var assignments := MoveAssignment(t.assignments, req.applicationId, assignmentStatus);
      var applications := MoveApplication(t.applications, req.applicationId, applicationStatus);
      var contracts := MoveSlot(t.contracts, assignment.slot, SlotAccepted, slotStatus);
      if !IntentInserts(t.intents, req.applicationId, "fin_" + req.resolutionId) {
        return Failure(ConstraintViolated);
      }
      var intents := t.intents[req.applicationId := Intent("fin_" + req.resolutionId, action, PendingLedger, 1)];
      pool.tables := t.(disputes := disputes, submissions := submissions, assignments := assignments,
                        applications := applications, contracts := contracts, intents := intents);
      return Success(updated);
    }
  }
}
