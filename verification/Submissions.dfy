/** Complete submissions, their review and their approval. */
module Submissions {
  import opened Wrappers
  import opened MarketTables

  const FORTY_EIGHT_HOURS := 48 * 60 * 60 * 1000

  /** `hasRequirements` and `evidenceComplete` are what the deliverable requirements answer. */
  datatype SubmitRequest = SubmitRequest(applicationId: Id, creatorId: Id, now: int, hasRequirements: bool, evidenceComplete: bool)

  function Attempts(submissions: map<Id, seq<Submission>>, applicationId: Id): seq<Submission> {
    if applicationId in submissions then submissions[applicationId] else []
  }

  /** The correction of the first attempt is still open. */
  predicate CorrectionOpen(submission: Submission, now: int) {
    submission.correctionDue.Some? && submission.correctionDue.value > now
  }

  function PriorAttempts(attempts: seq<Submission>, now: int): (refusal: Option<Error>) {
    if |attempts| > 1 then Some(SubmissionSecondCorrectionNotAllowed)
    else if |attempts| == 1 && attempts[0].status != CorrectionRequested then Some(SubmissionAlreadyExists)
    else if |attempts| == 1 && !CorrectionOpen(attempts[0], now) then Some(SubmissionTransitionConflict)
    else None
  }

  function SubmitStep(t: Tables, req: SubmitRequest): Step<Submission> {
    if req.applicationId !in t.assignments || t.assignments[req.applicationId].creatorId != req.creatorId
    then RolledBack(SubmissionAccessDenied)
    else if t.assignments[req.applicationId].status != CheckedIn then RolledBack(SubmissionCheckInRequired)
    else
      var attempts := Attempts(t.submissions, req.applicationId);
      var refusal := PriorAttempts(attempts, req.now);
      if refusal.Some? then RolledBack(refusal.value)
      else if !req.hasRequirements then RolledBack(SubmissionContractIncomplete)
      else if !req.evidenceComplete then RolledBack(SubmissionAssetInvalid)
      else
        var submission := Submission(UnderReview, req.now + FORTY_EIGHT_HOURS, None, 1);
        Committed(submission, t.(submissions := t.submissions[req.applicationId := attempts + [submission]]))
  }

  // ----- approval

  /** The attempt joins its assignment, application, slot and campaign. */
  predicate AttemptJoins(t: Tables, applicationId: Id, attempt: nat) {
    && AttemptExists(t.submissions, applicationId, attempt)
    && applicationId in t.assignments
    && applicationId in t.applications
    && SlotExists(t.contracts, t.assignments[applicationId].slot)
    && t.applications[applicationId].campaignId in t.campaigns
  }

  /** Assignment, application and slot are jointly ready for the mission to end. */
  predicate ReadyToEnd(t: Tables, applicationId: Id) {
    && applicationId in t.assignments
    && applicationId in t.applications
    && t.assignments[applicationId].status == CheckedIn
    && t.applications[applicationId].status == AppAccepted
    && SlotIs(t.contracts, t.assignments[applicationId].slot, SlotAccepted)
  }

  predicate IntentInserts(intents: map<Id, Intent>, applicationId: Id, publicId: Id) {
    applicationId !in intents && forall a <- intents :: intents[a].publicId != publicId
  }

  /** Ends the mission: assignment, application and slot move together, and the intent is recorded. */
  function EndMission(t: Tables, applicationId: Id, publicId: Id, action: IntentAction): Tables
    requires ReadyToEnd(t, applicationId)
  {
    var completed := action.CreatorPayableFull?;
    t.(assignments := MoveAssignment(t.assignments, applicationId, if completed then MissionCompleted else MissionNoPayout),
       applications := MoveApplication(t.applications, applicationId, if completed then AppCompleted else AppNoPayout),
       contracts := MoveSlot(t.contracts, t.assignments[applicationId].slot, SlotAccepted, if completed then SlotCompleted else SlotNoPayout),
       intents := t.intents[applicationId := Intent("fin_" + publicId, action, PendingLedger, 1)])
  }

  function ApproveStep(t: Tables, applicationId: Id, attempt: nat, status: SubmissionStatus, decisionId: Id): Step<Submission>
    requires AttemptExists(t.submissions, applicationId, attempt)
  {
    if !ReadyToEnd(t, applicationId) then RolledBack(SubmissionTransitionConflict)
    else if !IntentInserts(t.intents, applicationId, "fin_" + decisionId) then RolledBack(ConstraintViolated)
    else
      var submissions := MoveSubmission(t.submissions, applicationId, attempt, status);
      Committed(submissions[applicationId][attempt],
                EndMission(t, applicationId, decisionId, CreatorPayableFull).(submissions := submissions))
  }

  // ----- review

  datatype Decision = Approve | RequestCorrection

  /** `correction` says whether a given correction cites a locked requirement with an explanation. */
  datatype ReviewRequest = ReviewRequest(applicationId: Id, attempt: nat, managesBusiness: bool, now: int, decision: Decision,
                                         correction: Option<bool>, decisionId: Id)

  function CorrectStep(t: Tables, req: ReviewRequest): Step<Submission>
    requires AttemptExists(t.submissions, req.applicationId, req.attempt)
  {
    if req.correction.None? then RolledBack(SubmissionTransitionConflict)
    else if req.attempt != 0 then RolledBack(SubmissionSecondCorrectionNotAllowed)
    else if !req.correction.value then RolledBack(SubmissionTransitionConflict)
    else
      var attempts := MoveSubmission(t.submissions, req.applicationId, 0, CorrectionRequested)[req.applicationId];
      var updated := attempts[0].(correctionDue := Some(req.now + FORTY_EIGHT_HOURS));
      Committed(updated, t.(submissions := t.submissions[req.applicationId := attempts[0 := updated]]))
  }

  function ReviewStep(t: Tables, req: ReviewRequest): Step<Submission> {
    if !AttemptJoins(t, req.applicationId, req.attempt) || !req.managesBusiness then RolledBack(SubmissionAccessDenied)
    else
      var review := t.submissions[req.applicationId][req.attempt];
      if review.status != UnderReview then RolledBack(SubmissionTransitionConflict)
      else if req.now >= review.reviewDeadline then RolledBack(SubmissionReviewExpired)
      else if req.decision == RequestCorrection then CorrectStep(t, req)
      else if req.correction.Some? then RolledBack(SubmissionTransitionConflict)
      else ApproveStep(t, req.applicationId, req.attempt, ReviewApproved, req.decisionId)
  }

  datatype AutoApproveRequest = AutoApproveRequest(applicationId: Id, attempt: nat, now: int, decisionId: Id)

  function AutoApproveStep(t: Tables, req: AutoApproveRequest): Step<Submission> {
    if !AttemptJoins(t, req.applicationId, req.attempt) then RolledBack(SubmissionNotFound)
    else
      var review := t.submissions[req.applicationId][req.attempt];
      if review.status != UnderReview then RolledBack(SubmissionTransitionConflict)
      else if req.now < review.reviewDeadline then RolledBack(SubmissionReviewNotDue)
      else ApproveStep(t, req.applicationId, req.attempt, AutoApproved, req.decisionId)
  }

  class SubmissionStore {
    const pool: Database

    constructor (pool: Database)
      ensures this.pool == pool
    {
      this.pool := pool;
    }

    method SubmitComplete(req: SubmitRequest) returns (r: Result<Submission, Error>)
      modifies pool
      ensures r == Outcome(SubmitStep(old(pool.tables), req))
      ensures pool.tables == TablesAfter(old(pool.tables), SubmitStep(old(pool.tables), req))
    {
      var t := pool.tables;
      if req.applicationId !in t.assignments || t.assignments[req.applicationId].creatorId != req.creatorId {
        return Failure(SubmissionAccessDenied);
      }
      if t.assignments[req.applicationId].status != CheckedIn {
        return Failure(SubmissionCheckInRequired);
      }
      var prior := Attempts(t.submissions, req.applicationId);
      if |prior| == 1 {
        if prior[0].status != CorrectionRequested {
          return Failure(SubmissionAlreadyExists);
        }
        if !CorrectionOpen(prior[0], req.now) {
          return Failure(SubmissionTransitionConflict);
        }
      } else if |prior| > 1 {
        return Failure(SubmissionSecondCorrectionNotAllowed);
      }
      if !req.hasRequirements {
        return Failure(SubmissionContractIncomplete);
      }
      if !req.evidenceComplete {
        return Failure(SubmissionAssetInvalid);
      }
      var submission := Submission(UnderReview, req.now + FORTY_EIGHT_HOURS, None, 1);
      pool.tables := t.(submissions := t.submissions[req.applicationId := prior + [submission]]);
      return Success(submission);
    }

    method ReviewSubmission(req: ReviewRequest) returns (r: Result<Submission, Error>)
      modifies pool
      ensures r == Outcome(ReviewStep(old(pool.tables), req))
      ensures pool.tables == TablesAfter(old(pool.tables), ReviewStep(old(pool.tables), req))
    {
      var t := pool.tables;
      if !AttemptJoins(t, req.applicationId, req.attempt) || !req.managesBusiness {
        return Failure(SubmissionAccessDenied);
      }
      var review := t.submissions[req.applicationId][req.attempt];
      if review.status != UnderReview {
        return Failure(SubmissionTransitionConflict);
      }
      if req.now >= review.reviewDeadline {
        return Failure(SubmissionReviewExpired);
      }
      if req.decision == Approve {
        if req.correction.Some? {
          return Failure(SubmissionTransitionConflict);
        }
        r := FinalizeApproval(req.applicationId, req.attempt, ReviewApproved, req.decisionId);
        return;
      }
      if req.correction.None? {
        return Failure(SubmissionTransitionConflict);
      }
      if req.attempt != 0 {
        return Failure(SubmissionSecondCorrectionNotAllowed);
      }
      if !req.correction.value {
        return Failure(SubmissionTransitionConflict);
      }
      var updated := review.(status := CorrectionRequested, version := review.version + 1);
      updated := updated.(correctionDue := Some(req.now + FORTY_EIGHT_HOURS));
      var attempts := t.submissions[req.applicationId][0 := updated];
      assert attempts == MoveSubmission(t.submissions, req.applicationId, 0, CorrectionRequested)[req.applicationId][0 := updated];
      pool.tables := t.(submissions := t.submissions[req.applicationId := attempts]);
      return Success(updated);
    }

    method AutoApproveSubmission(req: AutoApproveRequest) returns (r: Result<Submission, Error>)
      modifies pool
      ensures r == Outcome(AutoApproveStep(old(pool.tables), req))
      ensures pool.tables == TablesAfter(old(pool.tables), AutoApproveStep(old(pool.tables), req))
    {
      var t := pool.tables;
      if !AttemptJoins(t, req.applicationId, req.attempt) {
        return Failure(SubmissionNotFound);
      }
      var review := t.submissions[req.applicationId][req.attempt];
      if review.status != UnderReview {
        return Failure(SubmissionTransitionConflict);
      }
      if req.now < review.reviewDeadline {
        return Failure(SubmissionReviewNotDue);
      }
      r := FinalizeApproval(req.applicationId, req.attempt, AutoApproved, req.decisionId);
    }

    method FinalizeApproval(applicationId: Id, attempt: nat, status: SubmissionStatus, decisionId: Id)
      returns (r: Result<Submission, Error>)
      requires AttemptJoins(pool.tables, applicationId, attempt)
      modifies pool
      ensures r == Outcome(ApproveStep(old(pool.tables), applicationId, attempt, status, decisionId))
      ensures pool.tables == TablesAfter(old(pool.tables), ApproveStep(old(pool.tables), applicationId, attempt, status, decisionId))
    {
      var t := pool.tables;
      var assignment, application := t.assignments[applicationId], t.applications[applicationId];
      var slot := SlotAt(t.contracts, assignment.slot);
      if assignment.status != CheckedIn || application.status != AppAccepted || slot.status != SlotAccepted {
        return Failure(SubmissionTransitionConflict);
      }
      var submissions := MoveSubmission(t.submissions, applicationId, attempt, status);
      if !IntentInserts(t.intents, applicationId, "fin_" + decisionId) {
        return Failure(ConstraintViolated);
      }
      var intents := t.intents[applicationId := Intent("fin_" + decisionId, CreatorPayableFull, PendingLedger, 1)];
      var assignments := MoveAssignment(t.assignments, applicationId, MissionCompleted);
      var applications := MoveApplication(t.applications, applicationId, AppCompleted);
      var contracts := MoveSlot(t.contracts, assignment.slot, SlotAccepted, SlotCompleted);
      pool.tables := t.(submissions := submissions, intents := intents, assignments := assignments,
                        applications := applications, contracts := contracts);
      return Success(submissions[applicationId][attempt]);
    }
  }
}
