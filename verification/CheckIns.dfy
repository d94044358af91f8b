/** Scheduling accepted applications and recording check-ins by one-time venue challenges. */
module CheckIns {
  import opened Wrappers
  import opened MarketTables

  const FIVE_MINUTES := 5 * 60 * 1000

  /** `venueActive`: the location is active and belongs to the campaign's business. */
  datatype ScheduleRequest = ScheduleRequest(applicationId: Id, managesBusiness: bool, locationId: Id, venueActive: bool,
                                             windowStart: int, windowEnd: int, timezone: string)

  predicate Schedulable(t: Tables, applicationId: Id) {
    && applicationId in t.applications
    && t.applications[applicationId].status == AppAccepted
    && t.applications[applicationId].campaignId in t.campaigns
    && t.applications[applicationId].campaignId in t.contracts
    && applicationId in t.reservations
    && t.reservations[applicationId].status == ConvertedReservation
    && SlotIs(t.contracts, t.reservations[applicationId].slot, SlotAccepted)
  }

  predicate SlotScheduled(assignments: map<Id, Assignment>, slot: SlotRef) {
    exists a <- assignments :: assignments[a].slot == slot
  }

  function ScheduleStep(t: Tables, req: ScheduleRequest): Step<Assignment> {
    if !Schedulable(t, req.applicationId) || !req.venueActive || !req.managesBusiness then RolledBack(CheckInAccessDenied)
    else if req.windowEnd <= req.windowStart || NoText(req.timezone) then RolledBack(MissionScheduleConflict)
    else if req.applicationId in t.assignments || SlotScheduled(t.assignments, t.reservations[req.applicationId].slot)
    then RolledBack(MissionScheduleConflict)
    else
      var assignment := Assignment(t.reservations[req.applicationId].slot, t.applications[req.applicationId].creatorId,
                                   req.locationId, req.windowStart, req.windowEnd, Scheduled, 1);
      Committed(assignment, t.(assignments := t.assignments[req.applicationId := assignment]))
  }

  datatype ChallengeMethod = QrCode | StaffCode

  /** `authorized`: the actor manages the business or staffs the venue now. */
  datatype IssueRequest = IssueRequest(applicationId: Id, authorized: bool, now: int, expiresAt: int, challengeMethod: ChallengeMethod,
                                       fallbackReason: Option<string>, publicId: Id, token: string)

  function RevokeActive(challenges: map<Id, Challenge>, applicationId: Id): map<Id, Challenge> {
    map id <- challenges ::
      if challenges[id].applicationId == applicationId && challenges[id].status == ChallengeActive
      then challenges[id].(status := ChallengeRevoked) else challenges[id]
  }

  predicate TokenTaken(challenges: map<Id, Challenge>, token: string) {
    exists id <- challenges :: challenges[id].token == token
  }

  predicate InsideWindow(assignment: Assignment, now: int) {
    assignment.windowStart <= now <= assignment.windowEnd
  }

  predicate FallbackMatches(req: IssueRequest) {
    if req.challengeMethod.QrCode? then req.fallbackReason.None?
    else req.fallbackReason.Some? && !NoText(req.fallbackReason.value)
  }

  function IssueStep(t: Tables, req: IssueRequest): Step<Id> {
    if |req.token| < 32 then RolledBack(CheckInChallengeInvalid)
    else if req.applicationId !in t.assignments || !req.authorized then RolledBack(VenueStaffAccessDenied)
    else
      var assignment := t.assignments[req.applicationId];
      if assignment.status != Scheduled then RolledBack(CheckInAlreadyRecorded)
      else if !InsideWindow(assignment, req.now) || req.expiresAt <= req.now || req.expiresAt > req.now + FIVE_MINUTES
              || req.expiresAt > assignment.windowEnd
      then RolledBack(CheckInOutsideWindow)
      else if !FallbackMatches(req) then RolledBack(CheckInChallengeInvalid)
      else if req.publicId in t.challenges || TokenTaken(t.challenges, req.token) then RolledBack(ConstraintViolated)
      else
        var challenge := Challenge(req.applicationId, req.token, ChallengeActive, req.expiresAt);
        Committed(req.publicId, t.(challenges := RevokeActive(t.challenges, req.applicationId)[req.publicId := challenge]))
  }

  datatype ConsumeRequest = ConsumeRequest(challengeId: Id, token: string, creatorId: Id, locationId: Id, now: int)

  predicate ChallengeRecorded(checkIns: map<Id, Id>, challengeId: Id) {
    exists a <- checkIns :: checkIns[a] == challengeId
  }

  function ConsumeStep(t: Tables, req: ConsumeRequest): Step<Id> {
    if req.challengeId !in t.challenges || t.challenges[req.challengeId].applicationId !in t.assignments
       || t.challenges[req.challengeId].token != req.token
    then RolledBack(CheckInChallengeInvalid)
    else
      var challenge := t.challenges[req.challengeId];
      var assignment := t.assignments[challenge.applicationId];
      if challenge.status.ChallengeConsumed? || challenge.status.ChallengeRevoked? then RolledBack(CheckInChallengeReplayed)
      else if challenge.status.ChallengeExpired? || req.now >= challenge.expiresAt then RolledBack(Error.CheckInChallengeExpired)
      else if assignment.creatorId != req.creatorId then RolledBack(CheckInAccessDenied)
      else if assignment.locationId != req.locationId then RolledBack(CheckInWrongVenue)
      else if assignment.status == CheckedIn then RolledBack(CheckInAlreadyRecorded)
      else if assignment.status != Scheduled || !InsideWindow(assignment, req.now) then RolledBack(CheckInOutsideWindow)
      else if challenge.applicationId in t.checkIns then RolledBack(CheckInAlreadyRecorded)
      else if ChallengeRecorded(t.checkIns, req.challengeId) then RolledBack(CheckInChallengeReplayed)
      else
        Committed(challenge.applicationId,
                  t.(checkIns := t.checkIns[challenge.applicationId := req.challengeId],
                     challenges := t.challenges[req.challengeId := challenge.(status := ChallengeConsumed)],
                     assignments := MoveAssignment(t.assignments, challenge.applicationId, CheckedIn)))
  }

  class CheckInStore {
    const pool: Database

    constructor (pool: Database)
      ensures this.pool == pool
    {
      this.pool := pool;
    }

    method ScheduleAcceptedApplication(req: ScheduleRequest) returns (r: Result<Assignment, Error>)
      modifies pool
      ensures r == Outcome(ScheduleStep(old(pool.tables), req))
      ensures pool.tables == TablesAfter(old(pool.tables), ScheduleStep(old(pool.tables), req))
    {
      var t := pool.tables;
      if !Schedulable(t, req.applicationId) || !req.venueActive || !req.managesBusiness {
        return Failure(CheckInAccessDenied);
      }
      if req.windowEnd <= req.windowStart || NoText(req.timezone) {
        return Failure(MissionScheduleConflict);
      }
      var slot := t.reservations[req.applicationId].slot;
      if req.applicationId in t.assignments || SlotScheduled(t.assignments, slot) {
        return Failure(MissionScheduleConflict);
      }
      var assignment := Assignment(slot, t.applications[req.applicationId].creatorId, req.locationId,
                                   req.windowStart, req.windowEnd, Scheduled, 1);
      pool.tables := t.(assignments := t.assignments[req.applicationId := assignment]);
      return Success(assignment);
    }

    method IssueChallenge(req: IssueRequest) returns (r: Result<Id, Error>)
      modifies pool
      ensures r == Outcome(IssueStep(old(pool.tables), req))
      ensures pool.tables == TablesAfter(old(pool.tables), IssueStep(old(pool.tables), req))
    {
      if |req.token| < 32 {
        return Failure(CheckInChallengeInvalid);
      }
      var t := pool.tables;
      if req.applicationId !in t.assignments || !req.authorized {
        return Failure(VenueStaffAccessDenied);
      }
      var assignment := t.assignments[req.applicationId];
      if assignment.status != Scheduled {
        return Failure(CheckInAlreadyRecorded);
      }
      var maximumExpiry := req.now + FIVE_MINUTES;
      if req.now < assignment.windowStart || req.now > assignment.windowEnd || req.expiresAt <= req.now
         || req.expiresAt > maximumExpiry || req.expiresAt > assignment.windowEnd {
        return Failure(CheckInOutsideWindow);
      }
      if (req.challengeMethod.QrCode? && req.fallbackReason.Some?)
         || (req.challengeMethod.StaffCode? && (req.fallbackReason.None? || NoText(req.fallbackReason.value))) {
        return Failure(CheckInChallengeInvalid);
      }
      var challenges := RevokeActive(t.challenges, req.applicationId);
      if req.publicId in challenges || TokenTaken(challenges, req.token) {
        assert TokenTaken(challenges, req.token) ==> TokenTaken(t.challenges, req.token);
        return Failure(ConstraintViolated);
      }
      assert forall id <- t.challenges :: challenges[id].token == t.challenges[id].token;
      challenges := challenges[req.publicId := Challenge(req.applicationId, req.token, ChallengeActive, req.expiresAt)];
      pool.tables := t.(challenges := challenges);
      return Success(req.publicId);
    }

    method ConsumeChallenge(req: ConsumeRequest) returns (r: Result<Id, Error>)
      modifies pool
      ensures r == Outcome(ConsumeStep(old(pool.tables), req))
      ensures pool.tables == TablesAfter(old(pool.tables), ConsumeStep(old(pool.tables), req))
    {
      var t := pool.tables;
      if req.challengeId !in t.challenges || t.challenges[req.challengeId].applicationId !in t.assignments
         || t.challenges[req.challengeId].token != req.token {
        return Failure(CheckInChallengeInvalid);
      }
      var challenge := t.challenges[req.challengeId];
      var assignment := t.assignments[challenge.applicationId];
      if challenge.status == ChallengeConsumed || challenge.status == ChallengeRevoked {
        return Failure(CheckInChallengeReplayed);
      }
      if challenge.status == ChallengeStatus.ChallengeExpired || req.now >= challenge.expiresAt {
        return Failure(Error.CheckInChallengeExpired);
      }
      if assignment.creatorId != req.creatorId {
        return Failure(CheckInAccessDenied);
      }
      if assignment.locationId != req.locationId {
        return Failure(CheckInWrongVenue);
      }
      if assignment.status == CheckedIn {
        return Failure(CheckInAlreadyRecorded);
      }
      if assignment.status != Scheduled || req.now < assignment.windowStart || req.now > assignment.windowEnd {
        return Failure(CheckInOutsideWindow);
      }
      if challenge.applicationId in t.checkIns {
        return Failure(CheckInAlreadyRecorded);
      }
      if ChallengeRecorded(t.checkIns, req.challengeId) {
        return Failure(CheckInChallengeReplayed);
      }
      var checkIns := t.checkIns[challenge.applicationId := req.challengeId];
      // WHERE status = 'active', and WHERE status = 'scheduled' AND version = the selected one
      var challenges := t.challenges;
      if challenges[req.challengeId].status == ChallengeActive {
        challenges := challenges[req.challengeId := challenge.(status := ChallengeConsumed)];
      }
      var assignments := t.assignments;
      if assignments[challenge.applicationId].status == Scheduled && assignments[challenge.applicationId].version == assignment.version {
        assignments := MoveAssignment(assignments, challenge.applicationId, CheckedIn);
      }
      pool.tables := t.(checkIns := checkIns, challenges := challenges, assignments := assignments);
      return Success(challenge.applicationId);
    }
  }
}
