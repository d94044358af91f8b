/** Locality verifications, the profile fields that cache them, and the queue that deletes their evidence. */
module Locality {
  import opened Wrappers
  import opened Sorting

  type Id = string

  const DAY := 24 * 60 * 60
  const APPEAL_WINDOW := 14 * DAY
  const RETENTION := 30 * DAY
  const HOLD_LIMIT := 90 * DAY
  const MAX_DELETION_ATTEMPTS := 5

  datatype Status = PendingReview | CorrectionNeeded | Verified | Rejected | AppealPending | FinalRejected | Expired | Invalidated

  /** `evidence`: the private reference is still there. */
  datatype Verification = Verification(creator: Id, status: Status, area: string, reviewer: Option<Id>, verifiedAt: Option<int>,
                                       expiresAt: Option<int>, appealDeadline: Option<int>, deletionDueAt: Option<int>,
                                       evidence: bool, version: nat)

  datatype ProfileStatus = ProfileUnverified | ProfilePending | ProfileVerified | ProfileExpired | ProfileRejected

  datatype Profile = Profile(status: ProfileStatus, area: Option<string>, verifiedAt: Option<int>, expiresAt: Option<int>, version: nat)

  datatype JobStatus = JobPending | JobProcessing | JobCompleted | JobDeadLetter

  /** Lock tokens are fresh values, numbered as they are minted. */
  datatype Lease = Lease(token: nat, until: int)

  datatype Job = Job(verification: nat, status: JobStatus, availableAt: int, createdAt: int, attempts: nat, maxAttempts: nat,
                     lease: Option<Lease>, version: nat)

  datatype Hold = Hold(verification: nat, expiresAt: int, released: bool)

  /** Verifications, jobs and holds are numbered as they are inserted. */
  datatype Tables = Tables(profiles: map<Id, Profile>, verifications: seq<Verification>, jobs: seq<Job>, holds: seq<Hold>, minted: nat)

  datatype Error = AccessDenied | NotFound | EvidenceInvalid | ActiveReviewExists | TransitionConflict | ReviewInvalid | AppealInvalid
                 | HoldInvalid | ClaimInvalid | ConstraintViolated

  datatype Step<+T> = Commits(value: T, tables: Tables) | RollsBack(error: Error)

  function After<T>(before: Tables, step: Step<T>): Tables {
    if step.Commits? then step.tables else before
  }

  function Outcome<T>(step: Step<T>): Result<T, Error> {
    if step.Commits? then Success(step.value) else Failure(step.error)
  }

  // ----- the profile cache

  predicate Current(profile: Profile, now: int) {
    profile.status == ProfileVerified && profile.expiresAt.Some? && profile.expiresAt.value > now
  }

  function Cleared(profile: Profile, status: ProfileStatus): Profile {
    Profile(status, None, None, None, profile.version + 1)
  }

  function ClearUnlessCurrent(profiles: map<Id, Profile>, creator: Id, status: ProfileStatus, now: int): map<Id, Profile> {
    if creator !in profiles || Current(profiles[creator], now) then profiles
    else profiles[creator := Cleared(profiles[creator], status)]
  }

  function SetVerified(profiles: map<Id, Profile>, verification: Verification): map<Id, Profile> {
    if verification.creator !in profiles then profiles
    else
      var profile := Profile(ProfileVerified, Some(verification.area), verification.verifiedAt, verification.expiresAt,
                             profiles[verification.creator].version + 1);
      profiles[verification.creator := profile]
  }

  /** The update WHERE the creator has another verified row. */
  function Supersede(verifications: seq<Verification>, creator: Id, keep: nat): (superseded: seq<Verification>)
    ensures |superseded| == |verifications|
  {
    seq(|verifications|, i requires 0 <= i < |verifications| =>
      var row := verifications[i];
      if row.creator == creator && row.status == Verified && i != keep
      then row.(status := Invalidated, version := row.version + 1) else row)
  }

  // ----- submitting

  predicate UnderReview(row: Verification) { row.status in {PendingReview, CorrectionNeeded, AppealPending} }

  /** The partial unique index: the creator has a verification under review other than the one left out. */
  predicate ReviewTaken(verifications: seq<Verification>, creator: Id, leftOut: nat) {
    exists i :: 0 <= i < |verifications| && i != leftOut && verifications[i].creator == creator && UnderReview(verifications[i])
  }

  /** `shaped`: the evidence reference and the postal area have the required form. */
  datatype SubmitRequest = SubmitRequest(actor: Id, area: string, shaped: bool, now: int)

  function SubmitStep(s: Tables, req: SubmitRequest): Step<nat> {
    if !req.shaped then RollsBack(EvidenceInvalid)
    else if req.actor !in s.profiles then RollsBack(AccessDenied)
    else if ReviewTaken(s.verifications, req.actor, |s.verifications|) then RollsBack(ActiveReviewExists)
    else
      var row := Verification(req.actor, PendingReview, req.area, None, None, None, None, None, true, 1);
      Commits(|s.verifications|, s.(verifications := s.verifications + [row],
                                    profiles := ClearUnlessCurrent(s.profiles, req.actor, ProfilePending, req.now)))
  }

  datatype ResubmitRequest = ResubmitRequest(verification: nat, actor: Id, area: string, shaped: bool)

  function ResubmitStep(s: Tables, req: ResubmitRequest): Step<Verification> {
    if !req.shaped then RollsBack(EvidenceInvalid)
    else if req.verification >= |s.verifications| then RollsBack(NotFound)
    else
      var row := s.verifications[req.verification];
      if row.creator != req.actor then RollsBack(AccessDenied)
      else if row.status != CorrectionNeeded then RollsBack(TransitionConflict)
      else
        var row' := row.(status := PendingReview, area := req.area, evidence := true, reviewer := None, version := row.version + 1);
        Commits(row', s.(verifications := s.verifications[req.verification := row']))
  }

  // ----- deciding

  /** Inserts the deletion job of a verification, or moves its pending one later. */
  function UpsertJob(jobs: seq<Job>, verification: nat, availableAt: int, now: int): seq<Job> {
    if jobs == [] then [Job(verification, JobPending, availableAt, now, 0, MAX_DELETION_ATTEMPTS, None, 1)]
    else if jobs[0].verification != verification then [jobs[0]] + UpsertJob(jobs[1..], verification, availableAt, now)
    else if jobs[0].status == JobPending && jobs[0].availableAt < availableAt then [jobs[0].(availableAt := availableAt)] + jobs[1..]
    else jobs
  }

  datatype Decision = Approve | RequestCorrection | Reject

  /** `reasonFits`: the reason is one the decision allows; `yearLater`: a calendar year after now. */
  datatype ReviewRequest = ReviewRequest(verification: nat, actor: Id, isReviewer: bool, decision: Decision, reasonFits: bool,
                                         yearLater: int, now: int)

  function Reviewed(row: Verification, req: ReviewRequest): Verification {
    Verification(row.creator,
                 match req.decision case Approve => Verified case RequestCorrection => CorrectionNeeded case Reject => Rejected,
                 row.area, Some(req.actor),
                 if req.decision == Approve then Some(req.now) else None,
                 if req.decision == Approve then Some(req.yearLater) else None,
                 if req.decision == Reject then Some(req.now + APPEAL_WINDOW) else None,
                 if req.decision == RequestCorrection then None else Some(req.now + RETENTION),
                 row.evidence, row.version + 1)
  }

  function ReviewStep(s: Tables, req: ReviewRequest): Step<Verification> {
    if !req.reasonFits then RollsBack(ReviewInvalid)
    else if !req.isReviewer then RollsBack(AccessDenied)
    else if req.verification >= |s.verifications| then RollsBack(NotFound)
    else if s.verifications[req.verification].status != PendingReview then RollsBack(ReviewInvalid)
    else if req.decision == Approve && req.yearLater <= req.now then RollsBack(ConstraintViolated)
    else
      var row := Reviewed(s.verifications[req.verification], req);
      var written := s.verifications[req.verification := row];
      match req.decision
      case Approve =>
        Commits(row, s.(verifications := Supersede(written, row.creator, req.verification), profiles := SetVerified(s.profiles, row),
                        jobs := UpsertJob(s.jobs, req.verification, req.now + RETENTION, req.now)))
      case Reject =>
        Commits(row, s.(verifications := written, profiles := ClearUnlessCurrent(s.profiles, row.creator, ProfileRejected, req.now),
                        jobs := UpsertJob(s.jobs, req.verification, req.now + RETENTION, req.now)))
      case RequestCorrection =>
        Commits(row, s.(verifications := written, profiles := ClearUnlessCurrent(s.profiles, row.creator, ProfilePending, req.now)))
  }

  datatype AppealRequest = AppealRequest(verification: nat, actor: Id, now: int)

  function AppealStep(s: Tables, req: AppealRequest): Step<Verification> {
    if req.verification >= |s.verifications| then RollsBack(NotFound)
    else
      var row := s.verifications[req.verification];
      if row.creator != req.actor then RollsBack(AccessDenied)
      else if row.status != Rejected || row.appealDeadline.None? || row.appealDeadline.value < req.now then RollsBack(AppealInvalid)
      else if ReviewTaken(s.verifications, row.creator, req.verification) then RollsBack(ConstraintViolated)
      else
        var row' := row.(status := AppealPending, version := row.version + 1);
        Commits(row', s.(verifications := s.verifications[req.verification := row']))
  }

  datatype DecideRequest = DecideRequest(verification: nat, actor: Id, isReviewer: bool, approve: bool, yearLater: int, now: int)

  /** The later of two dates; SQL's GREATEST passes over a missing one. */
  function Later(date: Option<int>, other: int): int {
    if date.Some? && date.value > other then date.value else other
  }

  function Decided(row: Verification, req: DecideRequest): Verification {
    row.(status := if req.approve then Verified else FinalRejected,
         verifiedAt := if req.approve then Some(req.now) else None,
         expiresAt := if req.approve then Some(req.yearLater) else None,
         deletionDueAt := Some(Later(row.deletionDueAt, req.now + RETENTION)),
         version := row.version + 1)
  }

  function DecideStep(s: Tables, req: DecideRequest): Step<Verification> {
    if !req.isReviewer then RollsBack(AccessDenied)
    else if req.verification >= |s.verifications| then RollsBack(NotFound)
    else if s.verifications[req.verification].status != AppealPending || s.verifications[req.verification].reviewer == Some(req.actor)
    then RollsBack(AppealInvalid)
    else if req.approve && req.yearLater <= req.now then RollsBack(ConstraintViolated)
    else
      var row := Decided(s.verifications[req.verification], req);
      var written := s.verifications[req.verification := row];
      Commits(row, s.(verifications := if req.approve then Supersede(written, row.creator, req.verification) else written,
                      profiles := if req.approve then SetVerified(s.profiles, row)
                                  else ClearUnlessCurrent(s.profiles, row.creator, ProfileRejected, req.now),
                      jobs := UpsertJob(s.jobs, req.verification, row.deletionDueAt.value, req.now)))
  }

  // ----- losing a credential

  /** The creator's verified row with the latest date. */
  function LatestVerified(verifications: seq<Verification>, creator: Id): (latest: Option<nat>)
    ensures latest.Some? ==> latest.value < |verifications| && verifications[latest.value].status == Verified
                             && verifications[latest.value].creator == creator
    ensures latest.None? ==> forall i :: 0 <= i < |verifications| ==>
                               !(verifications[i].status == Verified && verifications[i].creator == creator)
  {
    if verifications == [] then None
    else
      var last := |verifications| - 1;
      var earlier := LatestVerified(verifications[..last], creator);
      if verifications[last].status != Verified || verifications[last].creator != creator then earlier
      else if earlier.Some? && Date(verifications[earlier.value]) >= Date(verifications[last]) then earlier
      else Some(last)
  }

  function Date(row: Verification): int { if row.verifiedAt.Some? then row.verifiedAt.value else 0 }

  function DeclareStep(s: Tables, actor: Id): Step<nat> {
    var latest := LatestVerified(s.verifications, actor);
    if latest.None? then RollsBack(TransitionConflict)
    else
      var row := s.verifications[latest.value];
      var profiles := if actor in s.profiles then s.profiles[actor := Cleared(s.profiles[actor], ProfileUnverified)] else s.profiles;
      Commits(latest.value, s.(verifications := s.verifications[latest.value := row.(status := Invalidated, version := row.version + 1)],
                               profiles := profiles))
  }

  predicate Lapsed(row: Verification, now: int) {
    row.status == Verified && row.expiresAt.Some? && row.expiresAt.value <= now
  }

  function LapsedRows(verifications: seq<Verification>, held: set<nat>, now: int): (lapsed: seq<nat>)
    ensures forall i :: i in lapsed <==> 0 <= i < |verifications| && i !in held && Lapsed(verifications[i], now)
  {
    if verifications == [] then []
    else
      var last := |verifications| - 1;
      var earlier := LapsedRows(verifications[..last], held, now);
      if last !in held && Lapsed(verifications[last], now) then earlier + [last] else earlier
  }

  function Expiry(verifications: seq<Verification>, i: nat): int {
    if i < |verifications| && verifications[i].expiresAt.Some? then verifications[i].expiresAt.value else 0
  }

  function ByExpiry(verifications: seq<Verification>): (nat, nat) -> bool {
    (i: nat, j: nat) => Expiry(verifications, i) <= Expiry(verifications, j)
  }

  /** The rows that one pass expires: the earliest lapsed ones that no other transaction holds. */
  function Batch(verifications: seq<Verification>, held: set<nat>, limit: nat, now: int): (batch: seq<nat>)
    ensures forall k :: 0 <= k < |batch| ==> batch[k] < |verifications| && Lapsed(verifications[batch[k]], now)
  {
    var lapsed := LapsedRows(verifications, held, now);
    var sorted := Sort(lapsed, ByExpiry(verifications));
    SortKeepsElements(lapsed, ByExpiry(verifications));
    assert forall k :: 0 <= k < |sorted| ==> sorted[k] in lapsed;
    if limit < |sorted| then sorted[..limit] else sorted
  }

  function ExpireRows(verifications: seq<Verification>, batch: seq<nat>): (expired: seq<Verification>)
    ensures |expired| == |verifications|
  {
    seq(|verifications|, i requires 0 <= i < |verifications| =>
      var row := verifications[i];
      if i in batch then row.(status := Expired, version := row.version + 1) else row)
  }

  /** The profile of one expired row's creator expires with it, unless it has moved on. */
  function ExpireProfile(profiles: map<Id, Profile>, creator: Id, now: int): map<Id, Profile> {
    if creator in profiles && profiles[creator].status == ProfileVerified
       && profiles[creator].expiresAt.Some? && profiles[creator].expiresAt.value <= now
    then profiles[creator := profiles[creator].(status := ProfileExpired, version := profiles[creator].version + 1)]
    else profiles
  }

  function ExpireProfiles(profiles: map<Id, Profile>, verifications: seq<Verification>, batch: seq<nat>, now: int): map<Id, Profile>
    requires forall k :: 0 <= k < |batch| ==> batch[k] < |verifications|
  {
    if batch == [] then profiles
    else
      var last := |batch| - 1;
      ExpireProfile(ExpireProfiles(profiles, verifications, batch[..last], now), verifications[batch[last]].creator, now)
  }

  lemma NoProfileYet(profiles: map<Id, Profile>, verifications: seq<Verification>, now: int)
    ensures ExpireProfiles(profiles, verifications, [], now) == profiles
  {
  }

  lemma OneMoreProfile(profiles: map<Id, Profile>, verifications: seq<Verification>, batch: seq<nat>, i: nat, now: int)
    requires i < |batch| && forall k :: 0 <= k < |batch| ==> batch[k] < |verifications|
    ensures ExpireProfiles(profiles, verifications, batch[..i + 1], now)
            == ExpireProfile(ExpireProfiles(profiles, verifications, batch[..i], now), verifications[batch[i]].creator, now)
    ensures ExpireRows(verifications, batch)[batch[i]].creator == verifications[batch[i]].creator
  {
    assert batch[..i + 1][..i] == batch[..i];
  }

  /** `held`: the rows another transaction holds, which the pass skips. */
  datatype ExpireRequest = ExpireRequest(limit: int, held: set<nat>, now: int)

  function ExpireStep(s: Tables, req: ExpireRequest): Step<nat> {
    if !(1 <= req.limit <= 100) then RollsBack(TransitionConflict)
    else
      var batch := Batch(s.verifications, req.held, req.limit, req.now);
      Commits(|batch|, s.(verifications := ExpireRows(s.verifications, batch),
                          profiles := ExpireProfiles(s.profiles, s.verifications, batch, req.now)))
  }

  // ----- legal holds

  datatype HoldRequest = HoldRequest(verification: nat, isAdministrator: bool, caseGiven: bool, reviewAt: int, expiresAt: int, now: int)

  /** The partial unique index: the verification has a hold that was not released, even if it has expired. */
  predicate HoldOpen(holds: seq<Hold>, verification: nat) {
    exists i :: 0 <= i < |holds| && holds[i].verification == verification && !holds[i].released
  }

  function HoldStep(s: Tables, req: HoldRequest): Step<nat> {
    if !req.isAdministrator then RollsBack(AccessDenied)
    else if !(req.now < req.reviewAt <= req.expiresAt <= req.now + HOLD_LIMIT) || !req.caseGiven then RollsBack(HoldInvalid)
    else if req.verification >= |s.verifications| then RollsBack(NotFound)
    else if HoldOpen(s.holds, req.verification) then RollsBack(ConstraintViolated)
    else Commits(|s.holds|, s.(holds := s.holds + [Hold(req.verification, req.expiresAt, false)]))
  }

  function ReleaseStep(s: Tables, hold: nat, isAdministrator: bool): Step<nat> {
    if !isAdministrator then RollsBack(AccessDenied)
    else if hold >= |s.holds| || s.holds[hold].released then RollsBack(HoldInvalid)
    else Commits(hold, s.(holds := s.holds[hold := s.holds[hold].(released := true)]))
  }

  predicate Held(holds: seq<Hold>, verification: nat, now: int) {
    exists i :: 0 <= i < |holds| && holds[i].verification == verification && !holds[i].released && holds[i].expiresAt > now
  }

  // ----- the deletion queue

  predicate DeletionDue(s: Tables, job: Job, now: int) {
    && ((job.status == JobPending && job.availableAt <= now)
        || (job.status == JobProcessing && job.lease.Some? && job.lease.value.until <= now))
    && job.verification < |s.verifications|
    && s.verifications[job.verification].deletionDueAt.Some? && s.verifications[job.verification].deletionDueAt.value <= now
    && !Held(s.holds, job.verification, now)
  }

  predicate Sooner(x: Job, y: Job) {
    x.availableAt < y.availableAt || (x.availableAt == y.availableAt && x.createdAt <= y.createdAt)
  }

  /** The first due job among the first n, in order of availability and creation, that no other transaction holds. */
  function NextDeletion(s: Tables, n: nat, skipped: set<nat>, now: int): (next: Option<nat>)
    requires n <= |s.jobs|
    ensures next.Some? ==> next.value < n && DeletionDue(s, s.jobs[next.value], now) && next.value !in skipped
    ensures forall j :: 0 <= j < n && j !in skipped && DeletionDue(s, s.jobs[j], now) ==>
              next.Some? && Sooner(s.jobs[next.value], s.jobs[j])
  {
    if n == 0 then None
    else
      var earlier := NextDeletion(s, n - 1, skipped, now);
      if n - 1 in skipped || !DeletionDue(s, s.jobs[n - 1], now) then earlier
      else if earlier.Some? && Sooner(s.jobs[earlier.value], s.jobs[n - 1]) then earlier
      else Some(n - 1)
  }

  /** `knownWorker`: the worker's name is well formed; `skipped`: the jobs another transaction holds. */
  datatype ClaimRequest = ClaimRequest(knownWorker: bool, leaseSeconds: int, skipped: set<nat>, now: int)

  /** A claim counts as an attempt, and the table refuses a row with more attempts than its maximum. */
  function ClaimStep(s: Tables, req: ClaimRequest): Step<Option<(nat, nat)>> {
    if !req.knownWorker || !(15 <= req.leaseSeconds <= 300) then RollsBack(ClaimInvalid)
    else
      var next := NextDeletion(s, |s.jobs|, req.skipped, req.now);
      if next.None? then Commits(None, s)
      else
        var job := s.jobs[next.value];
        var claimed := job.(status := JobProcessing, attempts := job.attempts + 1,
                            lease := Some(Lease(s.minted, req.now + req.leaseSeconds)), version := job.version + 1);
        if claimed.attempts > claimed.maxAttempts then RollsBack(ConstraintViolated)
        else Commits(Some((next.value, s.minted)), s.(jobs := s.jobs[next.value := claimed], minted := s.minted + 1))
  }

  predicate ActiveClaim(s: Tables, job: nat, token: nat, now: int) {
    && job < |s.jobs| && s.jobs[job].status == JobProcessing && s.jobs[job].verification < |s.verifications|
    && s.jobs[job].lease.Some? && s.jobs[job].lease.value.token == token && s.jobs[job].lease.value.until > now
  }

  datatype CompleteRequest = CompleteRequest(job: nat, token: nat, local: bool, now: int)

  function CompleteStep(s: Tables, req: CompleteRequest): Step<Job> {
    if !req.local then RollsBack(TransitionConflict)
    else if !ActiveClaim(s, req.job, req.token, req.now) then RollsBack(ClaimInvalid)
    else
      var job, v := s.jobs[req.job], s.jobs[req.job].verification;
      var row := s.verifications[v].(evidence := false, version := s.verifications[v].version + 1);
      var job' := job.(status := JobCompleted, lease := None, version := job.version + 1);
      Commits(job', s.(jobs := s.jobs[req.job := job'], verifications := s.verifications[v := row]))
  }

  datatype FailRequest = FailRequest(job: nat, token: nat, codeAllowed: bool, retryable: bool, now: int)

  const BACKOFF: seq<int> := [60, 300, 1800, 7200, 21600]

  function Backoff(attempts: nat): Option<int> {
    if attempts == 0 then None else Some(BACKOFF[if attempts - 1 < 4 then attempts - 1 else 4])
  }

  function FailStep(s: Tables, req: FailRequest): Step<Job> {
    if !req.codeAllowed then RollsBack(TransitionConflict)
    else if !ActiveClaim(s, req.job, req.token, req.now) then RollsBack(ClaimInvalid)
    else
      var job := s.jobs[req.job];
      var dead := !req.retryable || job.attempts >= job.maxAttempts;
      if !dead && Backoff(job.attempts).None? then RollsBack(ConstraintViolated)
      else
        var job' := job.(status := if dead then JobDeadLetter else JobPending, lease := None, version := job.version + 1,
                         availableAt := if dead then job.availableAt else req.now + Backoff(job.attempts).value);
        Commits(job', s.(jobs := s.jobs[req.job := job']))
  }

  /** The profiles of the expired rows' creators, one after the other. */
  method ExpireEach(before: map<Id, Profile>, verifications: seq<Verification>, expired: seq<Verification>, due: seq<nat>, now: int)
    returns (profiles: map<Id, Profile>)
    requires expired == ExpireRows(verifications, due) && forall k :: 0 <= k < |due| ==> due[k] < |verifications|
    ensures profiles == ExpireProfiles(before, verifications, due, now)
  {
    profiles := before;
    NoProfileYet(before, verifications, now);
    assert due[..0] == [];
    hide ExpireProfiles, ExpireRows;
    for i := 0 to |due|
      invariant profiles == ExpireProfiles(before, verifications, due[..i], now)
    {
      OneMoreProfile(before, verifications, due, i, now);
      var creator := expired[due[i]].creator;
      if creator in profiles && profiles[creator].status == ProfileVerified
         && profiles[creator].expiresAt.Some? && profiles[creator].expiresAt.value <= now {
        profiles := profiles[creator := profiles[creator].(status := ProfileExpired, version := profiles[creator].version + 1)];
      }
    }
    assert due[..|due|] == due;
  }

  class LocalityProofStore {
    var tables: Tables

    constructor (profiles: map<Id, Profile>)
      ensures tables == Tables(profiles, [], [], [], 0)
    {
      tables := Tables(profiles, [], [], [], 0);
    }

    method Submit(req: SubmitRequest) returns (r: Result<nat, Error>)
      modifies this
      ensures r == Outcome(SubmitStep(old(tables), req)) && tables == After(old(tables), SubmitStep(old(tables), req))
    {
      if !req.shaped {
        return Failure(EvidenceInvalid);
      }
      if req.actor !in tables.profiles {
        return Failure(AccessDenied);
      }
      var localityCurrent := Current(tables.profiles[req.actor], req.now);
      if ReviewTaken(tables.verifications, req.actor, |tables.verifications|) {
        return Failure(ActiveReviewExists);
      }
      var v := |tables.verifications|;
      var row := Verification(req.actor, PendingReview, req.area, None, None, None, None, None, true, 1);
      tables := tables.(verifications := tables.verifications + [row]);
      if !localityCurrent {
        tables := tables.(profiles := tables.profiles[req.actor := Cleared(tables.profiles[req.actor], ProfilePending)]);
      }
      return Success(v);
    }

    method ResubmitCorrection(req: ResubmitRequest) returns (r: Result<Verification, Error>)
      modifies this
      ensures r == Outcome(ResubmitStep(old(tables), req)) && tables == After(old(tables), ResubmitStep(old(tables), req))
    {
      if !req.shaped {
        return Failure(EvidenceInvalid);
      }
      if req.verification >= |tables.verifications| {
        return Failure(NotFound);
      }
      var row := tables.verifications[req.verification];
      if row.creator != req.actor {
        return Failure(AccessDenied);
      }
      if row.status != CorrectionNeeded {
        return Failure(TransitionConflict);
      }
      row := row.(status := PendingReview, area := req.area, evidence := true, reviewer := None, version := row.version + 1);
      tables := tables.(verifications := tables.verifications[req.verification := row]);
      return Success(row);
    }

    method Review(req: ReviewRequest) returns (r: Result<Verification, Error>)
      modifies this
      ensures r == Outcome(ReviewStep(old(tables), req)) && tables == After(old(tables), ReviewStep(old(tables), req))
    {
      if !req.reasonFits {
        return Failure(ReviewInvalid);
      }
      if !req.isReviewer {
        return Failure(AccessDenied);
      }
      if req.verification >= |tables.verifications| {
        return Failure(NotFound);
      }
      if tables.verifications[req.verification].status != PendingReview {
        return Failure(ReviewInvalid);
      }
      if req.decision == Approve && req.yearLater <= req.now {
        return Failure(ConstraintViolated);
      }
      var row := Reviewed(tables.verifications[req.verification], req);
      var verifications, profiles, jobs := tables.verifications[req.verification := row], tables.profiles, tables.jobs;
      if req.decision == Approve {
        verifications := SupersedePrior(verifications, row.creator, req.verification);
        profiles := SetVerified(profiles, row);
      } else if req.decision == Reject {
        profiles := ClearUnlessCurrent(profiles, row.creator, ProfileRejected, req.now);
      } else {
        profiles := ClearUnlessCurrent(profiles, row.creator, ProfilePending, req.now);
      }
      if row.deletionDueAt.Some? {
        jobs := UpsertJob(jobs, req.verification, row.deletionDueAt.value, req.now);
      }
      tables := tables.(verifications := verifications, profiles := profiles, jobs := jobs);
      return Success(row);
    }

    /** Walks the rows and invalidates every other verified one of the creator. */
    method SupersedePrior(verifications: seq<Verification>, creator: Id, keep: nat) returns (superseded: seq<Verification>)
      ensures superseded == Supersede(verifications, creator, keep)
    {
      superseded := verifications;
      for i := 0 to |verifications|
        invariant |superseded| == |verifications|
        invariant superseded[..i] == Supersede(verifications, creator, keep)[..i]
        invariant superseded[i..] == verifications[i..]
      {
        var row := verifications[i];
        assert superseded[i] == superseded[i..][0] == row;
        if row.creator == creator && row.status == Verified && i != keep {
          superseded := superseded[i := row.(status := Invalidated, version := row.version + 1)];
        }
        assert superseded[i + 1..] == verifications[i + 1..];
        assert superseded[..i + 1] == Supersede(verifications, creator, keep)[..i] + [superseded[i]];
      }
    }

    method Appeal(req: AppealRequest) returns (r: Result<Verification, Error>)
      modifies this
      ensures r == Outcome(AppealStep(old(tables), req)) && tables == After(old(tables), AppealStep(old(tables), req))
    {
      if req.verification >= |tables.verifications| {
        return Failure(NotFound);
      }
      var row := tables.verifications[req.verification];
      if row.creator != req.actor {
        return Failure(AccessDenied);
      }
      if row.status != Rejected || row.appealDeadline.None? || row.appealDeadline.value < req.now {
        return Failure(AppealInvalid);
      }
      if ReviewTaken(tables.verifications, row.creator, req.verification) {
        return Failure(ConstraintViolated);
      }
      row := row.(status := AppealPending, version := row.version + 1);
      tables := tables.(verifications := tables.verifications[req.verification := row]);
      return Success(row);
    }

    method DecideAppeal(req: DecideRequest) returns (r: Result<Verification, Error>)
      modifies this
      ensures r == Outcome(DecideStep(old(tables), req)) && tables == After(old(tables), DecideStep(old(tables), req))
    {
      if !req.isReviewer {
        return Failure(AccessDenied);
      }
      if req.verification >= |tables.verifications| {
        return Failure(NotFound);
      }
      var row := tables.verifications[req.verification];
      if row.status != AppealPending || row.reviewer == Some(req.actor) {
        return Failure(AppealInvalid);
      }
      if req.approve && req.yearLater <= req.now {
        return Failure(ConstraintViolated);
      }
      row := Decided(row, req);
      var verifications, profiles := tables.verifications[req.verification := row], tables.profiles;
      if req.approve {
        verifications := SupersedePrior(verifications, row.creator, req.verification);
        profiles := SetVerified(profiles, row);
      } else {
        profiles := ClearUnlessCurrent(profiles, row.creator, ProfileRejected, req.now);
      }
      tables := tables.(verifications := verifications, profiles := profiles,
                        jobs := UpsertJob(tables.jobs, req.verification, row.deletionDueAt.value, req.now));
      return Success(row);
    }

    method DeclareAddressChange(actor: Id) returns (r: Result<nat, Error>)
      modifies this
      ensures r == Outcome(DeclareStep(old(tables), actor)) && tables == After(old(tables), DeclareStep(old(tables), actor))
    {
      var latest := LatestVerified(tables.verifications, actor);
      if latest.None? {
        return Failure(TransitionConflict);
      }
      var row := tables.verifications[latest.value];
      row := row.(status := Invalidated, version := row.version + 1);
      tables := tables.(verifications := tables.verifications[latest.value := row]);
      if actor in tables.profiles {
        tables := tables.(profiles := tables.profiles[actor := Cleared(tables.profiles[actor], ProfileUnverified)]);
      }
      return Success(latest.value);
    }

    method ExpireDueCredentials(req: ExpireRequest) returns (r: Result<nat, Error>)
      modifies this
      ensures r == Outcome(ExpireStep(old(tables), req)) && tables == After(old(tables), ExpireStep(old(tables), req))
    {
      hide Batch, ExpireRows, ExpireProfiles;
      if req.limit < 1 || req.limit > 100 {
        return Failure(TransitionConflict);
      }
      var due := Batch(tables.verifications, req.held, req.limit, req.now);
      var expired := ExpireRows(tables.verifications, due);
      var profiles := ExpireEach(tables.profiles, tables.verifications, expired, due, req.now);
      tables := tables.(verifications := expired, profiles := profiles);
      return Success(|due|);
    }

    method CreateLegalHold(req: HoldRequest) returns (r: Result<nat, Error>)
      modifies this
      ensures r == Outcome(HoldStep(old(tables), req)) && tables == After(old(tables), HoldStep(old(tables), req))
    {
      if !req.isAdministrator {
        return Failure(AccessDenied);
      }
      var valid := req.reviewAt > req.now && req.reviewAt <= req.expiresAt && req.expiresAt <= req.now + HOLD_LIMIT;
      if !valid || !req.caseGiven {
        return Failure(HoldInvalid);
      }
      if req.verification >= |tables.verifications| {
        return Failure(NotFound);
      }
      if HoldOpen(tables.holds, req.verification) {
        return Failure(ConstraintViolated);
      }
      tables := tables.(holds := tables.holds + [Hold(req.verification, req.expiresAt, false)]);
      return Success(|tables.holds| - 1);
    }

    method ReleaseLegalHold(hold: nat, isAdministrator: bool) returns (r: Result<nat, Error>)
      modifies this
      ensures r == Outcome(ReleaseStep(old(tables), hold, isAdministrator))
      ensures tables == After(old(tables), ReleaseStep(old(tables), hold, isAdministrator))
    {
      if !isAdministrator {
        return Failure(AccessDenied);
      }
      if hold >= |tables.holds| || tables.holds[hold].released {
        return Failure(HoldInvalid);
      }
      tables := tables.(holds := tables.holds[hold := tables.holds[hold].(released := true)]);
      return Success(hold);
    }

    method ClaimNextDeletion(req: ClaimRequest) returns (r: Result<Option<(nat, nat)>, Error>)
      modifies this
      ensures r == Outcome(ClaimStep(old(tables), req)) && tables == After(old(tables), ClaimStep(old(tables), req))
    {
      if !req.knownWorker || req.leaseSeconds < 15 || req.leaseSeconds > 300 {
        return Failure(ClaimInvalid);
      }
      var due := NextDeletion(tables, |tables.jobs|, req.skipped, req.now);
      if due.None? {
        return Success(None);
      }
      var job, token := tables.jobs[due.value], tables.minted;
      if job.attempts + 1 > job.maxAttempts {
        return Failure(ConstraintViolated);
      }
      job := job.(status := JobProcessing, attempts := job.attempts + 1);
      job := job.(lease := Some(Lease(token, req.now + req.leaseSeconds)), version := job.version + 1);
      tables := tables.(jobs := tables.jobs[due.value := job], minted := token + 1);
      return Success(Some((due.value, token)));
    }

    method CompleteDeletionLocally(req: CompleteRequest) returns (r: Result<Job, Error>)
      modifies this
      ensures r == Outcome(CompleteStep(old(tables), req)) && tables == After(old(tables), CompleteStep(old(tables), req))
    {
      if !req.local {
        return Failure(TransitionConflict);
      }
      if !ActiveClaim(tables, req.job, req.token, req.now) {
        return Failure(ClaimInvalid);
      }
      var job := tables.jobs[req.job];
      var row := tables.verifications[job.verification];
      row := row.(evidence := false, version := row.version + 1);
      tables := tables.(verifications := tables.verifications[job.verification := row]);
      job := job.(status := JobCompleted, lease := None, version := job.version + 1);
      tables := tables.(jobs := tables.jobs[req.job := job]);
      return Success(job);
    }

    method RecordDeletionFailure(req: FailRequest) returns (r: Result<Job, Error>)
      modifies this
      ensures r == Outcome(FailStep(old(tables), req)) && tables == After(old(tables), FailStep(old(tables), req))
    {
      if !req.codeAllowed {
        return Failure(TransitionConflict);
      }
      if !ActiveClaim(tables, req.job, req.token, req.now) {
        return Failure(ClaimInvalid);
      }
      var job := tables.jobs[req.job];
      var deadLetter := !req.retryable || job.attempts >= job.maxAttempts;
      var backoff := Backoff(job.attempts);
      if !deadLetter && backoff.None? {
        return Failure(ConstraintViolated);
      }
      if !deadLetter {
        job := job.(availableAt := req.now + backoff.value);
      }
      job := job.(status := if deadLetter then JobDeadLetter else JobPending, lease := None, version := job.version + 1);
      tables := tables.(jobs := tables.jobs[req.job := job]);
      return Success(job);
    }
  }
}
