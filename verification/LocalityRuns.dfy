/** What every run of the locality store keeps while time passes: one credential a creator, and a profile that agrees
    with it; and when the evidence queue stands still. */
module LocalityRuns {
  import opened Wrappers
  import opened Locality

  datatype Op =
    | Submit(submit: SubmitRequest)
    | Resubmit(resubmit: ResubmitRequest, at: int)
    | Review(review: ReviewRequest)
    | Appeal(appeal: AppealRequest)
    | DecideAppeal(decide: DecideRequest)
    | DeclareAddressChange(actor: Id, at: int)
    | ExpireDue(expire: ExpireRequest)
    | CreateHold(hold: HoldRequest)
    | ReleaseHold(release: nat, isAdministrator: bool, at: int)
    | ClaimDeletion(claim: ClaimRequest)
    | CompleteDeletion(complete: CompleteRequest)
    | FailDeletion(fail: FailRequest)

  function Clock(op: Op): int {
    match op
    case Submit(req) => req.now
    case Resubmit(_, at) => at
    case Review(req) => req.now
    case Appeal(req) => req.now
    case DecideAppeal(req) => req.now
    case DeclareAddressChange(_, at) => at
    case ExpireDue(req) => req.now
    case CreateHold(req) => req.now
    case ReleaseHold(_, _, at) => at
    case ClaimDeletion(req) => req.now
    case CompleteDeletion(req) => req.now
    case FailDeletion(req) => req.now
  }

  function Perform(s: Tables, op: Op): Tables {
    match op
    case Submit(req) => After(s, SubmitStep(s, req))
    case Resubmit(req, _) => After(s, ResubmitStep(s, req))
    case Review(req) => After(s, ReviewStep(s, req))
    case Appeal(req) => After(s, AppealStep(s, req))
    case DecideAppeal(req) => After(s, DecideStep(s, req))
    case DeclareAddressChange(actor, _) => After(s, DeclareStep(s, actor))
    case ExpireDue(req) => After(s, ExpireStep(s, req))
    case CreateHold(req) => After(s, HoldStep(s, req))
    case ReleaseHold(hold, isAdministrator, _) => After(s, ReleaseStep(s, hold, isAdministrator))
    case ClaimDeletion(req) => After(s, ClaimStep(s, req))
    case CompleteDeletion(req) => After(s, CompleteStep(s, req))
    case FailDeletion(req) => After(s, FailStep(s, req))
  }

  function Run(s: Tables, ops: seq<Op>): Tables
    decreases |ops|
  {
    if ops == [] then s else Run(Perform(s, ops[0]), ops[1..])
  }

  /** The clock never goes back: each step is no earlier than the one before it. */
  predicate Timely(from: int, ops: seq<Op>)
    decreases |ops|
  {
    ops == [] || (from <= Clock(ops[0]) && Timely(Clock(ops[0]), ops[1..]))
  }

  function Ends(from: int, ops: seq<Op>): int
    decreases |ops|
  {
    if ops == [] then from else Ends(Clock(ops[0]), ops[1..])
  }

  /** Creators start unverified. */
  predicate Unverified(profiles: map<Id, Profile>) {
    forall c <- profiles :: profiles[c].status != ProfileVerified
  }

  function Start(profiles: map<Id, Profile>): Tables { Tables(profiles, [], [], [], 0) }

  // ----- the credential and the profile

  predicate IsCredential(verifications: seq<Verification>, i: int, creator: Id) {
    0 <= i < |verifications| && verifications[i].status == Verified && verifications[i].creator == creator
  }

  predicate Unexpired(verifications: seq<Verification>, i: int, now: int)
    requires 0 <= i < |verifications|
  {
    verifications[i].expiresAt.Some? && verifications[i].expiresAt.value > now
  }

  predicate Mirrors(profile: Profile, row: Verification) {
    && profile.status == ProfileVerified && profile.area == Some(row.area)
    && profile.verifiedAt == row.verifiedAt && profile.expiresAt == row.expiresAt
  }

  ghost predicate OneCredentialEach(verifications: seq<Verification>) {
    forall i, j, c :: IsCredential(verifications, i, c) && IsCredential(verifications, j, c) ==> i == j
  }

  ghost predicate VerifiedProfilesAreBacked(profiles: map<Id, Profile>, verifications: seq<Verification>) {
    forall c :: c in profiles && profiles[c].status == ProfileVerified ==>
      exists i :: IsCredential(verifications, i, c) && Mirrors(profiles[c], verifications[i])
  }

  ghost predicate LiveCredentialsAreMirrored(profiles: map<Id, Profile>, verifications: seq<Verification>, now: int) {
    forall i, c :: IsCredential(verifications, i, c) && Unexpired(verifications, i, now) ==>
      c in profiles && Mirrors(profiles[c], verifications[i])
  }

  ghost predicate CreatorsExist(profiles: map<Id, Profile>, verifications: seq<Verification>) {
    forall i :: 0 <= i < |verifications| ==> verifications[i].creator in profiles
  }

  ghost predicate Agreement(profiles: map<Id, Profile>, verifications: seq<Verification>, now: int) {
    && OneCredentialEach(verifications)
    && VerifiedProfilesAreBacked(profiles, verifications)
    && LiveCredentialsAreMirrored(profiles, verifications, now)
    && CreatorsExist(profiles, verifications)
  }

  lemma AgreementAges(profiles: map<Id, Profile>, verifications: seq<Verification>, now: int, later: int)
    requires Agreement(profiles, verifications, now) && now <= later
    ensures Agreement(profiles, verifications, later)
  {
  }

  /** The credentials are the same rows with the same contents, whatever happened to the others. */
  ghost predicate SameCredentials(before: seq<Verification>, after: seq<Verification>) {
    && |before| <= |after|
    && (forall i :: 0 <= i < |after| ==>
          if i < |before| && before[i].status == Verified
          then after[i] == before[i].(evidence := after[i].evidence, version := after[i].version)
          else after[i].status != Verified)
    && (forall i :: 0 <= i < |before| ==> after[i].creator == before[i].creator)
  }

  lemma SameCredentialsKeepAgreement(profiles: map<Id, Profile>, before: seq<Verification>, after: seq<Verification>, now: int)
    requires Agreement(profiles, before, now) && SameCredentials(before, after) && CreatorsExist(profiles, after)
    ensures Agreement(profiles, after, now)
  {
    forall i, c | IsCredential(after, i, c) ensures IsCredential(before, i, c) {
    }
    forall c | c in profiles && profiles[c].status == ProfileVerified
      ensures exists i :: IsCredential(after, i, c) && Mirrors(profiles[c], after[i])
    {
      var i :| IsCredential(before, i, c) && Mirrors(profiles[c], before[i]);
      assert IsCredential(after, i, c) && Mirrors(profiles[c], after[i]);
    }
  }

  lemma ClearingKeepsAgreement(profiles: map<Id, Profile>, verifications: seq<Verification>, creator: Id, status: ProfileStatus, now: int)
    requires Agreement(profiles, verifications, now) && status != ProfileVerified
    ensures Agreement(ClearUnlessCurrent(profiles, creator, status, now), verifications, now)
    ensures ClearUnlessCurrent(profiles, creator, status, now).Keys == profiles.Keys
  {
    var cleared := ClearUnlessCurrent(profiles, creator, status, now);
    forall i, c | IsCredential(verifications, i, c) && Unexpired(verifications, i, now)
      ensures c in cleared && Mirrors(cleared[c], verifications[i])
    {
      assert Mirrors(profiles[c], verifications[i]);
    }
  }

  lemma ApprovingKeepsAgreement(profiles: map<Id, Profile>, verifications: seq<Verification>, v: nat, row: Verification, now: int)
    requires Agreement(profiles, verifications, now) && v < |verifications|
    requires row.status == Verified && row.creator == verifications[v].creator
    ensures Agreement(SetVerified(profiles, row), Supersede(verifications[v := row], row.creator, v), now)
    ensures SetVerified(profiles, row).Keys == profiles.Keys
  {
    var profiles', after := SetVerified(profiles, row), Supersede(verifications[v := row], row.creator, v);
    assert verifications[v].creator in profiles;
    forall i, c | IsCredential(after, i, c) ensures if c == row.creator then i == v else i != v && IsCredential(verifications, i, c) {
    }
    forall c | c in profiles' && profiles'[c].status == ProfileVerified
      ensures exists i :: IsCredential(after, i, c) && Mirrors(profiles'[c], after[i])
    {
      if c == row.creator {
        assert IsCredential(after, v, c) && Mirrors(profiles'[c], after[v]);
      } else {
        var i :| IsCredential(verifications, i, c) && Mirrors(profiles[c], verifications[i]);
        assert IsCredential(after, i, c) && Mirrors(profiles'[c], after[i]);
      }
    }
    assert LiveCredentialsAreMirrored(profiles', after, now);
  }

  lemma DeclaringKeepsAgreement(s: Tables, actor: Id, now: int)
    requires Agreement(s.profiles, s.verifications, now)
    ensures var after := Perform(s, DeclareAddressChange(actor, now));
            Agreement(after.profiles, after.verifications, now) && after.profiles.Keys == s.profiles.Keys
  {
    var latest := LatestVerified(s.verifications, actor);
    if latest.Some? {
      var after := Perform(s, DeclareAddressChange(actor, now));
      assert IsCredential(s.verifications, latest.value, actor);
      forall i, c | IsCredential(after.verifications, i, c) ensures c != actor && IsCredential(s.verifications, i, c) {
        assert i != latest.value;
        assert IsCredential(s.verifications, i, c);
      }
      forall c | c in after.profiles && after.profiles[c].status == ProfileVerified
        ensures exists i :: IsCredential(after.verifications, i, c) && Mirrors(after.profiles[c], after.verifications[i])
      {
        var i :| IsCredential(s.verifications, i, c) && Mirrors(s.profiles[c], s.verifications[i]);
        assert IsCredential(after.verifications, i, c);
      }
    }
  }

  predicate Lapses(profile: Profile, now: int) {
    profile.status == ProfileVerified && profile.expiresAt.Some? && profile.expiresAt.value <= now
  }

  ghost predicate InBatch(verifications: seq<Verification>, batch: seq<nat>, creator: Id) {
    exists k :: 0 <= k < |batch| && batch[k] < |verifications| && verifications[batch[k]].creator == creator
  }

  lemma {:induction false} ExpiredProfiles(profiles: map<Id, Profile>, verifications: seq<Verification>, batch: seq<nat>, now: int)
    requires forall k :: 0 <= k < |batch| ==> batch[k] < |verifications|
    ensures var after := ExpireProfiles(profiles, verifications, batch, now);
            && after.Keys == profiles.Keys
            && forall c :: c in profiles ==>
                 after[c] == if Lapses(profiles[c], now) && InBatch(verifications, batch, c)
                             then profiles[c].(status := ProfileExpired, version := profiles[c].version + 1) else profiles[c]
  {
    if batch != [] {
      var earlier := batch[..|batch| - 1];
      ExpiredProfiles(profiles, verifications, earlier, now);
      var creator := verifications[batch[|batch| - 1]].creator;
      forall c | c in profiles ensures InBatch(verifications, batch, c) <==> c == creator || InBatch(verifications, earlier, c) {
        if InBatch(verifications, earlier, c) {
          var k :| 0 <= k < |earlier| && earlier[k] < |verifications| && verifications[earlier[k]].creator == c;
          assert batch[k] == earlier[k];
        }
        if InBatch(verifications, batch, c) && c != creator {
          var k :| 0 <= k < |batch| && batch[k] < |verifications| && verifications[batch[k]].creator == c;
          assert earlier[k] == batch[k];
        }
      }
    }
  }

  lemma ExpiringKeepsAgreement(profiles: map<Id, Profile>, verifications: seq<Verification>, batch: seq<nat>, now: int)
    requires Agreement(profiles, verifications, now)
    requires forall k :: 0 <= k < |batch| ==> batch[k] < |verifications| && Lapsed(verifications[batch[k]], now)
    ensures Agreement(ExpireProfiles(profiles, verifications, batch, now), ExpireRows(verifications, batch), now)
    ensures ExpireProfiles(profiles, verifications, batch, now).Keys == profiles.Keys
  {
    ExpiredProfiles(profiles, verifications, batch, now);
    var profiles', after := ExpireProfiles(profiles, verifications, batch, now), ExpireRows(verifications, batch);
    hide ExpireProfiles;
    forall i, c | IsCredential(after, i, c) ensures IsCredential(verifications, i, c) && after[i] == verifications[i] {
    }
    forall c | c in profiles' && profiles'[c].status == ProfileVerified
      ensures exists i :: IsCredential(after, i, c) && Mirrors(profiles'[c], after[i])
    {
      var i :| IsCredential(verifications, i, c) && Mirrors(profiles[c], verifications[i]);
      assert IsCredential(after, i, c) && Mirrors(profiles'[c], after[i]);
    }
    assert LiveCredentialsAreMirrored(profiles', after, now);
  }

  // ----- reviews

  ghost predicate OneReviewEach(verifications: seq<Verification>) {
    forall i, j :: 0 <= i < j < |verifications| && UnderReview(verifications[i]) && UnderReview(verifications[j]) ==>
      verifications[i].creator != verifications[j].creator
  }

  /** No row enters review, and creators stay. */
  ghost predicate NoNewReviews(before: seq<Verification>, after: seq<Verification>) {
    && |before| == |after|
    && forall i :: 0 <= i < |after| ==> after[i].creator == before[i].creator && (UnderReview(after[i]) ==> UnderReview(before[i]))
  }

  lemma NoNewReviewsKeep(before: seq<Verification>, after: seq<Verification>)
    requires OneReviewEach(before) && NoNewReviews(before, after)
    ensures OneReviewEach(after)
  {
  }

  // ----- jobs

  predicate JobSound(job: Job, verifications: seq<Verification>, minted: nat) {
    && job.verification < |verifications|
    && verifications[job.verification].status !in {PendingReview, CorrectionNeeded}
    && job.attempts <= job.maxAttempts
    && (job.status == JobPending ==> job.attempts < job.maxAttempts)
    && (job.status == JobProcessing ==> job.attempts > 0)
    && (job.status == JobProcessing <==> job.lease.Some?)
    && (job.lease.Some? ==> job.lease.value.token < minted)
  }

  ghost predicate JobsHold(jobs: seq<Job>, verifications: seq<Verification>, minted: nat) {
    && (forall j :: 0 <= j < |jobs| ==> JobSound(jobs[j], verifications, minted))
    && (forall j, k :: 0 <= j < k < |jobs| ==> jobs[j].verification != jobs[k].verification)
  }

  lemma {:induction false} UpsertShape(jobs: seq<Job>, v: nat, availableAt: int, now: int)
    ensures var after := UpsertJob(jobs, v, availableAt, now);
            && |jobs| <= |after| <= |jobs| + 1
            && (forall j :: 0 <= j < |jobs| ==>
                  after[j] == jobs[j]
                  || (jobs[j].status == JobPending && after[j] == jobs[j].(availableAt := after[j].availableAt)))
            && (|after| == |jobs| + 1 ==>
                  && (forall j :: 0 <= j < |jobs| ==> jobs[j].verification != v)
                  && after[|jobs|] == Job(v, JobPending, availableAt, now, 0, MAX_DELETION_ATTEMPTS, None, 1))
  {
    if jobs != [] && jobs[0].verification != v {
      UpsertShape(jobs[1..], v, availableAt, now);
      var after, rest := UpsertJob(jobs, v, availableAt, now), UpsertJob(jobs[1..], v, availableAt, now);
      assert after == [jobs[0]] + rest;
      forall j | 0 <= j < |jobs|
        ensures after[j] == jobs[j] || (jobs[j].status == JobPending && after[j] == jobs[j].(availableAt := after[j].availableAt))
      {
        assert j > 0 ==> after[j] == rest[j - 1] && jobs[j] == jobs[1..][j - 1];
      }
      forall j | 0 <= j < |jobs| && |after| == |jobs| + 1 ensures jobs[j].verification != v {
        assert j > 0 ==> jobs[j] == jobs[1..][j - 1];
      }
    }
  }

  lemma UpsertKeepsJobs(jobs: seq<Job>, verifications: seq<Verification>, minted: nat, v: nat, availableAt: int, now: int)
    requires JobsHold(jobs, verifications, minted)
    requires v < |verifications| && verifications[v].status !in {PendingReview, CorrectionNeeded}
    ensures JobsHold(UpsertJob(jobs, v, availableAt, now), verifications, minted)
  {
    UpsertShape(jobs, v, availableAt, now);
    hide UpsertJob;
  }

  /** Verifications with a job may move, but never back to review of their evidence. */
  lemma MovingRowsKeepsJobs(jobs: seq<Job>, before: seq<Verification>, after: seq<Verification>, minted: nat)
    requires JobsHold(jobs, before, minted) && |before| <= |after|
    requires forall i :: 0 <= i < |before| && before[i].status !in {PendingReview, CorrectionNeeded} ==>
               after[i].status !in {PendingReview, CorrectionNeeded}
    ensures JobsHold(jobs, after, minted)
  {
    forall j | 0 <= j < |jobs| ensures JobSound(jobs[j], after, minted) {
      assert JobSound(jobs[j], before, minted);
    }
  }

  lemma WritingJobKeepsJobs(jobs: seq<Job>, verifications: seq<Verification>, minted: nat, j: nat, job: Job, minted': nat)
    requires JobsHold(jobs, verifications, minted) && j < |jobs| && minted <= minted'
    requires JobSound(job, verifications, minted') && job.verification == jobs[j].verification
    ensures JobsHold(jobs[j := job], verifications, minted')
  {
    var after := jobs[j := job];
    forall k | 0 <= k < |after| ensures JobSound(after[k], verifications, minted') {
      assert JobSound(jobs[k], verifications, minted);
    }
  }

  // ----- every step keeps them

  ghost predicate Invariant(s: Tables, now: int) {
    && Agreement(s.profiles, s.verifications, now)
    && OneReviewEach(s.verifications)
    && JobsHold(s.jobs, s.verifications, s.minted)
  }

  lemma SubmitKeeps(s: Tables, req: SubmitRequest)
    requires Invariant(s, req.now)
    ensures Invariant(After(s, SubmitStep(s, req)), req.now)
  {
    if SubmitStep(s, req).Commits? {
      var after := SubmitStep(s, req).tables;
      MovingRowsKeepsJobs(s.jobs, s.verifications, after.verifications, s.minted);
      SameCredentialsKeepAgreement(s.profiles, s.verifications, after.verifications, req.now);
      ClearingKeepsAgreement(s.profiles, after.verifications, req.actor, ProfilePending, req.now);
    }
  }

  /** A change of one row that makes no credential and enters no review. */
  lemma QuietChangeKeeps(s: Tables, v: nat, row: Verification, now: int)
    requires Invariant(s, now) && v < |s.verifications|
    requires row.creator == s.verifications[v].creator
    requires if s.verifications[v].status == Verified
             then row == s.verifications[v].(evidence := row.evidence, version := row.version) else row.status != Verified
    requires UnderReview(row) ==> (UnderReview(s.verifications[v]) || !ReviewTaken(s.verifications, row.creator, v))
    requires row.status in {PendingReview, CorrectionNeeded} ==> s.verifications[v].status in {PendingReview, CorrectionNeeded}
    ensures Invariant(s.(verifications := s.verifications[v := row]), now)
  {
    var after := s.verifications[v := row];
    MovingRowsKeepsJobs(s.jobs, s.verifications, after, s.minted);
    SameCredentialsKeepAgreement(s.profiles, s.verifications, after, now);
    hide Agreement, JobsHold;
    forall i, j | 0 <= i < j < |after| && UnderReview(after[i]) && UnderReview(after[j]) ensures after[i].creator != after[j].creator {
    }
  }

  lemma ResubmitKeeps(s: Tables, req: ResubmitRequest, now: int)
    requires Invariant(s, now)
    ensures Invariant(After(s, ResubmitStep(s, req)), now)
  {
    hide Invariant;
    if ResubmitStep(s, req).Commits? {
      QuietChangeKeeps(s, req.verification, ResubmitStep(s, req).value, now);
    }
  }

  lemma AppealKeeps(s: Tables, req: AppealRequest)
    requires Invariant(s, req.now)
    ensures Invariant(After(s, AppealStep(s, req)), req.now)
  {
    hide Invariant;
    if AppealStep(s, req).Commits? {
      QuietChangeKeeps(s, req.verification, AppealStep(s, req).value, req.now);
    }
  }

  /** Refusing a row: it changes quietly, its creator's profile is cleared unless it is current, and a job may be due. */
  lemma RefusalKeeps(s: Tables, v: nat, row: Verification, status: ProfileStatus, due: Option<int>, now: int)
    requires Invariant(s, now) && v < |s.verifications| && UnderReview(s.verifications[v]) && row.status != Verified
    requires row.creator == s.verifications[v].creator && status != ProfileVerified
    requires row.status in {PendingReview, CorrectionNeeded} ==> s.verifications[v].status in {PendingReview, CorrectionNeeded}
    requires due.Some? ==> row.status !in {PendingReview, CorrectionNeeded}
    ensures Invariant(s.(verifications := s.verifications[v := row], profiles := ClearUnlessCurrent(s.profiles, row.creator, status, now),
                         jobs := if due.Some? then UpsertJob(s.jobs, v, due.value, now) else s.jobs), now)
  {
    QuietChangeKeeps(s, v, row, now);
    var after := s.verifications[v := row];
    hide Agreement, JobsHold, OneReviewEach, UpsertJob, ClearUnlessCurrent;
    ClearingKeepsAgreement(s.profiles, after, row.creator, status, now);
    if due.Some? {
      UpsertKeepsJobs(s.jobs, after, s.minted, v, due.value, now);
    }
  }

  lemma ApprovalKeeps(s: Tables, v: nat, row: Verification, due: int, now: int)
    requires Invariant(s, now) && v < |s.verifications|
    requires row.status == Verified && row.creator == s.verifications[v].creator
    ensures Invariant(s.(verifications := Supersede(s.verifications[v := row], row.creator, v), profiles := SetVerified(s.profiles, row),
                         jobs := UpsertJob(s.jobs, v, due, now)), now)
  {
    var after := Supersede(s.verifications[v := row], row.creator, v);
    MovingRowsKeepsJobs(s.jobs, s.verifications, after, s.minted);
    NoNewReviewsKeep(s.verifications, after);
    hide Agreement, JobsHold, OneReviewEach, UpsertJob, SetVerified;
    UpsertKeepsJobs(s.jobs, after, s.minted, v, due, now);
    ApprovingKeepsAgreement(s.profiles, s.verifications, v, row, now);
  }

  lemma ReviewKeeps(s: Tables, req: ReviewRequest)
    requires Invariant(s, req.now)
    ensures Invariant(After(s, ReviewStep(s, req)), req.now)
  {
    hide Invariant, Supersede, SetVerified, UpsertJob, ClearUnlessCurrent;
    var step := ReviewStep(s, req);
    if step.Commits? {
      match req.decision
      case Approve => ApprovalKeeps(s, req.verification, step.value, req.now + RETENTION, req.now);
      case Reject => RefusalKeeps(s, req.verification, step.value, ProfileRejected, Some(req.now + RETENTION), req.now);
      case RequestCorrection => RefusalKeeps(s, req.verification, step.value, ProfilePending, None, req.now);
    }
  }

  lemma DecideKeeps(s: Tables, req: DecideRequest)
    requires Invariant(s, req.now)
    ensures Invariant(After(s, DecideStep(s, req)), req.now)
  {
    hide Invariant, Supersede, SetVerified, UpsertJob, ClearUnlessCurrent;
    var step := DecideStep(s, req);
    if step.Commits? {
      if req.approve {
        ApprovalKeeps(s, req.verification, step.value, step.value.deletionDueAt.value, req.now);
      } else {
        RefusalKeeps(s, req.verification, step.value, ProfileRejected, step.value.deletionDueAt, req.now);
      }
    }
  }

  lemma DeclareKeeps(s: Tables, actor: Id, now: int)
    requires Invariant(s, now)
    ensures Invariant(Perform(s, DeclareAddressChange(actor, now)), now)
  {
    DeclaringKeepsAgreement(s, actor, now);
    var after := Perform(s, DeclareAddressChange(actor, now));
    assert NoNewReviews(s.verifications, after.verifications);
    hide Agreement;
    NoNewReviewsKeep(s.verifications, after.verifications);
    MovingRowsKeepsJobs(s.jobs, s.verifications, after.verifications, s.minted);
  }

  lemma ExpireKeeps(s: Tables, req: ExpireRequest)
    requires Invariant(s, req.now)
    ensures Invariant(After(s, ExpireStep(s, req)), req.now)
  {
    hide Batch, Agreement, ExpireProfiles;
    if ExpireStep(s, req).Commits? {
      var batch := Batch(s.verifications, req.held, req.limit, req.now);
      ExpiringKeepsAgreement(s.profiles, s.verifications, batch, req.now);
      NoNewReviewsKeep(s.verifications, ExpireRows(s.verifications, batch));
      MovingRowsKeepsJobs(s.jobs, s.verifications, ExpireRows(s.verifications, batch), s.minted);
    }
  }

  lemma ClaimKeeps(s: Tables, req: ClaimRequest)
    requires Invariant(s, req.now)
    ensures Invariant(After(s, ClaimStep(s, req)), req.now)
  {
    hide Agreement, OneReviewEach, NextDeletion;
    var step := ClaimStep(s, req);
    if step.Commits? && step.value.Some? {
      var j := step.value.value.0;
      assert JobSound(s.jobs[j], s.verifications, s.minted);
      WritingJobKeepsJobs(s.jobs, s.verifications, s.minted, j, step.tables.jobs[j], s.minted + 1);
    }
  }

  lemma CompleteKeeps(s: Tables, req: CompleteRequest)
    requires Invariant(s, req.now)
    ensures Invariant(After(s, CompleteStep(s, req)), req.now)
  {
    var step := CompleteStep(s, req);
    if step.Commits? {
      var v := s.jobs[req.job].verification;
      assert JobSound(s.jobs[req.job], s.verifications, s.minted);
      QuietChangeKeeps(s, v, step.tables.verifications[v], req.now);
      hide Agreement, OneReviewEach, JobsHold;
      WritingJobKeepsJobs(s.jobs, step.tables.verifications, s.minted, req.job, step.value, s.minted);
    }
  }

  lemma FailKeeps(s: Tables, req: FailRequest)
    requires Invariant(s, req.now)
    ensures Invariant(After(s, FailStep(s, req)), req.now)
  {
    hide Agreement, OneReviewEach;
    var step := FailStep(s, req);
    if step.Commits? {
      assert JobSound(s.jobs[req.job], s.verifications, s.minted);
      WritingJobKeepsJobs(s.jobs, s.verifications, s.minted, req.job, step.value, s.minted);
    }
  }

  lemma StepKeepsInvariant(s: Tables, op: Op)
    requires Invariant(s, Clock(op))
    ensures Invariant(Perform(s, op), Clock(op))
  {
    hide Agreement, OneReviewEach, JobsHold;
    match op
    case Submit(req) => SubmitKeeps(s, req);
    case Resubmit(req, at) => ResubmitKeeps(s, req, at);
    case Review(req) => ReviewKeeps(s, req);
    case Appeal(req) => AppealKeeps(s, req);
    case DecideAppeal(req) => DecideKeeps(s, req);
    case DeclareAddressChange(actor, at) => DeclareKeeps(s, actor, at);
    case ExpireDue(req) => ExpireKeeps(s, req);
    case CreateHold(_) =>
    case ReleaseHold(_, _, _) =>
    case ClaimDeletion(req) => ClaimKeeps(s, req);
    case CompleteDeletion(req) => CompleteKeeps(s, req);
    case FailDeletion(req) => FailKeeps(s, req);
  }

  lemma {:induction false} RunKeepsInvariant(s: Tables, ops: seq<Op>, from: int)
    requires Invariant(s, from) && Timely(from, ops)
    ensures Invariant(Run(s, ops), Ends(from, ops))
    decreases |ops|
  {
    if ops != [] {
      AgreementAges(s.profiles, s.verifications, from, Clock(ops[0]));
      assert Invariant(s, Clock(ops[0]));
      hide Invariant, Perform, Clock;
      StepKeepsInvariant(s, ops[0]);
      RunKeepsInvariant(Perform(s, ops[0]), ops[1..], Clock(ops[0]));
    }
  }

  /** The invariant holds after any run from unverified profiles, at the end of the run and ever after. */
  lemma RunHolds(profiles: map<Id, Profile>, from: int, ops: seq<Op>, now: int)
    requires Unverified(profiles) && Timely(from, ops) && Ends(from, ops) <= now
    ensures Invariant(Run(Start(profiles), ops), now)
  {
    var s := Run(Start(profiles), ops);
    assert Invariant(Start(profiles), from);
    hide Perform, Agreement;
    RunKeepsInvariant(Start(profiles), ops, from);
    AgreementAges(s.profiles, s.verifications, Ends(from, ops), now);
  }
}
