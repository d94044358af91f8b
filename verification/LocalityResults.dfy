/** What the locality runs add up to: the cached profile is right at every moment, and a deletion job whose last lease
    lapses is never finished. */
module LocalityResults {
  import opened Wrappers
  import opened Locality
  import opened LocalityRuns

  /** At every moment after any run, a creator has at most one verified row, the profile is currently verified exactly
      when that row is unexpired, and then it shows the row's area and dates. */
  lemma ProfileIsCurrentExactlyWhenCredentialIs(profiles: map<Id, Profile>, from: int, ops: seq<Op>, now: int, c: Id)
    requires Unverified(profiles) && Timely(from, ops) && Ends(from, ops) <= now
    ensures var s := Run(Start(profiles), ops);
            && (forall i, j :: IsCredential(s.verifications, i, c) && IsCredential(s.verifications, j, c) ==> i == j)
            && ((c in s.profiles && Current(s.profiles[c], now))
                <==> exists i :: IsCredential(s.verifications, i, c) && Unexpired(s.verifications, i, now))
            && (forall i :: IsCredential(s.verifications, i, c) && Unexpired(s.verifications, i, now) ==>
                  Mirrors(s.profiles[c], s.verifications[i]))
  {
    hide Perform;
    RunHolds(profiles, from, ops, now);
    var s := Run(Start(profiles), ops);
    if c in s.profiles && Current(s.profiles[c], now) {
      var i :| IsCredential(s.verifications, i, c) && Mirrors(s.profiles[c], s.verifications[i]);
      assert Unexpired(s.verifications, i, now);
    }
  }

  /** At most one verification of a creator is under review, so a submission is refused exactly while one is. */
  lemma OneReviewAtATime(profiles: map<Id, Profile>, from: int, ops: seq<Op>, i: nat, j: nat)
    requires Unverified(profiles) && Timely(from, ops)
    ensures var rows := Run(Start(profiles), ops).verifications;
            i < |rows| && j < |rows| && UnderReview(rows[i]) && UnderReview(rows[j]) && rows[i].creator == rows[j].creator ==> i == j
  {
    hide Perform;
    RunHolds(profiles, from, ops, Ends(from, ops));
    hide Agreement, JobsHold;
    var rows := Run(Start(profiles), ops).verifications;
    assert OneReviewEach(rows);
  }

  // ----- appeals

  /** The creator appeals against a rejection before its deadline. */
  predicate InTime(s: Tables, req: AppealRequest) {
    && req.verification < |s.verifications| && s.verifications[req.verification].creator == req.actor
    && s.verifications[req.verification].status == Rejected
    && s.verifications[req.verification].appealDeadline.Some? && req.now <= s.verifications[req.verification].appealDeadline.value
  }

  /** Row k is another verification under review of the creator of row v. */
  predicate Blocks(s: Tables, k: nat, v: nat) {
    && k < |s.verifications| && v < |s.verifications| && k != v
    && s.verifications[k].creator == s.verifications[v].creator && UnderReview(s.verifications[k])
  }

  /** In every reachable state an appeal in time by the creator is refused exactly when one other verification of theirs,
      and only one, is under review: the partial index then refuses the change, and the program does not name that error. */
  lemma TimelyAppealFailsExactlyWhen(profiles: map<Id, Profile>, from: int, ops: seq<Op>, req: AppealRequest)
    requires Unverified(profiles) && Timely(from, ops) && InTime(Run(Start(profiles), ops), req)
    ensures var s := Run(Start(profiles), ops);
            && (AppealStep(s, req).RollsBack? <==> exists k :: Blocks(s, k, req.verification))
            && (AppealStep(s, req).RollsBack? ==> AppealStep(s, req).error == ConstraintViolated)
            && (forall j, k :: Blocks(s, j, req.verification) && Blocks(s, k, req.verification) ==> j == k)
  {
    hide Perform;
    RunHolds(profiles, from, ops, Ends(from, ops));
    hide Agreement, JobsHold;
    var s := Run(Start(profiles), ops);
    AppealMeetsTheIndex(s, req);
    assert OneReviewEach(s.verifications);
  }

  lemma AppealMeetsTheIndex(s: Tables, req: AppealRequest)
    requires InTime(s, req)
    ensures AppealStep(s, req).RollsBack? <==> exists k :: Blocks(s, k, req.verification)
    ensures AppealStep(s, req).RollsBack? ==> AppealStep(s, req).error == ConstraintViolated
  {
    var v := req.verification;
    if ReviewTaken(s.verifications, req.actor, v) {
      var k :| 0 <= k < |s.verifications| && k != v && s.verifications[k].creator == req.actor && UnderReview(s.verifications[k]);
      assert Blocks(s, k, v);
    }
    if k :| Blocks(s, k, v) {
      assert ReviewTaken(s.verifications, req.actor, v);
    }
  }

  lemma OtherStepsStartNoReview(s: Tables, op: Op)
    requires !op.Submit? && !op.Appeal?
    ensures NoNewReviews(s.verifications, Perform(s, op).verifications)
  {
    hide ExpireProfiles, ClearUnlessCurrent, SetVerified, UpsertJob, Batch, NextDeletion, Backoff, Held, ReviewTaken, SubmitStep, AppealStep;
  }

  /** A row comes under review only while no other row of its creator is, and nobody's row changes hands. */
  lemma ReviewsStartAlone(s: Tables, op: Op, j: nat)
    ensures var after := Perform(s, op).verifications;
            && |s.verifications| <= |after|
            && (forall i :: 0 <= i < |s.verifications| ==> after[i].creator == s.verifications[i].creator)
            && (j < |after| && UnderReview(after[j]) && !(j < |s.verifications| && UnderReview(s.verifications[j])) ==>
                  !ReviewTaken(s.verifications, after[j].creator, j))
  {
    if !op.Submit? && !op.Appeal? {
      OtherStepsStartNoReview(s, op);
    }
    hide ClearUnlessCurrent, ResubmitStep, ReviewStep, DecideStep, DeclareStep, ExpireStep, HoldStep, ReleaseStep, ClaimStep, CompleteStep, FailStep;
  }

  /** Whatever step is taken while row k stands in the way of an appeal, the appeal is refused after it exactly when row k
      is still under review: the refusal lifts the moment that review ends, and not before. */
  lemma RefusalLiftsExactlyWhenReviewEnds(profiles: map<Id, Profile>, from: int, ops: seq<Op>, op: Op, k: nat, req: AppealRequest)
    requires Unverified(profiles) && Timely(from, ops) && Blocks(Run(Start(profiles), ops), k, req.verification)
    requires InTime(Perform(Run(Start(profiles), ops), op), req)
    ensures var after := Perform(Run(Start(profiles), ops), op);
            k < |after.verifications| && (AppealStep(after, req).RollsBack? <==> UnderReview(after.verifications[k]))
  {
    hide Perform, AppealStep;
    RunHolds(profiles, from, ops, Ends(from, ops));
    hide Agreement, JobsHold;
    var s, v := Run(Start(profiles), ops), req.verification;
    var after := Perform(s, op);
    AppealMeetsTheIndex(after, req);
    ReviewsStartAlone(s, op, k);
    assert OneReviewEach(s.verifications);
    forall j: nat | Blocks(after, j, v) ensures j == k {
      ReviewsStartAlone(s, op, j);
    }
    assert UnderReview(after.verifications[k]) ==> Blocks(after, k, v);
  }

  // ----- deletion jobs

  /** The job spent its last attempt, and its worker let the lease lapse. */
  predicate Stuck(s: Tables, j: nat, now: int) {
    && j < |s.jobs| && s.jobs[j].status == JobProcessing
    && s.jobs[j].lease.Some? && s.jobs[j].lease.value.until <= now
    && s.jobs[j].attempts == s.jobs[j].maxAttempts
  }

  lemma AttemptsStayWithinMaximum(profiles: map<Id, Profile>, from: int, ops: seq<Op>, j: nat)
    requires Unverified(profiles) && Timely(from, ops) && j < |Run(Start(profiles), ops).jobs|
    ensures var job := Run(Start(profiles), ops).jobs[j]; job.attempts <= job.maxAttempts
  {
    hide Perform;
    RunHolds(profiles, from, ops, Ends(from, ops));
    hide Agreement, OneReviewEach;
    var s := Run(Start(profiles), ops);
    assert JobSound(s.jobs[j], s.verifications, s.minted);
  }

  lemma ClaimMeetsTheBound(s: Tables, req: ClaimRequest)
    requires Invariant(s, req.now) && req.knownWorker && 15 <= req.leaseSeconds <= 300
    ensures var next := NextDeletion(s, |s.jobs|, req.skipped, req.now);
            ClaimStep(s, req).RollsBack? <==> next.Some? && Stuck(s, next.value, req.now)
    ensures ClaimStep(s, req).RollsBack? ==> ClaimStep(s, req).error == ConstraintViolated
  {
    hide Agreement, OneReviewEach;
    var next := NextDeletion(s, |s.jobs|, req.skipped, req.now);
    if next.Some? {
      assert JobSound(s.jobs[next.value], s.verifications, s.minted);
    }
  }

  /** After any run, a well-formed claim fails exactly when the job it comes to is stuck: one more attempt would break the
      table's bound, so nobody gets any job while that one is first in line. */
  lemma ClaimFailsExactlyWhenNextIsStuck(profiles: map<Id, Profile>, from: int, ops: seq<Op>, req: ClaimRequest)
    requires Unverified(profiles) && Timely(from, ops) && Ends(from, ops) <= req.now
    requires req.knownWorker && 15 <= req.leaseSeconds <= 300
    ensures var s := Run(Start(profiles), ops);
            var next := NextDeletion(s, |s.jobs|, req.skipped, req.now);
            && (ClaimStep(s, req).RollsBack? <==> next.Some? && Stuck(s, next.value, req.now))
            && (ClaimStep(s, req).RollsBack? ==> ClaimStep(s, req).error == ConstraintViolated)
  {
    hide Perform, Invariant, ClaimStep, NextDeletion, Stuck;
    RunHolds(profiles, from, ops, req.now);
    ClaimMeetsTheBound(Run(Start(profiles), ops), req);
  }

  ghost predicate Untouched(s: Tables, after: Tables, j: nat) {
    && j < |s.jobs| && j < |after.jobs| && after.jobs[j] == s.jobs[j]
    && after.jobs[j].verification < |after.verifications|
    && after.verifications[after.jobs[j].verification].evidence
  }

  ghost predicate StuckWithEvidence(s: Tables, j: nat, now: int) {
    && Invariant(s, now) && Stuck(s, j, now) && s.jobs[j].verification < |s.verifications|
    && s.verifications[s.jobs[j].verification].evidence
  }

  lemma ReviewLeavesStuck(s: Tables, req: ReviewRequest, j: nat, now: int)
    requires StuckWithEvidence(s, j, now)
    ensures Untouched(s, After(s, ReviewStep(s, req)), j)
  {
    UpsertShape(s.jobs, req.verification, req.now + RETENTION, req.now);
    hide Invariant, UpsertJob, ClearUnlessCurrent, SetVerified;
  }

  lemma DecisionLeavesStuck(s: Tables, req: DecideRequest, j: nat, now: int)
    requires StuckWithEvidence(s, j, now)
    ensures Untouched(s, After(s, DecideStep(s, req)), j)
  {
    if req.verification < |s.verifications| {
      UpsertShape(s.jobs, req.verification, Decided(s.verifications[req.verification], req).deletionDueAt.value, req.now);
    }
    hide Invariant, UpsertJob, ClearUnlessCurrent, SetVerified;
  }

  lemma OutcomeLeavesStuck(s: Tables, op: Op, j: nat, now: int)
    requires StuckWithEvidence(s, j, now) && now <= Clock(op) && (op.ClaimDeletion? || op.CompleteDeletion? || op.FailDeletion?)
    ensures Untouched(s, Perform(s, op), j)
  {
    hide Agreement, OneReviewEach, NextDeletion, Backoff;
    assert JobSound(s.jobs[j], s.verifications, s.minted);
  }

  lemma StuckStepStays(s: Tables, op: Op, j: nat, now: int)
    requires StuckWithEvidence(s, j, now) && now <= Clock(op)
    ensures Untouched(s, Perform(s, op), j)
  {
    hide Agreement, OneReviewEach, ExpireProfiles, ClearUnlessCurrent, ReviewTaken, Batch, ReviewStep, DecideStep, ClaimStep, CompleteStep, FailStep;
    assert JobSound(s.jobs[j], s.verifications, s.minted);
    match op
    case Review(req) => ReviewLeavesStuck(s, req, j, now);
    case DecideAppeal(req) => DecisionLeavesStuck(s, req, j, now);
    case ClaimDeletion(_) => OutcomeLeavesStuck(s, op, j, now);
    case CompleteDeletion(_) => OutcomeLeavesStuck(s, op, j, now);
    case FailDeletion(_) => OutcomeLeavesStuck(s, op, j, now);
    case _ =>
  }

  lemma {:induction false} StuckStays(s: Tables, ops: seq<Op>, j: nat, now: int)
    requires StuckWithEvidence(s, j, now) && Timely(now, ops)
    ensures Untouched(s, Run(s, ops), j)
    decreases |ops|
  {
    if ops != [] {
      AgreementAges(s.profiles, s.verifications, now, Clock(ops[0]));
      assert Invariant(s, Clock(ops[0]));
      hide Invariant, Perform, Clock;
      StuckStepStays(s, ops[0], j, now);
      StepKeepsInvariant(s, ops[0]);
      StuckStays(Perform(s, ops[0]), ops[1..], j, Clock(ops[0]));
    }
  }

  /** Once some run has left a job stuck while its evidence is there, nothing ever touches the job again: it is neither
      finished nor dead-lettered, and the evidence stays. */
  lemma StuckForEver(profiles: map<Id, Profile>, from: int, before: seq<Op>, j: nat, now: int, ops: seq<Op>)
    requires Unverified(profiles) && Timely(from, before) && Ends(from, before) <= now && Timely(now, ops)
    requires Stuck(Run(Start(profiles), before), j, now)
    requires var s := Run(Start(profiles), before);
             s.jobs[j].verification < |s.verifications| && s.verifications[s.jobs[j].verification].evidence
    ensures Untouched(Run(Start(profiles), before), Run(Run(Start(profiles), before), ops), j)
  {
    hide Perform, Invariant, Untouched;
    RunHolds(profiles, from, before, now);
    StuckStays(Run(Start(profiles), before), ops, j, now);
  }

  // ----- a run that gets there

  const CREATOR: Id := "creator"

  const PROFILES := map[CREATOR := Profile(ProfileUnverified, None, None, None, 1)]

  const REFUSAL := [Submit(SubmitRequest(CREATOR, "10001", true, 0)),
                    Review(ReviewRequest(0, "reviewer", true, Reject, true, 0, 0))]

  function Attempt(k: nat): Op { ClaimDeletion(ClaimRequest(true, 15, {}, RETENTION + 15 * k)) }

  lemma {:induction false} RunsThen(s: Tables, ops: seq<Op>, op: Op)
    ensures Run(s, ops + [op]) == Perform(Run(s, ops), op)
    decreases |ops|
  {
    hide Perform;
    if ops == [] {
      assert [op][1..] == [] && [] + [op] == [op];
    } else {
      RunsThen(Perform(s, ops[0]), ops[1..], op);
      assert (ops + [op])[0] == ops[0] && (ops + [op])[1..] == ops[1..] + [op];
    }
  }

  lemma {:induction false} TimelyThen(from: int, ops: seq<Op>, op: Op)
    requires Timely(from, ops) && Ends(from, ops) <= Clock(op)
    ensures Timely(from, ops + [op]) && Ends(from, ops + [op]) == Clock(op)
    decreases |ops|
  {
    if ops == [] {
      assert [op][1..] == [] && [] + [op] == [op];
    } else {
      TimelyThen(Clock(ops[0]), ops[1..], op);
      assert (ops + [op])[0] == ops[0] && (ops + [op])[1..] == ops[1..] + [op];
    }
  }

  ghost predicate Waiting(s: Tables, k: nat) {
    && |s.verifications| == 1 && s.verifications[0].evidence && s.verifications[0].deletionDueAt == Some(RETENTION) && s.holds == []
    && |s.jobs| == 1 && s.jobs[0].verification == 0 && s.jobs[0].attempts == k && s.jobs[0].maxAttempts == 5
    && (if k == 0 then s.jobs[0].status == JobPending && s.jobs[0].availableAt == RETENTION
        else s.jobs[0].status == JobProcessing && s.jobs[0].lease.Some? && s.jobs[0].lease.value.until == RETENTION + 15 * k)
  }

  lemma RefusedRow()
    ensures Waiting(Run(Start(PROFILES), REFUSAL), 0) && Timely(0, REFUSAL) && Ends(0, REFUSAL) == 0
  {
    var s := Start(PROFILES);
    var s1 := Perform(s, REFUSAL[0]);
    var s2 := Perform(s1, REFUSAL[1]);
    assert |s1.verifications| == 1 && s1.verifications[0].status == PendingReview && s1.jobs == [];
    assert s2.jobs == [Job(0, JobPending, RETENTION, 0, 0, MAX_DELETION_ATTEMPTS, None, 1)];
    assert REFUSAL[1..] == [REFUSAL[1]] && [REFUSAL[1]][1..] == [];
    hide Perform, SubmitStep, ReviewStep;
    assert Run(s1, [REFUSAL[1]]) == Run(s2, []) == s2;
    assert Timely(0, [REFUSAL[1]]) && Ends(0, [REFUSAL[1]]) == 0;
  }

  const SECOND_TRY := [Submit(SubmitRequest(CREATOR, "10001", true, 0)),
                       Review(ReviewRequest(0, "reviewer", true, Reject, true, 0, 0)),
                       Submit(SubmitRequest(CREATOR, "10001", true, 1))]

  lemma ThreeSteps(s: Tables, a: Op, b: Op, c: Op)
    ensures Run(s, [a, b, c]) == Perform(Perform(Perform(s, a), b), c)
    ensures Timely(Clock(a), [a, b, c]) <==> Clock(a) <= Clock(b) <= Clock(c)
  {
    hide Perform, Clock;
    assert [a, b, c][1..] == [b, c] && [b, c][1..] == [c] && [c][1..] == [];
    assert Run(Perform(s, a), [b, c]) == Run(Perform(Perform(s, a), b), [c]);
    assert Run(Perform(Perform(s, a), b), [c]) == Run(Perform(Perform(Perform(s, a), b), c), []);
    assert Timely(Clock(b), [c]) <==> Clock(b) <= Clock(c);
    assert Timely(Clock(a), [b, c]) <==> Clock(a) <= Clock(b) <= Clock(c);
  }

  const PENDING := Verification(CREATOR, PendingReview, "10001", None, None, None, None, None, true, 1)

  const REJECTED := Reviewed(PENDING, ReviewRequest(0, "reviewer", true, Reject, true, 0, 0))

  lemma SecondTry()
    ensures Timely(0, SECOND_TRY) && Run(Start(PROFILES), SECOND_TRY).verifications == [REJECTED, PENDING]
  {
    var s := Start(PROFILES);
    var s1 := Perform(s, SECOND_TRY[0]);
    assert s1.verifications == [PENDING];
    var s2 := Perform(s1, SECOND_TRY[1]);
    assert s2.verifications == [REJECTED] && s2.profiles.Keys == {CREATOR};
    var s3 := Perform(s2, SECOND_TRY[2]);
    assert s3.verifications == [REJECTED, PENDING];
    hide Perform;
    ThreeSteps(s, SECOND_TRY[0], SECOND_TRY[1], SECOND_TRY[2]);
    assert SECOND_TRY == [SECOND_TRY[0], SECOND_TRY[1], SECOND_TRY[2]];
  }

  const DECISION := ReviewRequest(1, "reviewer", true, Reject, true, 0, 2)

  lemma Deciding(s: Tables)
    requires s.verifications == [REJECTED, PENDING]
    ensures Perform(s, Review(DECISION)).verifications == [REJECTED, Reviewed(PENDING, DECISION)]
  {
    hide UpsertJob, ClearUnlessCurrent;
  }

  /** A creator who submits again after a rejection cannot appeal against it, although the appeal is in time, until the
      second submission has been decided; then the same appeal goes through. */
  lemma TimelyAppealCanBeRefused()
    ensures Unverified(PROFILES) && Timely(0, SECOND_TRY)
    ensures var s, appeal := Run(Start(PROFILES), SECOND_TRY), AppealRequest(0, CREATOR, 2);
            var decided := Perform(s, Review(DECISION));
            && InTime(s, appeal) && Blocks(s, 1, 0) && AppealStep(s, appeal) == RollsBack(ConstraintViolated)
            && InTime(decided, appeal) && AppealStep(decided, appeal).Commits?
  {
    var s, appeal := Run(Start(PROFILES), SECOND_TRY), AppealRequest(0, CREATOR, 2);
    SecondTry();
    Deciding(s);
    hide Perform, Run, AppealStep, Timely;
    assert Blocks(s, 1, 0);
    AppealMeetsTheIndex(s, appeal);
    AppealMeetsTheIndex(Perform(s, Review(DECISION)), appeal);
  }

  lemma AttemptLapses(s: Tables, k: nat)
    requires Waiting(s, k) && k < 5
    ensures Waiting(Perform(s, Attempt(k)), k + 1)
  {
    var now := RETENTION + 15 * k;
    assert DeletionDue(s, s.jobs[0], now);
    assert NextDeletion(s, 0, {}, now) == None;
    assert NextDeletion(s, 1, {}, now) == Some(0);
  }

  lemma {:induction false} CrashingWorkers(k: nat) returns (ops: seq<Op>)
    requires k <= 5
    ensures Waiting(Run(Start(PROFILES), ops), k) && Timely(0, ops) && Ends(0, ops) <= RETENTION + 15 * k
  {
    hide Waiting, Perform, Timely, Ends;
    if k == 0 {
      RefusedRow();
      ops := REFUSAL;
    } else {
      var before := CrashingWorkers(k - 1);
      ops := before + [Attempt(k - 1)];
      RunsThen(Start(PROFILES), before, Attempt(k - 1));
      TimelyThen(0, before, Attempt(k - 1));
      AttemptLapses(Run(Start(PROFILES), before), k - 1);
    }
  }

  /** Five workers that crash in turn leave a job stuck with its evidence undeleted, so whatever comes after, the evidence
      stays and no claim succeeds while that job is first in line. */
  lemma DeletionCanGetStuck() returns (ops: seq<Op>)
    ensures Timely(0, ops)
    ensures var s, now := Run(Start(PROFILES), ops), RETENTION + 75;
            && Invariant(s, now) && Ends(0, ops) <= now && Stuck(s, 0, now)
            && s.verifications[0].evidence && s.jobs[0].verification == 0
            && NextDeletion(s, |s.jobs|, {}, now) == Some(0)
  {
    ops := CrashingWorkers(5);
    hide Perform, Invariant;
    RunHolds(PROFILES, 0, ops, RETENTION + 75);
    var s, now := Run(Start(PROFILES), ops), RETENTION + 75;
    assert DeletionDue(s, s.jobs[0], now);
    assert NextDeletion(s, 0, {}, now) == None;
    assert NextDeletion(s, 1, {}, now) == Some(0);
  }
}
