/** When an open dispute can still be resolved, and when it is stranded. */
module DisputeOutcomes {
  import opened MarketTables
  import opened CheckIns
  import opened Submissions
  import opened Disputes
  import LedgerConservation
  import CampaignContracts
  import opened MissionLockstep
  import opened Market
  import opened MarketHistory
  import opened MarketResults

  /** A dispute's attempt is there, and disputed as long as the dispute is open. */
  predicate DisputeFollows(dispute: Dispute, attempts: seq<Submission>) {
    dispute.attempt < |attempts| && (dispute.status == DisputeOpen ==> attempts[dispute.attempt].status == Disputed)
  }

  ghost predicate DisputesFollow(submissions: map<Id, seq<Submission>>, disputes: map<Id, Dispute>) {
    forall a :: a in disputes ==> a in submissions && DisputeFollows(disputes[a], submissions[a])
  }

  // ----- every run keeps disputes and attempts together

  lemma ApproveKeepsDisputes(t: Tables, a: Id, attempt: nat, status: SubmissionStatus, decisionId: Id)
    requires DisputesFollow(t.submissions, t.disputes) && AttemptExists(t.submissions, a, attempt)
    requires t.submissions[a][attempt].status == UnderReview
    ensures var after := TablesAfter(t, ApproveStep(t, a, attempt, status, decisionId)); DisputesFollow(after.submissions, after.disputes)
  {
    hide MoveSlot, MoveApplication, MoveAssignment;
  }

  lemma ReviewKeepsDisputes(t: Tables, req: ReviewRequest)
    requires DisputesFollow(t.submissions, t.disputes)
    ensures var after := TablesAfter(t, ReviewStep(t, req)); DisputesFollow(after.submissions, after.disputes)
  {
    hide ApproveStep;
    if AttemptJoins(t, req.applicationId, req.attempt) && t.submissions[req.applicationId][req.attempt].status == UnderReview {
      ApproveKeepsDisputes(t, req.applicationId, req.attempt, ReviewApproved, req.decisionId);
    }
  }

  lemma AutoApproveKeepsDisputes(t: Tables, req: AutoApproveRequest)
    requires DisputesFollow(t.submissions, t.disputes)
    ensures var after := TablesAfter(t, AutoApproveStep(t, req)); DisputesFollow(after.submissions, after.disputes)
  {
    hide ApproveStep;
    if AttemptJoins(t, req.applicationId, req.attempt) && t.submissions[req.applicationId][req.attempt].status == UnderReview {
      ApproveKeepsDisputes(t, req.applicationId, req.attempt, AutoApproved, req.decisionId);
    }
  }

  lemma SubmitKeepsDisputes(t: Tables, req: SubmitRequest)
    requires DisputesFollow(t.submissions, t.disputes)
    ensures var after := TablesAfter(t, SubmitStep(t, req)); DisputesFollow(after.submissions, after.disputes)
  {
  }

  lemma OpenKeepsDisputes(t: Tables, req: OpenRequest)
    requires DisputesFollow(t.submissions, t.disputes)
    ensures var after := TablesAfter(t, OpenStep(t, req)); DisputesFollow(after.submissions, after.disputes)
  {
  }

  lemma ResolveKeepsDisputes(t: Tables, req: ResolveRequest)
    requires DisputesFollow(t.submissions, t.disputes)
    ensures var after := TablesAfter(t, ResolveStep(t, req)); DisputesFollow(after.submissions, after.disputes)
  {
    hide MoveSlot, MoveApplication, MoveAssignment;
  }

  lemma ScheduleLeavesSubmissions(t: Tables, req: ScheduleRequest)
    ensures var after := TablesAfter(t, ScheduleStep(t, req)); after.submissions == t.submissions && after.disputes == t.disputes
  {
  }

  lemma ConsumeLeavesSubmissions(t: Tables, req: ConsumeRequest)
    ensures var after := TablesAfter(t, ConsumeStep(t, req)); after.submissions == t.submissions && after.disputes == t.disputes
  {
  }

  lemma StepElsewhere(t: Tables, op: Op)
    requires Elsewhere(op)
    ensures SameMissions(Perform(t, op), t)
  {
    hide Perform;
    StepExtends(t, op);
  }

  lemma MissionStepKeepsDisputes(t: Tables, op: Op)
    requires DisputesFollow(t.submissions, t.disputes) && !Elsewhere(op)
    ensures DisputesFollow(Perform(t, op).submissions, Perform(t, op).disputes)
  {
    hide DisputesFollow, SubmitStep, ReviewStep, AutoApproveStep, OpenStep, ResolveStep, ScheduleStep, ConsumeStep;
    match op
    case Submit(req) => SubmitKeepsDisputes(t, req);
    case Review(req) => ReviewKeepsDisputes(t, req);
    case AutoApprove(req) => AutoApproveKeepsDisputes(t, req);
    case OpenDispute(req) => OpenKeepsDisputes(t, req);
    case ResolveDispute(req) => ResolveKeepsDisputes(t, req);
    case Schedule(req) => ScheduleLeavesSubmissions(t, req);
    case ConsumeChallenge(req) => ConsumeLeavesSubmissions(t, req);
  }

  lemma StepKeepsDisputes(t: Tables, op: Op)
    requires DisputesFollow(t.submissions, t.disputes)
    ensures DisputesFollow(Perform(t, op).submissions, Perform(t, op).disputes)
  {
    hide DisputesFollow, Perform;
    if Elsewhere(op) {
      StepElsewhere(t, op);
    } else {
      MissionStepKeepsDisputes(t, op);
    }
  }

  lemma {:induction false} RunKeepsDisputes(t: Tables, ops: seq<Op>)
    requires DisputesFollow(t.submissions, t.disputes)
    ensures DisputesFollow(Run(t, ops).submissions, Run(t, ops).disputes)
    decreases |ops|
  {
    hide DisputesFollow, Perform;
    if ops != [] {
      StepKeepsDisputes(t, ops[0]);
      RunKeepsDisputes(Perform(t, ops[0]), ops[1..]);
    }
  }

  lemma ReachableDisputesFollow(t: Tables)
    requires Reachable(t)
    ensures DisputesFollow(t.submissions, t.disputes) && MissionsHold(t)
  {
    hide MissionsHold, LedgerConservation.LedgerHolds, CampaignContracts.ContractsHold, Perform;
    var ops :| t == Run(EMPTY_TABLES, ops);
    RunKeepsDisputes(EMPTY_TABLES, ops);
    ReachableHolds(t);
  }

  // ----- an open dispute and its mission

  predicate Open(t: Tables, a: Id) {
    a in t.disputes && t.disputes[a].status == DisputeOpen
  }

  predicate MissionRuns(t: Tables, a: Id) {
    a in t.assignments && t.assignments[a].status == CheckedIn
  }

  /** Some resolution of the dispute commits. */
  ghost predicate CanResolve(t: Tables, a: Id) {
    exists req: ResolveRequest :: req.applicationId == a && ResolveStep(t, req).Committed?
  }

  lemma ResolutionNeedsItsGuards(t: Tables, a: Id)
    requires CanResolve(t, a)
    ensures DisputeJoins(t, a) && Resolvable(t, a)
  {
    hide EndMission;
  }

  /** An independent reviewer with a new resolution id is admitted as soon as the rows are ready. */
  lemma SomeResolutionCommits(t: Tables, a: Id)
    requires DisputeJoins(t, a) && Resolvable(t, a) && a !in t.intents
    ensures CanResolve(t, a)
  {
    var actorId := UnusedId({t.assignments[a].creatorId, t.disputes[a].openedBy});
    var resolutionId := UnusedDecisionId(t.intents);
    var req := ResolveRequest(a, "Met", actorId, true, false, EarnedFull, resolutionId);
    assert !NoText("Met") by { assert 'M' == "Met"[0] && 'M' in "Met"; }
    hide EndMission, NoText;
    assert req.applicationId == a && ResolveStep(t, req).Committed?;
  }

  /** Some decision id is new. */
  lemma UnusedDecisionId(intents: map<Id, Intent>) returns (decisionId: Id)
    ensures forall a :: a in intents ==> intents[a].publicId != "fin_" + decisionId
  {
    decisionId := UnusedId(set a | a in intents :: intents[a].publicId);
  }

  lemma RunningMissionIsReady(t: Tables, a: Id)
    requires MissionsHold(t) && MissionRuns(t, a)
    ensures ReadyToEnd(t, a) && t.applications[a].campaignId in t.campaigns && a !in t.intents
  {
    hide OneHolderEach, TakenSlotsAreHeld;
    assert Mirrors(t.assignments[a], t.applications[a], t.reservations[a]);
    assert InStep(t.campaigns, t.contracts, t.applications[a], t.reservations[a]);
  }

  /** An open dispute can be resolved exactly as long as its mission is still checked in. */
  lemma OpenDisputeIsResolvableExactlyWhen(t: Tables, a: Id)
    requires Reachable(t) && Open(t, a)
    ensures CanResolve(t, a) <==> MissionRuns(t, a)
  {
    hide MissionsHold, CanResolve;
    ReachableDisputesFollow(t);
    if MissionRuns(t, a) {
      RunningMissionIsReady(t, a);
      SomeResolutionCommits(t, a);
    } else if CanResolve(t, a) {
      ResolutionNeedsItsGuards(t, a);
    }
  }

  // ----- what one step can do to a mission and its dispute

  predicate UnderReviewSomewhere(submissions: map<Id, seq<Submission>>, a: Id) {
    a in submissions && exists k :: 0 <= k < |submissions[a]| && submissions[a][k].status == UnderReview
  }

  /** A mission starts by a check-in and ends by approving an attempt under review or resolving its dispute; a disputed mission gets no
      new attempts to review. */
  ghost predicate Follows(after: Tables, before: Tables, a: Id) {
    && (a in before.assignments ==>
          a in after.assignments
          && (|| after.assignments[a].status == before.assignments[a].status
              || (before.assignments[a].status == Scheduled && after.assignments[a].status == CheckedIn)
              || (MissionRuns(before, a) && (UnderReviewSomewhere(before.submissions, a) || !Open(after, a)))))
    && (a in before.disputes ==>
          a in after.disputes
          && (after.disputes[a].status == before.disputes[a].status || (MissionRuns(before, a) && !Open(after, a)))
          && (Open(before, a) && UnderReviewSomewhere(after.submissions, a) ==> UnderReviewSomewhere(before.submissions, a)))
  }

  lemma ApproveFollows(t: Tables, b: Id, attempt: nat, status: SubmissionStatus, decisionId: Id, a: Id)
    requires AttemptExists(t.submissions, b, attempt) && t.submissions[b][attempt].status == UnderReview
    requires status in {ReviewApproved, AutoApproved}
    ensures Follows(TablesAfter(t, ApproveStep(t, b, attempt, status, decisionId)), t, a)
  {
    hide MoveSlot, MoveApplication;
    assert UnderReviewSomewhere(t.submissions, b);
  }

  lemma CorrectFollows(t: Tables, req: ReviewRequest, a: Id)
    requires AttemptExists(t.submissions, req.applicationId, req.attempt)
    ensures Follows(TablesAfter(t, CorrectStep(t, req)), t, a)
  {
    var step := CorrectStep(t, req);
    if step.Committed? && UnderReviewSomewhere(step.tables.submissions, a) {
      var k :| 0 <= k < |step.tables.submissions[a]| && step.tables.submissions[a][k].status == UnderReview;
      assert t.submissions[a][k].status == UnderReview;
    }
    hide UnderReviewSomewhere;
  }

  lemma ReviewFollows(t: Tables, req: ReviewRequest, a: Id)
    ensures Follows(TablesAfter(t, ReviewStep(t, req)), t, a)
  {
    hide ApproveStep, CorrectStep;
    if AttemptJoins(t, req.applicationId, req.attempt) && t.submissions[req.applicationId][req.attempt].status == UnderReview {
      ApproveFollows(t, req.applicationId, req.attempt, ReviewApproved, req.decisionId, a);
      CorrectFollows(t, req, a);
    }
  }

  lemma AutoApproveFollows(t: Tables, req: AutoApproveRequest, a: Id)
    ensures Follows(TablesAfter(t, AutoApproveStep(t, req)), t, a)
  {
    hide ApproveStep;
    if AttemptJoins(t, req.applicationId, req.attempt) && t.submissions[req.applicationId][req.attempt].status == UnderReview {
      ApproveFollows(t, req.applicationId, req.attempt, AutoApproved, req.decisionId, a);
    }
  }

  lemma SubmitFollows(t: Tables, req: SubmitRequest, a: Id)
    requires DisputesFollow(t.submissions, t.disputes)
    ensures Follows(TablesAfter(t, SubmitStep(t, req)), t, a)
  {
    if a in t.disputes && req.applicationId == a {
      assert DisputeFollows(t.disputes[a], t.submissions[a]);
    }
  }

  lemma OpenFollows(t: Tables, req: OpenRequest, a: Id)
    ensures Follows(TablesAfter(t, OpenStep(t, req)), t, a)
  {
  }

  lemma ResolveFollows(t: Tables, req: ResolveRequest, a: Id)
    ensures Follows(TablesAfter(t, ResolveStep(t, req)), t, a)
  {
    hide MoveSlot, MoveApplication;
  }

  lemma ScheduleFollows(t: Tables, req: ScheduleRequest, a: Id)
    ensures Follows(TablesAfter(t, ScheduleStep(t, req)), t, a)
  {
    hide UnderReviewSomewhere;
  }

  lemma ConsumeFollows(t: Tables, req: ConsumeRequest, a: Id)
    ensures Follows(TablesAfter(t, ConsumeStep(t, req)), t, a)
  {
    hide UnderReviewSomewhere;
  }

  lemma ElsewhereFollows(after: Tables, before: Tables, a: Id)
    requires SameMissions(after, before)
    ensures Follows(after, before, a)
  {
    hide UnderReviewSomewhere;
  }

  lemma StepFollows(t: Tables, op: Op, a: Id)
    requires DisputesFollow(t.submissions, t.disputes)
    ensures Follows(Perform(t, op), t, a)
  {
    hide DisputesFollow, Follows, SameMissions, SubmitStep, ReviewStep, AutoApproveStep, OpenStep, ResolveStep, ScheduleStep, ConsumeStep;
    match op
    case Submit(req) => SubmitFollows(t, req, a);
    case Review(req) => ReviewFollows(t, req, a);
    case AutoApprove(req) => AutoApproveFollows(t, req, a);
    case OpenDispute(req) => OpenFollows(t, req, a);
    case ResolveDispute(req) => ResolveFollows(t, req, a);
    case Schedule(req) => ScheduleFollows(t, req, a);
    case ConsumeChallenge(req) => ConsumeFollows(t, req, a);
    case _ =>
      StepElsewhere(t, op);
      ElsewhereFollows(Perform(t, op), t, a);
  }

  // ----- disputes that stay resolvable, and disputes that never will be

  /** The dispute is closed, or its mission runs and no attempt of it can still be approved. */
  predicate Settled(t: Tables, a: Id) {
    a in t.disputes && (Open(t, a) ==> MissionRuns(t, a) && !UnderReviewSomewhere(t.submissions, a))
  }

  predicate Stranded(t: Tables, a: Id) {
    Open(t, a) && a in t.assignments && Ended(t.assignments[a].status)
  }

  lemma {:induction false} SettledStaysSettled(t: Tables, a: Id, ops: seq<Op>)
    requires DisputesFollow(t.submissions, t.disputes) && Settled(t, a)
    ensures Settled(Run(t, ops), a)
    decreases |ops|
  {
    hide DisputesFollow, Perform, UnderReviewSomewhere;
    if ops != [] {
      StepFollows(t, ops[0], a);
      StepKeepsDisputes(t, ops[0]);
      SettledStaysSettled(Perform(t, ops[0]), a, ops[1..]);
    }
  }

  /** A stranded dispute stays open, and its reviewer refused, for ever. */
  lemma {:induction false} StrandedForEver(t: Tables, a: Id, ops: seq<Op>)
    requires DisputesFollow(t.submissions, t.disputes) && Stranded(t, a)
    ensures Stranded(Run(t, ops), a) && !CanResolve(Run(t, ops), a)
    decreases |ops|
  {
    hide DisputesFollow, Perform, UnderReviewSomewhere, CanResolve;
    if ops != [] {
      StepFollows(t, ops[0], a);
      StepKeepsDisputes(t, ops[0]);
      StrandedForEver(Perform(t, ops[0]), a, ops[1..]);
    } else if CanResolve(t, a) {
      ResolutionNeedsItsGuards(t, a);
    }
  }

  lemma ApprovalCommits(t: Tables, a: Id, k: nat, decisionId: Id)
    requires AttemptJoins(t, a, k) && ReadyToEnd(t, a) && a !in t.intents && Open(t, a) && t.submissions[a][k].status == UnderReview
    requires forall b :: b in t.intents ==> t.intents[b].publicId != "fin_" + decisionId
    ensures Stranded(TablesAfter(t, AutoApproveStep(t, AutoApproveRequest(a, k, t.submissions[a][k].reviewDeadline, decisionId))), a)
  {
    hide MoveSlot, MoveApplication;
  }

  lemma ApprovalStrands(t: Tables, a: Id, k: nat) returns (op: Op)
    requires MissionsHold(t) && Open(t, a) && MissionRuns(t, a) && AttemptExists(t.submissions, a, k)
    requires t.submissions[a][k].status == UnderReview
    ensures Stranded(Perform(t, op), a)
  {
    hide MissionsHold, AutoApproveStep;
    RunningMissionIsReady(t, a);
    var decisionId := UnusedDecisionId(t.intents);
    op := AutoApprove(AutoApproveRequest(a, k, t.submissions[a][k].reviewDeadline, decisionId));
    ApprovalCommits(t, a, k, decisionId);
  }

  lemma SettledAtOpening(t: Tables, a: Id)
    requires Reachable(t) && Open(t, a) && MissionRuns(t, a) && !UnderReviewSomewhere(t.submissions, a)
    ensures forall ops :: Open(Run(t, ops), a) ==> CanResolve(Run(t, ops), a)
  {
    hide MissionsHold, UnderReviewSomewhere, CanResolve, Reachable, DisputesFollow;
    ReachableDisputesFollow(t);
    forall ops | Open(Run(t, ops), a) ensures CanResolve(Run(t, ops), a) {
      SettledStaysSettled(t, a, ops);
      RunsStayReachable(t, ops);
      OpenDisputeIsResolvableExactlyWhen(Run(t, ops), a);
    }
  }

  lemma UnsettledAtOpening(t: Tables, a: Id) returns (ops: seq<Op>)
    requires Reachable(t) && Open(t, a) && (MissionRuns(t, a) ==> UnderReviewSomewhere(t.submissions, a))
    ensures Open(Run(t, ops), a) && !CanResolve(Run(t, ops), a)
  {
    hide MissionsHold, Perform, Reachable, DisputesFollow;
    if MissionRuns(t, a) {
      ReachableDisputesFollow(t);
      var k :| 0 <= k < |t.submissions[a]| && t.submissions[a][k].status == UnderReview;
      var op := ApprovalStrands(t, a, k);
      OneStepRun(t, op);
      ops := [op];
    } else {
      ops := [];
    }
  }

  /** Opening a dispute keeps it resolvable until it is resolved, whatever happens next, exactly when the mission is
      still checked in and no other attempt of it is under review. */
  lemma OpenedDisputeStaysResolvableExactlyWhen(t: Tables, req: OpenRequest)
    requires Reachable(t) && OpenStep(t, req).Committed?
    ensures var disputed, a := OpenStep(t, req).tables, req.applicationId;
            (forall ops :: Open(Run(disputed, ops), a) ==> CanResolve(Run(disputed, ops), a))
            <==> MissionRuns(t, a) && forall k :: 0 <= k < |t.submissions[a]| && k != req.attempt ==> t.submissions[a][k].status != UnderReview
  {
    var disputed, a := OpenStep(t, req).tables, req.applicationId;
    OpenedFacts(t, req);
    hide OpenStep, Perform, CanResolve, Reachable, UnderReviewSomewhere, MissionRuns, Run, Open;
    OneStepRun(t, OpenDispute(req));
    RunsStayReachable(t, [OpenDispute(req)]);
    if MissionRuns(t, a) && !UnderReviewSomewhere(disputed.submissions, a) {
      SettledAtOpening(disputed, a);
    } else {
      var ops := UnsettledAtOpening(disputed, a);
    }
  }

  lemma OpenedFacts(t: Tables, req: OpenRequest)
    requires OpenStep(t, req).Committed?
    ensures var disputed, a := OpenStep(t, req).tables, req.applicationId;
            && Perform(t, OpenDispute(req)) == disputed
            && Open(disputed, a) && a in t.submissions && (MissionRuns(disputed, a) <==> MissionRuns(t, a))
            && (UnderReviewSomewhere(disputed.submissions, a)
                <==> exists k :: 0 <= k < |t.submissions[a]| && k != req.attempt && t.submissions[a][k].status == UnderReview)
            && a in disputed.submissions
  {
    hide NoText, CreatorRefusal;
    var disputed, a := OpenStep(t, req).tables, req.applicationId;
    var before, after := t.submissions[a], disputed.submissions[a];
    assert |after| == |before|;
    assert forall k :: 0 <= k < |before| ==> after[k].status == if k == req.attempt then Disputed else before[k].status;
    if exists k :: 0 <= k < |before| && k != req.attempt && before[k].status == UnderReview {
      var k :| 0 <= k < |before| && k != req.attempt && before[k].status == UnderReview;
      assert after[k].status == UnderReview;
    }
  }
}
