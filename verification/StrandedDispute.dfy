/** A run that strands a dispute: the creator disputes a correction after having sent the corrected attempt,
    and the corrected attempt is then approved. */
module StrandedDispute {
  import opened Wrappers
  import opened MarketTables
  import opened Submissions
  import opened Disputes
  import opened Market
  import MarketResults
  import opened DisputeOutcomes
  import opened SampleMission

  const CORRECTED := Submission(CorrectionRequested, 30 + FORTY_EIGHT_HOURS, Some(40 + FORTY_EIGHT_HOURS), 2)

  lemma CorrectionOf(t: Tables, req: ReviewRequest)
    requires req.applicationId == "a" && req.attempt == 0 && req.correction == Some(true) && req.now == 40
    requires t.submissions == map["a" := [Submission(UnderReview, 30 + FORTY_EIGHT_HOURS, None, 1)]]
    ensures CorrectStep(t, req) == Committed(CORRECTED, t.(submissions := map["a" := [CORRECTED]]))
  {
    var first := t.submissions["a"];
    assert first[0 := first[0].(status := CorrectionRequested, version := 2)][0 := CORRECTED] == [CORRECTED];
  }

  lemma CorrectedMission() returns (t: Tables)
    ensures Reachable(t) && Working(t) && t.submissions == map["a" := [CORRECTED]]
  {
    var before := SubmittedMission();
    var req := ReviewRequest("a", 0, true, 40, RequestCorrection, Some(true), "d");
    CorrectionOf(before, req);
    hide CorrectStep, ApproveStep, Perform, Reachable;
    t := TablesAfter(before, ReviewStep(before, req));
    AfterReviewing(before, req);
  }

  lemma ResubmittedMission() returns (t: Tables)
    ensures Reachable(t) && Working(t)
    ensures t.submissions == map["a" := [CORRECTED, Submission(UnderReview, 50 + FORTY_EIGHT_HOURS, None, 1)]]
  {
    var before := CorrectedMission();
    var resubmit := SubmitRequest("a", "u", 50, true, true);
    assert Attempts(before.submissions, "a") + [Submission(UnderReview, 50 + FORTY_EIGHT_HOURS, None, 1)]
           == [CORRECTED, Submission(UnderReview, 50 + FORTY_EIGHT_HOURS, None, 1)];
    hide Perform, Reachable;
    t := TablesAfter(before, SubmitStep(before, resubmit));
    AfterSubmitting(before, resubmit);
  }

  /** A creator can open a dispute that every reviewer is refused for ever: after opening it here, one further step
      strands it. */
  lemma DisputeCanBeStranded() returns (t: Tables, req: OpenRequest, ops: seq<Op>)
    ensures Reachable(t) && OpenStep(t, req).Committed? && MissionRuns(t, req.applicationId)
    ensures var disputed := OpenStep(t, req).tables;
            DisputeOutcomes.Open(Run(disputed, ops), req.applicationId) && !CanResolve(Run(disputed, ops), req.applicationId)
  {
    t := ResubmittedMission();
    req := OpenRequest("a", 0, CreatorOpener, "u", 60, "Met", true, false, true, true, true);
    assert !NoText("Met") by { assert 'M' == "Met"[0] && 'M' in "Met"; }
    assert AttemptJoins(t, "a", 0);
    assert CreatorRefusal(t.assignments["a"], t.submissions["a"][0], req) == None;
    assert OpenStep(t, req).Committed?;
    OpenedFacts(t, req);
    MarketResults.Then(t, OpenDispute(req));
    hide OpenStep, Perform, CanResolve;
    assert t.submissions["a"][1].status == UnderReview;
    ops := UnsettledAtOpening(OpenStep(t, req).tables, "a");
  }
}
