/** An intent that can never be posted: the public id its journal would get belongs to a journal already. */
module BlockedIntent {
  import opened Wrappers
  import opened MarketTables
  import opened Submissions
  import opened Ledger
  import LedgerConservation
  import MissionLockstep
  import CampaignContracts
  import opened Market
  import opened MarketHistory
  import opened MarketResults
  import opened SampleMission

  /** The intent waits, and some journal has the public id that its posting would insert. */
  predicate Blocked(t: Tables, a: Id) {
    && a in t.intents && t.intents[a].status == PendingLedger
    && TransactionIdTaken(t.journals, "ledger_" + t.intents[a].publicId)
  }

  lemma TakenIdStaysTaken(before: map<Source, Journal>, after: map<Source, Journal>, publicId: Id)
    requires Kept(before, after) && TransactionIdTaken(before, publicId)
    ensures TransactionIdTaken(after, publicId)
  {
  }

  lemma ConsumingLeavesOtherIntents(t: Tables, a: Id, b: Id)
    requires a in t.intents && a != b
    ensures var after := TablesAfter(t, ConsumeIntentStep(t, b)); a in after.intents && after.intents[a] == t.intents[a]
  {
    hide PostingFor, TransactionIdTaken;
  }

  lemma BlockedIsRefused(t: Tables, a: Id)
    requires Reachable(t) && Blocked(t, a)
    ensures ConsumeIntentStep(t, a) == RolledBack(ConstraintViolated) && Perform(t, ConsumeIntent(a)) == t
  {
    hide Reachable, ConsumeIntentStep, TransactionIdTaken;
    PendingIntentPostsExactlyWhen(t, a);
  }

  lemma StaysBlocked(t: Tables, op: Op, a: Id)
    requires Reachable(t) && Blocked(t, a)
    ensures Reachable(Perform(t, op)) && Blocked(Perform(t, op), a) && Perform(t, op).intents[a] == t.intents[a]
  {
    hide Reachable, TransactionIdTaken, ConsumeIntentStep;
    BlockedIsRefused(t, a);
    if op.ConsumeIntent? && op.applicationId != a {
      ConsumingLeavesOtherIntents(t, a, op.applicationId);
    }
    hide Perform;
    Then(t, op);
    StepExtends(t, op);
    TakenIdStaysTaken(t.journals, Perform(t, op).journals, "ledger_" + t.intents[a].publicId);
  }

  /** Once some journal has the public id of a waiting intent's posting, the intent waits for ever: whatever happens next,
      every attempt to post it is refused and nobody is paid for its slot. */
  lemma {:induction false} BlockedForEver(t: Tables, a: Id, ops: seq<Op>)
    requires Reachable(t) && Blocked(t, a)
    ensures var later := Run(t, ops);
            && Blocked(later, a) && later.intents[a] == t.intents[a]
            && ConsumeIntentStep(later, a) == RolledBack(ConstraintViolated) && IntentSource(a) !in later.journals
    decreases |ops|
  {
    hide Perform, Reachable, Blocked, ConsumeIntentStep;
    if ops == [] {
      BlockedIsRefused(t, a);
      WaitingHasNoJournal(t, a);
    } else {
      StaysBlocked(t, ops[0], a);
      BlockedForEver(Perform(t, ops[0]), a, ops[1..]);
    }
  }

  lemma WaitingHasNoJournal(t: Tables, a: Id)
    requires Reachable(t) && Blocked(t, a)
    ensures IntentSource(a) !in t.journals
  {
    hide Reachable, TransactionIdTaken, MissionLockstep.MissionsHold, CampaignContracts.ContractsHold, LedgerConservation.SnapshotsHold,
         LedgerConservation.AccountsHold, LedgerConservation.EntriesHold;
    ReachableHolds(t);
  }

  // ----- a run that gets there

  lemma ApprovalOf(t: Tables, req: ReviewRequest)
    requires Working(t) && t.submissions == map["a" := [Submission(UnderReview, 30 + FORTY_EIGHT_HOURS, None, 1)]]
    requires req == ReviewRequest("a", 0, true, 40, Approve, None, "d")
    ensures var step := ReviewStep(t, req);
            step.Committed? && step.tables.journals == t.journals && step.tables.intents == map["a" := Intent("fin_d", CreatorPayableFull, PendingLedger, 1)]
  {
    assert "fin_" + "d" == "fin_d";
    assert AttemptJoins(t, "a", 0) && t.submissions["a"][0].status == UnderReview && ReadyToEnd(t, "a") && IntentInserts(t.intents, "a", "fin_d");
    hide MoveSlot, MoveApplication, MoveAssignment, MoveSubmission;
  }

  /** From empty tables, a mission is approved whose creator can never be paid: the funding of its own campaign was
      recorded under the public id that the intent's journal would get. */
  lemma IntentCanBeBlocked() returns (t: Tables)
    ensures Reachable(t) && Blocked(t, "a")
    ensures forall ops :: ConsumeIntentStep(Run(t, ops), "a") == RolledBack(ConstraintViolated)
  {
    var before := SubmittedMission();
    var req := ReviewRequest("a", 0, true, 40, Approve, None, "d");
    hide Perform, Reachable, ReviewStep, ConsumeIntentStep;
    ApprovalOf(before, req);
    t := TablesAfter(before, ReviewStep(before, req));
    AfterReviewing(before, req);
    assert "ledger_" + "fin_d" == "ledger_fin_d";
    assert Blocked(t, "a");
    forall ops ensures ConsumeIntentStep(Run(t, ops), "a") == RolledBack(ConstraintViolated) {
      BlockedForEver(t, "a", ops);
    }
  }
}
