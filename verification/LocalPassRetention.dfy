/** How long Local Pass keeps its customers' contacts. */
module LocalPassRetention {
  import opened Wrappers
  import opened PassTables
  import opened PassChallenges
  import opened PassClaims
  import opened LocalPass
  import opened LocalPassResults

  /** A claim has a date for its customer exactly once it has ended, a redemption's at least 360 days later. */
  ghost predicate ClaimsDated(claims: map<Id, Claim>, redemptions: map<Id, Redemption>) {
    && (forall c :: c in claims ==> (claims[c].status == ClaimActive <==> claims[c].customerUntil.None?))
    && (forall c :: c in redemptions && c in claims && claims[c].customerUntil.Some? ==>
          redemptions[c].at + 360 * DAY <= claims[c].customerUntil.value)
  }

  /** The contacts in a claim's challenges are kept at least as long as the claim's customer. */
  predicate Outlasts(challenge: Challenge, claims: map<Id, Claim>) {
    challenge.target.claimId.Some? ==>
      var c := challenge.target.claimId.value;
      c in claims && (claims[c].customerUntil.Some? ==> claims[c].customerUntil.value <= challenge.linkageUntil)
  }

  ghost predicate ContactsOutlast(challenges: map<Id, Challenge>, claims: map<Id, Claim>) {
    forall id :: id in challenges ==> Outlasts(challenges[id], claims)
  }

  ghost predicate RetentionHolds(s: Tables) {
    ClaimsDated(s.claims, s.redemptions) && ContactsOutlast(s.challenges, s.claims)
  }

  // ----- one table at a time

  /** The same rows for the same targets, none kept for less time. */
  ghost predicate NotShortened(before: map<Id, Challenge>, after: map<Id, Challenge>) {
    forall id :: id in after ==> id in before && after[id].target == before[id].target && before[id].linkageUntil <= after[id].linkageUntil
  }

  lemma NotShortenedOutlasts(before: map<Id, Challenge>, after: map<Id, Challenge>, claims: map<Id, Claim>)
    requires ContactsOutlast(before, claims) && NotShortened(before, after)
    ensures ContactsOutlast(after, claims)
  {
    forall id | id in after ensures Outlasts(after[id], claims) {
      assert Outlasts(before[id], claims);
    }
  }

  lemma ConsumingShortensNothing(challenges: map<Id, Challenge>, id: Id)
    requires id in challenges
    ensures NotShortened(challenges, Consume(challenges, id))
  {
  }

  lemma EndingOutlasts(challenges: map<Id, Challenge>, claims: map<Id, Claim>, c: Id, claim: Claim, customer: Option<string>, until: int)
    requires ContactsOutlast(challenges, claims) && c in claims && claim.customerUntil == Some(until)
    ensures ContactsOutlast(KeepContacts(challenges, c, customer, until), claims[c := claim])
  {
    var after := KeepContacts(challenges, c, customer, until);
    forall id | id in after ensures Outlasts(after[id], claims[c := claim]) {
      assert Outlasts(challenges[id], claims);
    }
  }

  lemma NewClaimOutlasts(challenges: map<Id, Challenge>, claims: map<Id, Claim>, c: Id, claim: Claim)
    requires ContactsOutlast(challenges, claims) && claim.customerUntil.None?
    ensures ContactsOutlast(challenges, claims[c := claim])
  {
    forall id | id in challenges ensures Outlasts(challenges[id], claims[c := claim]) {
      assert Outlasts(challenges[id], claims);
    }
  }

  // ----- every step

  lemma IssueKeepsRetention(s: Tables, req: IssueRequest)
    requires RetentionHolds(s)
    ensures RetentionHolds(After(s, IssueStep(s, req)))
  {
    hide TooSoon, Load;
    var after := After(s, IssueStep(s, req)).challenges;
    forall id | id in after ensures Outlasts(after[id], s.claims) {
      assert id in s.challenges ==> Outlasts(s.challenges[id], s.claims);
    }
  }

  lemma ChangingStatusShortensNothing(challenges: map<Id, Challenge>, id: Id, row: Challenge)
    requires id in challenges && row == challenges[id].(status := row.status, attempts := row.attempts)
    ensures NotShortened(challenges, challenges[id := row])
  {
  }

  lemma VerifyKeepsRetention(s: Tables, req: VerifyRequest)
    requires RetentionHolds(s)
    ensures RetentionHolds(After(s, VerifyStep(s, req)))
  {
    hide ClaimsDated, ContactsOutlast, NotShortened, VerifyStep;
    VerifyTriesOneRow(s, req);
    var step := VerifyStep(s, req);
    if step.Commits? && step.tables != s {
      ChangingStatusShortensNothing(s.challenges, req.publicId, step.tables.challenges[req.publicId]);
      NotShortenedOutlasts(s.challenges, step.tables.challenges, s.claims);
    }
  }

  lemma ClaimKeepsRetention(s: Tables, req: ClaimRequest)
    requires RetentionHolds(s) && Invariant(s)
    ensures RetentionHolds(After(s, ClaimStep(s, req)))
  {
    hide ContactsOutlast, AttributionTaken, RotationTaken, InventoryHolds, TokensHold, ChallengesHold, Consume;
    var step := ClaimStep(s, req);
    if step.Commits? {
      ConsumingShortensNothing(s.challenges, req.challengeId);
      NotShortenedOutlasts(s.challenges, step.tables.challenges, s.claims);
      NewClaimOutlasts(step.tables.challenges, s.claims, req.publicId, step.value);
    }
  }

  lemma RedeemKeepsRetention(s: Tables, req: RedeemRequest)
    requires RetentionHolds(s)
    ensures RetentionHolds(After(s, RedeemStep(s, req)))
  {
    hide ContactsOutlast, HasOpenIncident, TokenUsed, FulfillmentMatches, KeepContacts, Consume;
    var step := RedeemStep(s, req);
    if step.Commits? {
      var c, accepted := s.tokens[req.token].claimId, req.kind == CustomerAcceptedSubstitute;
      var challenges := if accepted then Consume(s.challenges, req.acceptanceId) else s.challenges;
      if accepted {
        ConsumingShortensNothing(s.challenges, req.acceptanceId);
        NotShortenedOutlasts(s.challenges, challenges, s.claims);
      }
      EndingOutlasts(challenges, s.claims, c, step.tables.claims[c], s.claims[c].customer, Date(req.now) + req.year);
    }
  }

  lemma ExpireKeepsRetention(s: Tables, req: ExpireRequest)
    requires RetentionHolds(s) && Invariant(s)
    ensures RetentionHolds(After(s, ExpireStep(s, req)))
  {
    hide ContactsOutlast, SetActive, KeepContacts, InventoryHolds, TokensHold, ChallengesHold;
    var step := ExpireStep(s, req);
    if step.Commits? {
      EndingOutlasts(s.challenges, s.claims, req.claimId, step.value, s.claims[req.claimId].customer, Date(req.now) + req.year);
    }
  }

  lemma PurgeKeepsRetention(s: Tables, now: int)
    requires RetentionHolds(s)
    ensures RetentionHolds(After(s, PurgeStep(s, now)))
  {
    var after := After(s, PurgeStep(s, now));
    forall id | id in after.challenges ensures Outlasts(after.challenges[id], after.claims) {
      assert Outlasts(s.challenges[id], s.claims);
    }
  }

  lemma ConsumersKeepRetention(s: Tables, op: Op)
    requires RetentionHolds(s) && (op.RecoverPass? || op.ReportProblem? || op.ViewStatus?)
    ensures RetentionHolds(Perform(s, op))
  {
    hide ClaimsDated, ContactsOutlast, SetActive, RotationTaken, ReturnedRotation, HasOpenIncident, Consume;
    var id := if op.RecoverPass? then op.recover.challengeId else if op.ReportProblem? then op.report.challengeId else op.view.challengeId;
    if id in s.challenges {
      ConsumingShortensNothing(s.challenges, id);
      NotShortenedOutlasts(s.challenges, Consume(s.challenges, id), s.claims);
    }
  }

  lemma StepKeepsRetention(s: Tables, op: Op)
    requires RetentionHolds(s) && Invariant(s)
    ensures RetentionHolds(Perform(s, op))
  {
    hide RetentionHolds, Invariant, IssueStep, VerifyStep, ClaimStep, RecoverStep, RedeemStep, ExpireStep, PurgeStep, ReportStep, CustomerStatusStep,
         PauseOffers;
    match op
    case IssueChallenge(req) => IssueKeepsRetention(s, req);
    case VerifyChallenge(req) => VerifyKeepsRetention(s, req);
    case ClaimPass(req) => ClaimKeepsRetention(s, req);
    case RedeemPass(req) => RedeemKeepsRetention(s, req);
    case ExpireClaim(req) => ExpireKeepsRetention(s, req);
    case PurgeData(now) => PurgeKeepsRetention(s, now);
    case RecoverPass(_) => ConsumersKeepRetention(s, op);
    case ReportProblem(_) => ConsumersKeepRetention(s, op);
    case ViewStatus(_) => ConsumersKeepRetention(s, op);
    case _ => OfferStepsKeepRetention(s, op);
  }

  lemma OfferStepsKeepRetention(s: Tables, op: Op)
    requires RetentionHolds(s)
    requires op.ConfigureOffer? || op.ActivateOffer? || op.PauseFutureClaims? || op.IssueCreatorLink? || op.ReviewProblem?
    ensures RetentionHolds(Perform(s, op))
  {
    hide ClaimsDated, ContactsOutlast, PauseOffers;
  }

  lemma {:induction false} RunKeepsRetention(s: Tables, ops: seq<Op>)
    requires RetentionHolds(s) && Invariant(s)
    ensures RetentionHolds(Run(s, ops))
    decreases |ops|
  {
    hide RetentionHolds, Invariant, Perform;
    if ops != [] {
      StepKeepsRetention(s, ops[0]);
      StepKeepsInvariant(s, ops[0]);
      RunKeepsRetention(Perform(s, ops[0]), ops[1..]);
    }
  }

  lemma ReachableRetains(s: Tables)
    requires Reachable(s)
    ensures RetentionHolds(s) && Invariant(s)
  {
    hide Invariant, Perform;
    var ops :| s == Run(EMPTY_TABLES, ops);
    EmptyHolds();
    ReachableHolds(s);
    RunKeepsRetention(EMPTY_TABLES, ops);
  }

  // ----- what a purge forgets

  /** In every reachable state a purge leaves a running claim as it is, forgets an ended claim's customer exactly when its date
      has passed, and forgets the contact of none of its challenges without its customer. */
  lemma PurgeForgetsExactlyWhatIsDue(s: Tables, now: int, c: Id)
    requires Reachable(s) && c in s.claims
    ensures var after := PurgeStep(s, now).tables;
            && c in after.claims
            && (s.claims[c].status == ClaimActive ==> after.claims[c] == s.claims[c])
            && (s.claims[c].status != ClaimActive ==> s.claims[c].customerUntil.Some?)
            && (s.claims[c].status != ClaimActive && s.claims[c].customer.Some? ==>
                  (after.claims[c].customer.None? <==> s.claims[c].customerUntil.value <= now))
            && (s.claims[c].status != ClaimActive ==>
                  forall id :: id in s.challenges && s.challenges[id].target.claimId == Some(c) ==>
                    (s.challenges[id].destination.Some? && after.challenges[id].destination.None? ==> after.claims[c].customer.None?))
  {
    hide Invariant, Reachable;
    ReachableRetains(s);
    forall id | id in s.challenges && s.challenges[id].target.claimId == Some(c) ensures Outlasts(s.challenges[id], s.claims) {
    }
  }

  // ----- over runs

  predicate NoPurgeFrom(date: int, ops: seq<Op>) {
    forall i :: 0 <= i < |ops| && ops[i].PurgeData? ==> ops[i].purgedAt < date
  }

  /** The claim is redeemed, and its customer may not be forgotten before the redemption is 360 days old. */
  ghost predicate Remembered(s: Tables, c: Id) {
    c in s.redemptions && c in s.claims && s.claims[c].status == ClaimRedeemed && s.claims[c].customerUntil.Some?
    && s.redemptions[c].at + 360 * DAY <= s.claims[c].customerUntil.value
  }

  lemma RedeemedIsRemembered(s: Tables, c: Id)
    requires Reachable(s) && c in s.redemptions
    ensures Remembered(s, c)
  {
    hide InventoryHolds, TokensHold, ChallengesHold, ContactsOutlast, Reachable;
    ReachableRetains(s);
  }

  lemma ClaimStepsKeepCustomer(s: Tables, op: Op, c: Id)
    requires Remembered(s, c) && TouchesClaims(op) && (op.PurgeData? ==> op.purgedAt < s.redemptions[c].at + 360 * DAY)
    ensures var after := Perform(s, op); c in after.claims && after.claims[c].customer == s.claims[c].customer
  {
    hide HasOpenIncident, FulfillmentMatches, TokenUsed, AttributionTaken, RotationTaken, KeepContacts, SetActive, Consume, ForgetContacts, VerifyStep,
         IssueStep, RecoverStep, ReportStep, ReviewStep;
  }

  lemma StepKeepsCustomer(s: Tables, op: Op, c: Id)
    requires Remembered(s, c) && (op.PurgeData? ==> op.purgedAt < s.redemptions[c].at + 360 * DAY)
    ensures var after := Perform(s, op); c in after.claims && after.claims[c].customer == s.claims[c].customer
  {
    hide Perform;
    if TouchesClaims(op) {
      ClaimStepsKeepCustomer(s, op, c);
    } else {
      OtherStepsLeaveClaims(s, op);
    }
  }

  /** Whatever happens after a redemption, its customer stays known until a purge runs at least 360 days later. */
  lemma {:induction false} RedeemedCustomerIsKept(s: Tables, ops: seq<Op>, c: Id)
    requires Reachable(s) && c in s.redemptions && NoPurgeFrom(s.redemptions[c].at + 360 * DAY, ops)
    ensures c in s.claims && c in Run(s, ops).claims && Run(s, ops).claims[c].customer == s.claims[c].customer
    decreases |ops|
  {
    RedeemedIsRemembered(s, c);
    if ops != [] {
      var rest := ops[1..];
      assert forall i :: 0 <= i < |rest| ==> rest[i] == ops[i + 1];
      hide Perform, Reachable;
      assert Run(s, [ops[0]]) == Perform(s, ops[0]) by { assert [ops[0]][1..] == []; }
      RunsStayReachable(s, [ops[0]]);
      StepKeepsRedemption(s, ops[0], c);
      StepKeepsCustomer(s, ops[0], c);
      RedeemedCustomerIsKept(Perform(s, ops[0]), rest, c);
    }
  }
}
