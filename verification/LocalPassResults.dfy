/** What holds in every state that a run of Local Pass can reach. */
module LocalPassResults {
  import opened Wrappers
  import opened PassTables
  import opened PassChallenges
  import opened PassClaims
  import opened LocalPass

  /** Committed quantity is active plus redeemed claims, redeemed quantity is redeemed claims, and nothing is
      oversold. */
  lemma InventoryCountsClaims(s: Tables, o: Id)
    requires Reachable(s) && o in s.offers
    ensures s.offers[o].committed == |Committing(s.claims, o)|
    ensures s.offers[o].redeemed == |Redeeming(s.claims, o)|
    ensures 0 <= s.offers[o].redeemed <= s.offers[o].committed <= s.offers[o].total
  {
    hide TokensHold, RedemptionsHold, ChallengesHold, Committing, Redeeming;
    ReachableHolds(s);
    assert Counted(s.offers[o], s.claims, o);
    RedeemedAreCommitted(s.claims, o);
  }

  /** Redeeming or expiring an active claim never meets the CHECK constraint on the inventory. */
  lemma InventoryConstraintNeverFires(s: Tables, c: Id)
    requires Reachable(s) && c in s.claims && s.claims[c].status == ClaimActive
    ensures s.claims[c].offerId in s.offers
    ensures var offer := s.offers[s.claims[c].offerId];
            InventoryChecks(offer.(redeemed := offer.redeemed + 1)) && InventoryChecks(offer.(committed := offer.committed - 1))
  {
    hide TokensHold, RedemptionsHold, ChallengesHold, Committing, Redeeming;
    ReachableHolds(s);
    assert InsideOffer(s.claims[c], s.offers);
    assert Counted(s.offers[s.claims[c].offerId], s.claims, s.claims[c].offerId);
    RedeemedAreCommitted(s.claims, s.claims[c].offerId);
  }

  /** An active claim has exactly one active token, the one with the highest rotation; recovering it revokes that
      token and issues the next rotation. */
  lemma ActiveClaimHasOneToken(s: Tables, c: Id) returns (k: string)
    requires Reachable(s) && c in s.claims && s.claims[c].status == ClaimActive
    ensures ActiveTokens(s.tokens, c) == {k} && k in s.tokens
    ensures forall other :: other in s.tokens && s.tokens[other].claimId == c ==> s.tokens[other].rotation <= s.tokens[k].rotation
    ensures ReturnedRotation(s.tokens, c) == s.tokens[k].rotation >= 1 && !RotationTaken(s.tokens, c, s.tokens[k].rotation + 1)
  {
    hide InventoryHolds, RedemptionsHold, ChallengesHold, TokensHold, ReturnedRotation, RotationTaken;
    ReachableHolds(s);
    k := ReturnedRotationIsHighest(s.claims, s.tokens, c);
  }

  // ----- a claim is redeemed at most once

  predicate TouchesClaims(op: Op) {
    op.ClaimPass? || op.RedeemPass? || op.ExpireClaim? || op.PurgeData?
  }

  lemma OtherStepsLeaveClaims(s: Tables, op: Op)
    requires !TouchesClaims(op)
    ensures Perform(s, op).claims == s.claims && Perform(s, op).redemptions == s.redemptions
  {
    hide ClaimStep, RedeemStep, ExpireStep, PurgeStep, VerifyStep, IssueStep, Supersede, SetActive, PauseOffers, Load, TooSoon, HasOpenIncident, RotationTaken,
         ReturnedRotation, Confirmed;
    if op.VerifyChallenge? {
      VerifyChangesChallenges(s, op.verify);
    } else if op.IssueChallenge? {
      IssueChangesChallenges(s, op.issue);
    }
  }

  lemma StepKeepsRedemption(s: Tables, op: Op, c: Id)
    requires c in s.redemptions
    ensures c in Perform(s, op).redemptions && Perform(s, op).redemptions[c] == s.redemptions[c]
  {
    if TouchesClaims(op) {
      hide ForgetContacts, ForgetCustomers, FulfillmentMatches, TokenUsed, AttributionTaken, RotationTaken, ReturnedRotation, Confirmed;
    } else {
      hide Perform;
      OtherStepsLeaveClaims(s, op);
    }
  }

  lemma {:induction false} RunKeepsRedemption(s: Tables, ops: seq<Op>, c: Id)
    requires c in s.redemptions
    ensures c in Run(s, ops).redemptions && Run(s, ops).redemptions[c] == s.redemptions[c]
    decreases |ops|
  {
    hide Perform;
    if ops != [] {
      StepKeepsRedemption(s, ops[0], c);
      RunKeepsRedemption(Perform(s, ops[0]), ops[1..], c);
    }
  }

  lemma {:induction false} RunsCompose(s: Tables, first: seq<Op>, second: seq<Op>)
    ensures Run(Run(s, first), second) == Run(s, first + second)
    decreases |first|
  {
    hide Perform;
    if first == [] {
      assert first + second == second;
    } else {
      RunsCompose(Perform(s, first[0]), first[1..], second);
      assert (first + second)[0] == first[0] && (first + second)[1..] == first[1..] + second;
    }
  }

  lemma RunsStayReachable(s: Tables, ops: seq<Op>)
    requires Reachable(s)
    ensures Reachable(Run(s, ops))
  {
    var before :| s == Run(EMPTY_TABLES, before);
    RunsCompose(EMPTY_TABLES, before, ops);
  }

  lemma RedeemedAfterwards(s: Tables, req: RedeemRequest, ops: seq<Op>)
    requires Reachable(s) && RedeemStep(s, req).Commits?
    ensures var later := Run(RedeemStep(s, req).tables, ops); Reachable(later) && RedemptionsHold(later.claims, later.tokens, later.redemptions)
  {
    hide Reachable, InventoryHolds, TokensHold, RedemptionsHold, ChallengesHold, RedeemStep;
    assert Perform(s, RedeemPass(req)) == RedeemStep(s, req).tables;
    hide Perform;
    assert ([RedeemPass(req)] + ops)[1..] == ops;
    RunsStayReachable(s, [RedeemPass(req)] + ops);
    ReachableHolds(Run(RedeemStep(s, req).tables, ops));
  }

  lemma RedemptionIsRecorded(s: Tables, req: RedeemRequest)
    requires RedeemStep(s, req).Commits?
    ensures req.token in s.tokens
    ensures var c := s.tokens[req.token].claimId;
            c in RedeemStep(s, req).tables.redemptions && RedeemStep(s, req).tables.redemptions[c] == RedeemStep(s, req).value
  {
    hide HasOpenIncident, FulfillmentMatches, TokenUsed, KeepContacts;
  }

  lemma RedeemedIsRefused(s: Tables, req: RedeemRequest, c: Id)
    requires c in s.redemptions
    ensures req.token in s.tokens && s.tokens[req.token].claimId == c ==> RedeemStep(s, req).RollsBack?
  {
    hide HasOpenIncident, FulfillmentMatches, TokenUsed;
  }

  /** After a redemption, whatever else happens, the redemption stands, the claim stays redeemed and its token consumed, and
      no token redeems the claim again. */
  lemma RedeemedOnce(s: Tables, req: RedeemRequest, ops: seq<Op>, again: RedeemRequest)
    requires Reachable(s) && RedeemStep(s, req).Commits?
    ensures var c, later := s.tokens[req.token].claimId, Run(RedeemStep(s, req).tables, ops);
            && c in later.redemptions && later.redemptions[c] == RedeemStep(s, req).value
            && c in later.claims && later.claims[c].status == ClaimRedeemed
            && later.redemptions[c].token in later.tokens && later.tokens[later.redemptions[c].token].status == TokenConsumed
            && (again.token in later.tokens && later.tokens[again.token].claimId == c ==> RedeemStep(later, again).RollsBack?)
  {
    RedemptionIsRecorded(s, req);
    hide Perform, Reachable, Run, RedeemStep;
    var c, step := s.tokens[req.token].claimId, RedeemStep(s, req);
    RunKeepsRedemption(step.tables, ops, c);
    RedeemedAfterwards(s, req, ops);
    RedeemedIsRefused(Run(step.tables, ops), again, c);
  }

  // ----- when redemptions happen

  function TimeOf(op: Op): Option<int> {
    match op
    case IssueChallenge(req) => Some(req.now)
    case VerifyChallenge(req) => Some(req.now)
    case ClaimPass(req) => Some(req.now)
    case RecoverPass(req) => Some(req.now)
    case RedeemPass(req) => Some(req.now)
    case ExpireClaim(req) => Some(req.now)
    case ReportProblem(req) => Some(req.now)
    case ViewStatus(req) => Some(req.now)
    case PurgeData(now) => Some(now)
    case _ => None
  }

  /** The clock of the steps never runs backwards. */
  predicate Timely(from: int, ops: seq<Op>)
    decreases |ops|
  {
    ops == [] ||
    (var now := if TimeOf(ops[0]).Some? then TimeOf(ops[0]).value else from; from <= now && Timely(now, ops[1..]))
  }

  ghost predicate InOrder(s: Tables, clock: int) {
    && (forall c :: c in s.claims ==> s.claims[c].claimedAt <= Date(clock))
    && (forall c :: c in s.redemptions ==> c in s.claims && s.claims[c].claimedAt <= s.redemptions[c].at)
  }

  lemma DatesFollowClock(x: int, y: int)
    requires x <= y
    ensures Date(x) <= Date(y) <= y
  {
  }

  lemma LaterStaysInOrder(s: Tables, clock: int, now: int)
    requires InOrder(s, clock) && clock <= now
    ensures InOrder(s, now)
  {
    DatesFollowClock(clock, now);
  }

  lemma ClaimInOrder(s: Tables, req: ClaimRequest)
    requires InOrder(s, req.now)
    ensures InOrder(After(s, ClaimStep(s, req)), req.now)
  {
    hide AttributionTaken, RotationTaken;
  }

  lemma RedeemInOrder(s: Tables, req: RedeemRequest)
    requires InOrder(s, req.now)
    ensures InOrder(After(s, RedeemStep(s, req)), req.now)
  {
    hide HasOpenIncident, FulfillmentMatches, TokenUsed;
  }

  lemma ExpireInOrder(s: Tables, req: ExpireRequest)
    requires InOrder(s, req.now)
    ensures InOrder(After(s, ExpireStep(s, req)), req.now)
  {
    hide SetActive;
  }

  lemma PurgeInOrder(s: Tables, now: int, clock: int)
    requires InOrder(s, clock)
    ensures InOrder(After(s, PurgeStep(s, now)), clock)
  {
  }

  lemma StepInOrder(s: Tables, op: Op, clock: int)
    requires InOrder(s, clock) && (TimeOf(op).Some? ==> TimeOf(op).value == clock)
    ensures InOrder(Perform(s, op), clock)
  {
    hide InOrder, ClaimStep, RedeemStep, ExpireStep, PurgeStep;
    match op
    case ClaimPass(req) => ClaimInOrder(s, req);
    case RedeemPass(req) => RedeemInOrder(s, req);
    case ExpireClaim(req) => ExpireInOrder(s, req);
    case PurgeData(now) => PurgeInOrder(s, now, clock);
    case _ =>
      OtherStepsLeaveClaims(s, op);
      SameClaimsInOrder(s, Perform(s, op), clock);
  }

  lemma SameClaimsInOrder(s: Tables, after: Tables, clock: int)
    requires InOrder(s, clock) && after.claims == s.claims && after.redemptions == s.redemptions
    ensures InOrder(after, clock)
  {
  }

  lemma {:induction false} RunInOrder(s: Tables, clock: int, ops: seq<Op>) returns (end: int)
    requires InOrder(s, clock) && Timely(clock, ops)
    ensures InOrder(Run(s, ops), end)
    decreases |ops|
  {
    hide InOrder, Perform;
    end := clock;
    if ops != [] {
      var now := if TimeOf(ops[0]).Some? then TimeOf(ops[0]).value else clock;
      LaterStaysInOrder(s, clock, now);
      StepInOrder(s, ops[0], now);
      end := RunInOrder(Perform(s, ops[0]), now, ops[1..]);
    }
  }

  /** With a clock that never runs backwards, every redemption lies inside its claim's seven days and inside its
      offer's window; its end of both is kept whatever the clock does. */
  lemma RedemptionsLieInsideWindows(start: int, ops: seq<Op>, c: Id)
    requires c in Run(EMPTY_TABLES, ops).redemptions
    ensures var s := Run(EMPTY_TABLES, ops);
            && c in s.claims && s.claims[c].offerId in s.offers
            && s.redemptions[c].at < s.claims[c].expiresAt <= s.offers[s.claims[c].offerId].endsAt
            && s.offers[s.claims[c].offerId].startsAt <= s.claims[c].claimedAt
            && (Timely(start, ops) ==> s.claims[c].claimedAt <= s.redemptions[c].at)
  {
    hide TokensHold, ChallengesHold, Perform, Run;
    var s := Run(EMPTY_TABLES, ops);
    ReachableHolds(s);
    assert InsideOffer(s.claims[c], s.offers);
    if Timely(start, ops) {
      var end := RunInOrder(EMPTY_TABLES, start, ops);
    }
  }

  // ----- challenges

  /** However the transactions' clocks interleave: no fifteen-minute window holds more than three challenges of a
      destination, of a risk signal or of a link; challenges of one destination for one target are a minute apart; and a
      target has at most one challenge that is pending or verified. */
  lemma ChallengesAreLimited(s: Tables)
    requires Reachable(s)
    ensures forall destination, from :: |Within(s.challenges, SameDestination(s.challenges, destination), from)| <= 3
    ensures forall risk, from :: |Within(s.challenges, SameRisk(s.challenges, risk), from)| <= 3
    ensures forall link, from :: |Within(s.challenges, SameLink(s.challenges, link), from)| <= 3
    ensures forall x, y :: x in s.challenges && y in s.challenges && x != y ==> Apart(s.challenges[x], s.challenges[y])
    ensures forall x, y :: x in s.challenges && y in s.challenges && Live(s.challenges[x]) && Live(s.challenges[y]) ==>
                             s.challenges[x].target == s.challenges[y].target ==> x == y
    ensures forall id :: id in s.challenges ==> s.challenges[id].attempts <= 5
  {
    hide InventoryHolds, TokensHold, RedemptionsHold;
    ReachableHolds(s);
  }
}
