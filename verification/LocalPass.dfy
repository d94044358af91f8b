/** Local Pass as one state machine: what every run of it keeps. */
module LocalPass {
  import opened Wrappers
  import opened PassTables
  import opened PassChallenges
  import opened PassClaims

  datatype Op =
    | ConfigureOffer(offer: OfferRequest)
    | ActivateOffer(activate: StatusRequest)
    | PauseFutureClaims(pause: StatusRequest)
    | IssueCreatorLink(link: LinkRequest)
    | IssueChallenge(issue: IssueRequest)
    | VerifyChallenge(verify: VerifyRequest)
    | ClaimPass(claim: ClaimRequest)
    | RecoverPass(recover: RecoverRequest)
    | RedeemPass(redeem: RedeemRequest)
    | ExpireClaim(expire: ExpireRequest)
    | ReportProblem(report: ReportRequest)
    | ReviewProblem(review: ReviewRequest)
    | ViewStatus(view: StatusView)
    | PurgeData(purgedAt: int)

  function Perform(s: Tables, op: Op): Tables {
    match op
    case ConfigureOffer(req) => After(s, ConfigureOfferStep(s, req))
    case ActivateOffer(req) => After(s, ChangeStatusStep(s, req, Configured, OfferActive))
    case PauseFutureClaims(req) => After(s, ChangeStatusStep(s, req, OfferActive, ClaimsPaused))
    case IssueCreatorLink(req) => After(s, IssueLinkStep(s, req))
    case IssueChallenge(req) => After(s, IssueStep(s, req))
    case VerifyChallenge(req) => After(s, VerifyStep(s, req))
    case ClaimPass(req) => After(s, ClaimStep(s, req))
    case RecoverPass(req) => After(s, RecoverStep(s, req))
    case RedeemPass(req) => After(s, RedeemStep(s, req))
    case ExpireClaim(req) => After(s, ExpireStep(s, req))
    case ReportProblem(req) => After(s, ReportStep(s, req))
    case ReviewProblem(req) => After(s, ReviewStep(s, req))
    case ViewStatus(req) => After(s, CustomerStatusStep(s, req))
    case PurgeData(now) => After(s, PurgeStep(s, now))
  }

  function Run(s: Tables, ops: seq<Op>): Tables
    decreases |ops|
  {
    if ops == [] then s else Run(Perform(s, ops[0]), ops[1..])
  }

  ghost predicate Reachable(s: Tables) {
    exists ops :: s == Run(EMPTY_TABLES, ops)
  }

  // ----- inventory

  function Committing(claims: map<Id, Claim>, offerId: Id): set<Id> {
    set c | c in claims && claims[c].offerId == offerId && claims[c].status in {ClaimActive, ClaimRedeemed}
  }

  function Redeeming(claims: map<Id, Claim>, offerId: Id): set<Id> {
    set c | c in claims && claims[c].offerId == offerId && claims[c].status == ClaimRedeemed
  }

  predicate Counted(offer: Offer, claims: map<Id, Claim>, offerId: Id) {
    && offer.committed == |Committing(claims, offerId)|
    && offer.redeemed == |Redeeming(claims, offerId)|
    && offer.committed <= offer.total
  }

  /** A claim lies inside its offer's window and lasts seven days. */
  predicate InsideOffer(claim: Claim, offers: map<Id, Offer>) {
    && claim.offerId in offers
    && offers[claim.offerId].startsAt <= claim.claimedAt
    && claim.expiresAt == claim.claimedAt + CLAIM_WINDOW
    && claim.expiresAt <= offers[claim.offerId].endsAt
  }

  ghost predicate AllInside(claims: map<Id, Claim>, offers: map<Id, Offer>) {
    forall c :: c in claims ==> InsideOffer(claims[c], offers)
  }

  ghost predicate InventoryHolds(offers: map<Id, Offer>, claims: map<Id, Claim>) {
    && (forall o :: o in offers ==> Counted(offers[o], claims, o))
    && AllInside(claims, offers)
  }

  // ----- tokens and redemptions

  ghost predicate ActiveClaimsHaveTokens(claims: map<Id, Claim>, tokens: map<string, Token>) {
    forall c :: c in claims && claims[c].status == ClaimActive ==> exists k :: k in tokens && ActiveFor(tokens[k], c)
  }

  ghost predicate RotationsHold(claims: map<Id, Claim>, tokens: map<string, Token>) {
    && (forall k :: k in tokens ==>
          && tokens[k].claimId in claims && tokens[k].rotation >= 1
          && (tokens[k].status == TokenActive ==> claims[tokens[k].claimId].status == ClaimActive))
    && (forall k, other :: k in tokens && other in tokens && k != other && tokens[k].claimId == tokens[other].claimId ==>
          && tokens[k].rotation != tokens[other].rotation
          && (tokens[k].status == TokenActive ==> tokens[k].rotation > tokens[other].rotation))
  }

  ghost predicate TokensHold(claims: map<Id, Claim>, tokens: map<string, Token>) {
    ActiveClaimsHaveTokens(claims, tokens) && RotationsHold(claims, tokens)
  }

  ghost predicate RedemptionsHold(claims: map<Id, Claim>, tokens: map<string, Token>, redemptions: map<Id, Redemption>) {
    && (forall c :: c in redemptions <==> c in claims && claims[c].status == ClaimRedeemed)
    && (forall c :: c in redemptions ==>
          && redemptions[c].token in tokens && tokens[redemptions[c].token].claimId == c
          && tokens[redemptions[c].token].status == TokenConsumed
          && redemptions[c].at < claims[c].expiresAt)
  }

  ghost predicate Invariant(s: Tables) {
    && InventoryHolds(s.offers, s.claims)
    && TokensHold(s.claims, s.tokens)
    && RedemptionsHold(s.claims, s.tokens, s.redemptions)
    && ChallengesHold(s.challenges)
  }

  // ----- offers

  lemma ChangingOfferKeepsInventory(offers: map<Id, Offer>, claims: map<Id, Claim>, o: Id, offer: Offer)
    requires InventoryHolds(offers, claims)
    requires if o in offers then offer == offers[o].(status := offer.status, version := offer.version)
             else offer.committed == 0 && offer.redeemed == 0 && offer.total >= 0
    ensures InventoryHolds(offers[o := offer], claims)
  {
    if o !in offers {
      assert Committing(claims, o) == {};
      assert Redeeming(claims, o) == {};
    }
    forall c | c in claims ensures InsideOffer(claims[c], offers[o := offer]) {
      assert InsideOffer(claims[c], offers);
    }
  }

  lemma PausingKeepsInventory(offers: map<Id, Offer>, claims: map<Id, Claim>, businessId: Id)
    requires InventoryHolds(offers, claims)
    ensures InventoryHolds(PauseOffers(offers, businessId), claims)
  {
    forall c | c in claims ensures InsideOffer(claims[c], PauseOffers(offers, businessId)) {
      assert InsideOffer(claims[c], offers);
    }
    forall o | o in offers ensures Counted(PauseOffers(offers, businessId)[o], claims, o) {
      assert Counted(offers[o], claims, o);
    }
  }

  // ----- claims enter and leave the counts

  lemma ClaimEnters(claims: map<Id, Claim>, c: Id, claim: Claim, o: Id)
    requires c !in claims && claim.status == ClaimActive
    ensures Committing(claims[c := claim], o) == Committing(claims, o) + if o == claim.offerId then {c} else {}
    ensures Redeeming(claims[c := claim], o) == Redeeming(claims, o) && c !in Committing(claims, o)
  {
  }

  lemma ClaimEntersCounts(claims: map<Id, Claim>, c: Id, claim: Claim, o: Id)
    requires c !in claims && claim.status == ClaimActive
    ensures |Committing(claims[c := claim], o)| == |Committing(claims, o)| + if o == claim.offerId then 1 else 0
    ensures |Redeeming(claims[c := claim], o)| == |Redeeming(claims, o)|
  {
    ClaimEnters(claims, c, claim, o);
    hide Committing, Redeeming;
  }

  lemma ClaimEnds(claims: map<Id, Claim>, c: Id, claim: Claim, o: Id)
    requires c in claims && claims[c].status == ClaimActive && claim.status != ClaimActive && claim.offerId == claims[c].offerId
    ensures Committing(claims[c := claim], o) == Committing(claims, o) - if claim.status == ClaimExpired then {c} else {}
    ensures Redeeming(claims[c := claim], o) == Redeeming(claims, o) + if o == claim.offerId && claim.status == ClaimRedeemed then {c} else {}
    ensures c in Committing(claims, o) <==> o == claim.offerId
    ensures c !in Redeeming(claims, o)
  {
  }

  lemma ClaimEndsInCounts(claims: map<Id, Claim>, c: Id, claim: Claim, o: Id)
    requires c in claims && claims[c].status == ClaimActive && claim.status != ClaimActive && claim.offerId == claims[c].offerId
    ensures |Committing(claims[c := claim], o)| == |Committing(claims, o)| - if o == claim.offerId && claim.status == ClaimExpired then 1 else 0
    ensures |Redeeming(claims[c := claim], o)| == |Redeeming(claims, o)| + if o == claim.offerId && claim.status == ClaimRedeemed then 1 else 0
  {
    ClaimEnds(claims, c, claim, o);
    hide Committing, Redeeming;
  }

  lemma ClaimsStayInside(offers: map<Id, Offer>, claims: map<Id, Claim>, o: Id, offer: Offer, c: Id, claim: Claim)
    requires AllInside(claims, offers) && InsideOffer(claim, offers)
    requires o in offers && offer.startsAt == offers[o].startsAt && offer.endsAt == offers[o].endsAt
    ensures AllInside(claims[c := claim], offers[o := offer])
  {
    var claims', offers' := claims[c := claim], offers[o := offer];
    forall other | other in claims' ensures InsideOffer(claims'[other], offers') {
      assert other != c ==> InsideOffer(claims[other], offers);
    }
  }

  lemma ClaimingKeepsInventory(offers: map<Id, Offer>, claims: map<Id, Claim>, c: Id, claim: Claim, offer: Offer)
    requires InventoryHolds(offers, claims) && c !in claims && InsideOffer(claim, offers) && claim.status == ClaimActive
    requires offer == offers[claim.offerId].(committed := offers[claim.offerId].committed + 1, version := offer.version)
    requires offer.committed <= offer.total
    ensures InventoryHolds(offers[claim.offerId := offer], claims[c := claim])
  {
    ClaimsStayInside(offers, claims, claim.offerId, offer, c, claim);
    hide Committing, Redeeming, InsideOffer;
    forall o | o in offers ensures Counted(offers[claim.offerId := offer][o], claims[c := claim], o) {
      assert Counted(offers[o], claims, o);
      ClaimEntersCounts(claims, c, claim, o);
    }
  }

  lemma EndingKeepsInventory(offers: map<Id, Offer>, claims: map<Id, Claim>, c: Id, claim: Claim, offer: Offer)
    requires InventoryHolds(offers, claims) && c in claims && claims[c].status == ClaimActive && claim.status != ClaimActive
    requires claim == claims[c].(status := claim.status, customerUntil := claim.customerUntil, version := claim.version)
    requires var before := offers[claim.offerId];
             offer == if claim.status == ClaimRedeemed then before.(redeemed := before.redeemed + 1, version := offer.version)
                      else before.(committed := before.committed - 1, version := offer.version)
    ensures InventoryHolds(offers[claim.offerId := offer], claims[c := claim])
  {
    assert InsideOffer(claims[c], offers);
    ClaimsStayInside(offers, claims, claim.offerId, offer, c, claim);
    hide Committing, Redeeming, InsideOffer;
    forall o | o in offers ensures Counted(offers[claim.offerId := offer][o], claims[c := claim], o) {
      assert Counted(offers[o], claims, o);
      ClaimEndsInCounts(claims, c, claim, o);
    }
  }

  lemma ForgettingKeepsInventory(offers: map<Id, Offer>, claims: map<Id, Claim>, now: int)
    requires InventoryHolds(offers, claims)
    ensures InventoryHolds(offers, ForgetCustomers(claims, now))
  {
    var claims' := ForgetCustomers(claims, now);
    forall o | o in offers ensures Counted(offers[o], claims', o) {
      assert Committing(claims', o) == Committing(claims, o) && Redeeming(claims', o) == Redeeming(claims, o);
    }
    forall c | c in claims' ensures InsideOffer(claims'[c], offers) {
      assert InsideOffer(claims[c], offers);
    }
  }

  lemma RedeemedAreCommitted(claims: map<Id, Claim>, o: Id)
    ensures |Redeeming(claims, o)| <= |Committing(claims, o)|
    ensures forall c :: c in claims && claims[c].offerId == o && claims[c].status == ClaimActive ==>
              |Redeeming(claims, o)| < |Committing(claims, o)|
  {
    SubsetHasFewer(Redeeming(claims, o), Committing(claims, o));
    forall c | c in claims && claims[c].offerId == o && claims[c].status == ClaimActive
      ensures |Redeeming(claims, o)| < |Committing(claims, o)|
    {
      SubsetHasFewer(Redeeming(claims, o), Committing(claims, o) - {c});
    }
  }

  // ----- tokens follow their claims

  lemma ClaimingKeepsTokens(claims: map<Id, Claim>, tokens: map<string, Token>, c: Id, claim: Claim, k: string, expiresAt: int)
    requires TokensHold(claims, tokens) && c !in claims && k !in tokens && claim.status == ClaimActive
    ensures TokensHold(claims[c := claim], tokens[k := Token(c, 1, TokenActive, expiresAt)])
  {
    assert RotationsHold(claims[c := claim], tokens[k := Token(c, 1, TokenActive, expiresAt)]);
    hide RotationsHold;
    var claims', tokens' := claims[c := claim], tokens[k := Token(c, 1, TokenActive, expiresAt)];
    forall other | other in claims' && claims'[other].status == ClaimActive ensures exists key :: key in tokens' && ActiveFor(tokens'[key], other) {
      if other == c {
        assert ActiveFor(tokens'[k], c);
      } else {
        var key :| key in tokens && ActiveFor(tokens[key], other);
        assert ActiveFor(tokens'[key], other);
      }
    }
  }

  /** The `?? 0` fallback is never taken: an active claim's update returns the row of its highest rotation. */
  lemma ReturnedRotationIsHighest(claims: map<Id, Claim>, tokens: map<string, Token>, c: Id) returns (k: string)
    requires TokensHold(claims, tokens) && c in claims && claims[c].status == ClaimActive
    ensures ActiveTokens(tokens, c) == {k} && k in tokens && ReturnedRotation(tokens, c) == tokens[k].rotation >= 1
    ensures forall other :: other in tokens && tokens[other].claimId == c ==> tokens[other].rotation <= ReturnedRotation(tokens, c)
    ensures !RotationTaken(tokens, c, ReturnedRotation(tokens, c) + 1)
  {
    k :| k in tokens && ActiveFor(tokens[k], c);
    assert ActiveTokens(tokens, c) == {k};
    var rotations := set key | key in ActiveTokens(tokens, c) :: tokens[key].rotation;
    assert tokens[k].rotation in rotations;
  }

  lemma RotatingKeepsRotations(claims: map<Id, Claim>, tokens: map<string, Token>, c: Id, k: string, token: Token)
    requires RotationsHold(claims, tokens) && c in claims && claims[c].status == ClaimActive && k !in tokens
    requires token.claimId == c && token.status == TokenActive && token.rotation >= 1
    requires forall other :: other in tokens && tokens[other].claimId == c ==> tokens[other].rotation < token.rotation
    ensures RotationsHold(claims, SetActive(tokens, c, TokenRevoked)[k := token])
  {
  }

  lemma ReplacingKeepsActive(claims: map<Id, Claim>, tokens: map<string, Token>, tokens': map<string, Token>, c: Id)
    requires ActiveClaimsHaveTokens(claims, tokens)
    requires forall k :: k in tokens && tokens[k].claimId != c ==> k in tokens' && tokens'[k] == tokens[k]
    requires c in claims && claims[c].status == ClaimActive ==> exists k :: k in tokens' && ActiveFor(tokens'[k], c)
    ensures ActiveClaimsHaveTokens(claims, tokens')
  {
    forall other | other in claims && claims[other].status == ClaimActive ensures exists k :: k in tokens' && ActiveFor(tokens'[k], other) {
      if other != c {
        var k :| k in tokens && ActiveFor(tokens[k], other);
        assert ActiveFor(tokens'[k], other);
      }
    }
  }

  lemma RotatingKeepsTokens(claims: map<Id, Claim>, tokens: map<string, Token>, c: Id, k: string, expiresAt: int)
    requires TokensHold(claims, tokens) && c in claims && claims[c].status == ClaimActive && k !in tokens
    ensures TokensHold(claims, SetActive(tokens, c, TokenRevoked)[k := Token(c, ReturnedRotation(tokens, c) + 1, TokenActive, expiresAt)])
  {
    var current := ReturnedRotationIsHighest(claims, tokens, c);
    hide ReturnedRotation, RotationsHold, ActiveClaimsHaveTokens;
    var token := Token(c, ReturnedRotation(tokens, c) + 1, TokenActive, expiresAt);
    var tokens' := SetActive(tokens, c, TokenRevoked)[k := token];
    RotatingKeepsRotations(claims, tokens, c, k, token);
    assert ActiveFor(tokens'[k], c);
    ReplacingKeepsActive(claims, tokens, tokens', c);
  }

  lemma EndingKeepsRotations(claims: map<Id, Claim>, tokens: map<string, Token>, c: Id, claim: Claim, status: TokenStatus)
    requires RotationsHold(claims, tokens) && c in claims && status != TokenActive
    ensures RotationsHold(claims[c := claim], SetActive(tokens, c, status))
  {
  }

  lemma EndingKeepsTokens(claims: map<Id, Claim>, tokens: map<string, Token>, c: Id, claim: Claim, status: TokenStatus)
    requires TokensHold(claims, tokens) && c in claims && claim.status != ClaimActive && status != TokenActive
    ensures TokensHold(claims[c := claim], SetActive(tokens, c, status))
  {
    EndingKeepsRotations(claims, tokens, c, claim, status);
    assert ActiveClaimsHaveTokens(claims[c := claim], tokens);
    hide RotationsHold, ActiveClaimsHaveTokens;
    ReplacingKeepsActive(claims[c := claim], tokens, SetActive(tokens, c, status), c);
  }

  lemma OnlyActiveToken(claims: map<Id, Claim>, tokens: map<string, Token>, k: string)
    requires TokensHold(claims, tokens) && k in tokens && tokens[k].status == TokenActive
    ensures SetActive(tokens, tokens[k].claimId, TokenConsumed) == tokens[k := tokens[k].(status := TokenConsumed)]
  {
    forall other | other in tokens && ActiveFor(tokens[other], tokens[k].claimId) ensures other == k {
    }
  }

  lemma ForgettingKeepsTokens(claims: map<Id, Claim>, tokens: map<string, Token>, redemptions: map<Id, Redemption>, now: int)
    requires TokensHold(claims, tokens) && RedemptionsHold(claims, tokens, redemptions)
    ensures TokensHold(ForgetCustomers(claims, now), tokens) && RedemptionsHold(ForgetCustomers(claims, now), tokens, redemptions)
  {
  }

  lemma ForgettingKeepsChallenges(challenges: map<Id, Challenge>, now: int)
    requires ChallengesHold(challenges)
    ensures ChallengesHold(ForgetContacts(challenges, now))
  {
    var after := ForgetContacts(challenges, now);
    forall destination, from ensures |Within(after, SameDestination(after, destination), from)| <= RATE_LIMIT {
      SubsetHasFewer(Within(after, SameDestination(after, destination), from), Within(challenges, SameDestination(challenges, destination), from));
    }
    forall risk, from ensures |Within(after, SameRisk(after, risk), from)| <= RATE_LIMIT {
      SubsetHasFewer(Within(after, SameRisk(after, risk), from), Within(challenges, SameRisk(challenges, risk), from));
    }
    forall link, from ensures |Within(after, SameLink(after, link), from)| <= RATE_LIMIT {
      assert Within(after, SameLink(after, link), from) == Within(challenges, SameLink(challenges, link), from);
    }
    forall x, y | x in after && y in after && x != y ensures Apart(after[x], after[y]) {
      assert Apart(challenges[x], challenges[y]);
    }
  }

  lemma KeepingContactsKeepsChallenges(challenges: map<Id, Challenge>, c: Id, customer: Option<string>, until: int)
    requires ChallengesHold(challenges)
    ensures ChallengesHold(KeepContacts(challenges, c, customer, until))
  {
    var after := KeepContacts(challenges, c, customer, until);
    assert forall destination :: SameDestination(after, destination) == SameDestination(challenges, destination);
    assert forall risk :: SameRisk(after, risk) == SameRisk(challenges, risk);
    assert forall link :: SameLink(after, link) == SameLink(challenges, link);
    assert forall ids, from :: Within(after, ids, from) == Within(challenges, ids, from);
    forall x, y | x in after && y in after && x != y ensures Apart(after[x], after[y]) {
      assert Apart(challenges[x], challenges[y]);
    }
  }

  // ----- every step

  lemma OfferStepKeeps(s: Tables, req: OfferRequest)
    requires Invariant(s)
    ensures Invariant(After(s, ConfigureOfferStep(s, req)))
  {
    hide InventoryHolds, TokensHold, RedemptionsHold, ChallengesHold;
    var step := ConfigureOfferStep(s, req);
    if step.Commits? {
      ChangingOfferKeepsInventory(s.offers, s.claims, req.publicId, step.value);
    }
  }

  lemma StatusStepKeeps(s: Tables, req: StatusRequest, from: OfferStatus, to: OfferStatus)
    requires Invariant(s)
    ensures Invariant(After(s, ChangeStatusStep(s, req, from, to)))
  {
    hide InventoryHolds, TokensHold, RedemptionsHold, ChallengesHold;
    var step := ChangeStatusStep(s, req, from, to);
    if step.Commits? {
      ChangingOfferKeepsInventory(s.offers, s.claims, req.offerId, step.value);
    }
  }

  lemma ChallengeStepKeeps(s: Tables, challenges: map<Id, Challenge>, links: map<string, Link>, incidents: map<Id, Incident>)
    requires Invariant(s) && ChallengesHold(challenges)
    ensures Invariant(s.(challenges := challenges, links := links, incidents := incidents))
  {
    hide InventoryHolds, TokensHold, RedemptionsHold, ChallengesHold;
  }

  lemma ClaimStepKeeps(s: Tables, req: ClaimRequest)
    requires Invariant(s)
    ensures Invariant(After(s, ClaimStep(s, req)))
  {
    hide InventoryHolds, TokensHold, RedemptionsHold, ChallengesHold, AttributionTaken;
    var step := ClaimStep(s, req);
    if step.Commits? {
      var claim := step.value;
      ClaimingKeepsInventory(s.offers, s.claims, req.publicId, claim, step.tables.offers[claim.offerId]);
      ClaimingKeepsTokens(s.claims, s.tokens, req.publicId, claim, req.token, Date(req.now) + TOKEN_LIFE);
      ClaimingKeepsRedemptions(s.claims, s.tokens, s.redemptions, req.publicId, claim, req.token, Token(req.publicId, 1, TokenActive, Date(req.now) + TOKEN_LIFE));
      ConsumingKeepsChallenges(s.challenges, req.challengeId);
    }
  }

  lemma ClaimingKeepsRedemptions(claims: map<Id, Claim>, tokens: map<string, Token>, redemptions: map<Id, Redemption>, c: Id, claim: Claim,
                                 k: string, token: Token)
    requires RedemptionsHold(claims, tokens, redemptions) && c !in claims && k !in tokens && claim.status == ClaimActive
    ensures RedemptionsHold(claims[c := claim], tokens[k := token], redemptions)
  {
  }

  lemma RotatingKeepsRedemptions(claims: map<Id, Claim>, tokens: map<string, Token>, redemptions: map<Id, Redemption>, c: Id, k: string, token: Token)
    requires RedemptionsHold(claims, tokens, redemptions) && k !in tokens
    ensures RedemptionsHold(claims, SetActive(tokens, c, TokenRevoked)[k := token], redemptions)
  {
  }

  lemma RecoverStepKeeps(s: Tables, req: RecoverRequest)
    requires Invariant(s)
    ensures Invariant(After(s, RecoverStep(s, req)))
  {
    hide InventoryHolds, TokensHold, RedemptionsHold, ChallengesHold, ReturnedRotation, SetActive, RotationTaken;
    var step := RecoverStep(s, req);
    if step.Commits? {
      var token := step.tables.tokens[req.token];
      RotatingKeepsTokens(s.claims, s.tokens, req.claimId, req.token, token.expiresAt);
      RotatingKeepsRedemptions(s.claims, s.tokens, s.redemptions, req.claimId, req.token, token);
      ConsumingKeepsChallenges(s.challenges, req.challengeId);
    }
  }

  lemma RedeemingKeepsRedemptions(claims: map<Id, Claim>, tokens: map<string, Token>, redemptions: map<Id, Redemption>, k: string, claim: Claim,
                                  redemption: Redemption)
    requires RedemptionsHold(claims, tokens, redemptions) && k in tokens && tokens[k].status == TokenActive && tokens[k].claimId in claims
    requires claim.status == ClaimRedeemed && claim.expiresAt == claims[tokens[k].claimId].expiresAt
    requires redemption.token == k && redemption.at < claim.expiresAt
    ensures RedemptionsHold(claims[tokens[k].claimId := claim], tokens[k := tokens[k].(status := TokenConsumed)],
                            redemptions[tokens[k].claimId := redemption])
  {
  }

  lemma RedeemStepKeeps(s: Tables, req: RedeemRequest)
    requires Invariant(s)
    ensures Invariant(After(s, RedeemStep(s, req)))
  {
    hide InventoryHolds, TokensHold, RedemptionsHold, ChallengesHold, HasOpenIncident, TokenUsed, FulfillmentMatches, KeepContacts;
    var step := RedeemStep(s, req);
    if step.Commits? {
      var c := s.tokens[req.token].claimId;
      var claim := step.tables.claims[c];
      EndingKeepsInventory(s.offers, s.claims, c, claim, step.tables.offers[claim.offerId]);
      OnlyActiveToken(s.claims, s.tokens, req.token);
      EndingKeepsTokens(s.claims, s.tokens, c, claim, TokenConsumed);
      RedeemingKeepsRedemptions(s.claims, s.tokens, s.redemptions, req.token, claim, step.value);
      var challenges := if req.kind == CustomerAcceptedSubstitute then Consume(s.challenges, req.acceptanceId) else s.challenges;
      if req.kind == CustomerAcceptedSubstitute {
        ConsumingKeepsChallenges(s.challenges, req.acceptanceId);
      }
      KeepingContactsKeepsChallenges(challenges, c, s.claims[c].customer, Date(req.now) + req.year);
    }
  }

  lemma ExpiringKeepsRedemptions(claims: map<Id, Claim>, tokens: map<string, Token>, redemptions: map<Id, Redemption>, c: Id, claim: Claim)
    requires RedemptionsHold(claims, tokens, redemptions) && c in claims && claims[c].status == ClaimActive && claim.status == ClaimExpired
    ensures RedemptionsHold(claims[c := claim], SetActive(tokens, c, TokenExpired), redemptions)
  {
  }

  lemma ExpireStepKeeps(s: Tables, req: ExpireRequest)
    requires Invariant(s)
    ensures Invariant(After(s, ExpireStep(s, req)))
  {
    hide InventoryHolds, TokensHold, RedemptionsHold, ChallengesHold, SetActive, KeepContacts;
    var step := ExpireStep(s, req);
    if step.Commits? {
      EndingKeepsInventory(s.offers, s.claims, req.claimId, step.value, step.tables.offers[step.value.offerId]);
      EndingKeepsTokens(s.claims, s.tokens, req.claimId, step.value, TokenExpired);
      ExpiringKeepsRedemptions(s.claims, s.tokens, s.redemptions, req.claimId, step.value);
      KeepingContactsKeepsChallenges(s.challenges, req.claimId, s.claims[req.claimId].customer, Date(req.now) + req.year);
    }
  }

  lemma ReviewStepKeeps(s: Tables, req: ReviewRequest)
    requires Invariant(s)
    ensures Invariant(After(s, ReviewStep(s, req)))
  {
    hide InventoryHolds, TokensHold, RedemptionsHold, ChallengesHold, PauseOffers, Confirmed;
    if ReviewStep(s, req).Commits? {
      PausingKeepsInventory(s.offers, s.claims, s.incidents[req.publicId].businessId);
    }
  }

  lemma ConsumerStepsKeep(s: Tables, op: Op)
    requires Invariant(s) && (op.ReportProblem? || op.ViewStatus?)
    ensures Invariant(Perform(s, op))
  {
    hide InventoryHolds, TokensHold, RedemptionsHold, ChallengesHold, HasOpenIncident;
    var after := Perform(s, op);
    if after != s {
      ConsumingKeepsChallenges(s.challenges, if op.ReportProblem? then op.report.challengeId else op.view.challengeId);
      ChallengeStepKeeps(s, after.challenges, after.links, after.incidents);
    }
  }

  lemma PurgeStepKeeps(s: Tables, now: int)
    requires Invariant(s)
    ensures Invariant(After(s, PurgeStep(s, now)))
  {
    hide InventoryHolds, TokensHold, RedemptionsHold, ChallengesHold, ForgetContacts, ForgetCustomers;
    ForgettingKeepsInventory(s.offers, s.claims, now);
    ForgettingKeepsTokens(s.claims, s.tokens, s.redemptions, now);
    ForgettingKeepsChallenges(s.challenges, now);
  }

  lemma StepKeepsInvariant(s: Tables, op: Op)
    requires Invariant(s)
    ensures Invariant(Perform(s, op))
  {
    hide InventoryHolds, TokensHold, RedemptionsHold, ChallengesHold, ConfigureOfferStep, ChangeStatusStep, IssueLinkStep, IssueStep, VerifyStep,
         ClaimStep, RecoverStep, RedeemStep, ExpireStep, ReviewStep, PurgeStep;
    match op
    case ConfigureOffer(req) => OfferStepKeeps(s, req);
    case ActivateOffer(req) => StatusStepKeeps(s, req, Configured, OfferActive);
    case PauseFutureClaims(req) => StatusStepKeeps(s, req, OfferActive, ClaimsPaused);
    case IssueCreatorLink(req) => LinkStepKeeps(s, req);
    case IssueChallenge(req) =>
      IssueKeepsChallenges(s, req);
      IssueChangesChallenges(s, req);
      ChallengeStepKeeps(s, After(s, IssueStep(s, req)).challenges, s.links, s.incidents);
    case VerifyChallenge(req) =>
      VerifyKeepsChallenges(s, req);
      VerifyChangesChallenges(s, req);
      ChallengeStepKeeps(s, After(s, VerifyStep(s, req)).challenges, s.links, s.incidents);
    case ClaimPass(req) => ClaimStepKeeps(s, req);
    case RecoverPass(req) => RecoverStepKeeps(s, req);
    case RedeemPass(req) => RedeemStepKeeps(s, req);
    case ExpireClaim(req) => ExpireStepKeeps(s, req);
    case ReportProblem(_) => ConsumerStepsKeep(s, op);
    case ReviewProblem(req) => ReviewStepKeeps(s, req);
    case ViewStatus(_) => ConsumerStepsKeep(s, op);
    case PurgeData(now) => PurgeStepKeeps(s, now);
  }

  lemma LinkStepKeeps(s: Tables, req: LinkRequest)
    requires Invariant(s)
    ensures Invariant(After(s, IssueLinkStep(s, req)))
  {
    hide InventoryHolds, TokensHold, RedemptionsHold, ChallengesHold;
  }

  lemma IssueChangesChallenges(s: Tables, req: IssueRequest)
    ensures After(s, IssueStep(s, req)) == s.(challenges := After(s, IssueStep(s, req)).challenges)
  {
  }

  lemma VerifyChangesChallenges(s: Tables, req: VerifyRequest)
    ensures After(s, VerifyStep(s, req)) == s.(challenges := After(s, VerifyStep(s, req)).challenges)
  {
    hide VerifyStep;
    VerifyTriesOneRow(s, req);
  }

  lemma {:induction false} RunKeepsInvariant(s: Tables, ops: seq<Op>)
    requires Invariant(s)
    ensures Invariant(Run(s, ops))
    decreases |ops|
  {
    hide Invariant, Perform;
    if ops != [] {
      StepKeepsInvariant(s, ops[0]);
      RunKeepsInvariant(Perform(s, ops[0]), ops[1..]);
    }
  }

  lemma EmptyHolds()
    ensures Invariant(EMPTY_TABLES)
  {
    var none: map<Id, Challenge> := map[];
    assert forall ids, from :: Within(none, ids, from) == {};
  }

  lemma ReachableHolds(s: Tables)
    requires Reachable(s)
    ensures Invariant(s)
  {
    hide Invariant, Perform;
    var ops :| s == Run(EMPTY_TABLES, ops);
    EmptyHolds();
    RunKeepsInvariant(EMPTY_TABLES, ops);
  }
}
