/** Offers, the claims that commit their inventory, rotating claim tokens and redemptions. */
module PassClaims {
  import opened Wrappers
  import opened PassTables

  const CLAIM_WINDOW := 7 * DAY
  const TOKEN_LIFE := 5 * MINUTE

  // ----- offers and links

  /** `stated`: title, description, exclusions and currency are given; `inScope`: the actor manages the business of a
      draft campaign with an active venue there; `substituteStated`: a given substitute is described. */
  datatype OfferRequest = OfferRequest(publicId: Id, campaignId: Id, businessId: Id, locationId: Id, startsAt: int, endsAt: int,
                                       value: int, substitute: Option<(string, int)>, substituteStated: bool, total: int,
                                       stated: bool, inScope: bool)

  function ConfigureOfferStep(s: Tables, req: OfferRequest): Step<Offer> {
    if req.endsAt - req.startsAt < CLAIM_WINDOW || req.total < 1 || req.total > 500 || req.value < 0 || !req.stated
    then RollsBack(OfferInvalid)
    else if !req.inScope then RollsBack(AccessDenied)
    else if req.substitute.Some? && (!req.substituteStated || req.substitute.value.1 < req.value) then RollsBack(OfferInvalid)
    else if req.publicId in s.offers || (exists o <- s.offers :: s.offers[o].campaignId == req.campaignId) then RollsBack(ConstraintViolated)
    else
      var offer := Offer(req.campaignId, req.businessId, req.locationId, req.startsAt, req.endsAt, req.value, req.substitute,
                         req.total, 0, 0, Configured, 1);
      Commits(offer, s.(offers := s.offers[req.publicId := offer]))
  }

  datatype StatusRequest = StatusRequest(offerId: Id, managesBusiness: bool, published: bool)

  function ChangeStatusStep(s: Tables, req: StatusRequest, from: OfferStatus, to: OfferStatus): Step<Offer> {
    if req.offerId !in s.offers || !req.managesBusiness then RollsBack(AccessDenied)
    else if !req.published || s.offers[req.offerId].status != from then RollsBack(NotReady)
    else
      var offer := s.offers[req.offerId].(status := to, version := s.offers[req.offerId].version + 1);
      Commits(offer, s.(offers := s.offers[req.offerId := offer]))
  }

  /** `ready`: the campaign is published and the assignment is a completed one of that campaign. */
  datatype LinkRequest = LinkRequest(token: string, offerId: Id, assignmentId: Id, creatorId: Id, ready: bool)

  function IssueLinkStep(s: Tables, req: LinkRequest): Step<Link> {
    if req.offerId !in s.offers || !req.ready || s.offers[req.offerId].status !in {OfferActive, ClaimsPaused} then RollsBack(NotReady)
    else if req.token in s.links
            || exists l <- s.links :: s.links[l].assignmentId == req.assignmentId
                                   || (s.links[l].campaignId == s.offers[req.offerId].campaignId && s.links[l].creatorId == req.creatorId)
    then RollsBack(ConstraintViolated)
    else
      var link := Link(req.offerId, s.offers[req.offerId].campaignId, req.assignmentId, req.creatorId);
      Commits(link, s.(links := s.links[req.token := link]))
  }

  /** The CHECK constraint of an offer row. */
  predicate InventoryChecks(offer: Offer) {
    0 <= offer.redeemed <= offer.committed <= offer.total
  }

  // ----- claiming

  datatype ClaimRequest = ClaimRequest(publicId: Id, challengeId: Id, token: string, link: string, published: bool, now: int)

  predicate AttributionTaken(claims: map<Id, Claim>, campaignId: Id, customer: string) {
    exists c <- claims :: claims[c].campaignId == campaignId && claims[c].customer == Some(customer)
  }

  predicate ClaimChallengeHolds(s: Tables, req: ClaimRequest) {
    && FreshVerified(s.challenges, req.challengeId, ForClaim, None, req.now)
    && s.challenges[req.challengeId].target.link == req.link
    && s.challenges[req.challengeId].destination.Some?
  }

  predicate FullWindowAhead(offer: Offer, now: int) {
    offer.status == OfferActive && offer.startsAt <= Date(now) && Date(now) + CLAIM_WINDOW <= offer.endsAt
  }

  function ClaimStep(s: Tables, req: ClaimRequest): Step<Claim> {
    if req.link !in s.links || s.links[req.link].offerId !in s.offers then RollsBack(NotFound)
    else if !ClaimChallengeHolds(s, req) then RollsBack(ChallengeInvalid)
    else
      var link, customer := s.links[req.link], s.challenges[req.challengeId].destination;
      var offer := s.offers[link.offerId];
      if !req.published then RollsBack(NotReady)
      else if offer.status == ClaimsPaused then RollsBack(ClaimsArePaused)
      else if !FullWindowAhead(offer, req.now) then RollsBack(OutsideWindow)
      else if offer.committed >= offer.total then RollsBack(InventoryFull)
      else if req.publicId in s.claims then RollsBack(ConstraintViolated)
      else if AttributionTaken(s.claims, link.campaignId, customer.value) then RollsBack(AttributionLocked)
      else if !InventoryChecks(offer.(committed := offer.committed + 1)) || req.token in s.tokens
              || RotationTaken(s.tokens, req.publicId, 1)
      then RollsBack(ConstraintViolated)
      else
        var claim := Claim(link.offerId, req.link, link.campaignId, link.creatorId, customer, Date(req.now), Date(req.now) + CLAIM_WINDOW,
                           ClaimActive, None, 1);
        Commits(claim, s.(claims := s.claims[req.publicId := claim],
                          offers := s.offers[link.offerId := offer.(committed := offer.committed + 1, version := offer.version + 1)],
                          tokens := s.tokens[req.token := Token(req.publicId, 1, TokenActive, Date(req.now) + TOKEN_LIFE)],
                          challenges := Consume(s.challenges, req.challengeId)))
  }

  // ----- rotating the token

  datatype RecoverRequest = RecoverRequest(claimId: Id, challengeId: Id, token: string, now: int)

  predicate ActiveFor(token: Token, claimId: Id) { token.claimId == claimId && token.status == TokenActive }

  /** The tokens that an update WHERE the claim's token is active returns. */
  function ActiveTokens(tokens: map<string, Token>, claimId: Id): set<string> {
    set k | k in tokens && ActiveFor(tokens[k], claimId)
  }

  function SetActive(tokens: map<string, Token>, claimId: Id, status: TokenStatus): map<string, Token> {
    map k <- tokens :: if ActiveFor(tokens[k], claimId) then tokens[k].(status := status) else tokens[k]
  }

  lemma {:induction false} HighestOf(rotations: set<nat>) returns (r: nat)
    requires rotations != {}
    ensures r in rotations && forall other :: other in rotations ==> other <= r
    decreases |rotations|
  {
    r :| r in rotations;
    if rotations - {r} != {} {
      var h := HighestOf(rotations - {r});
      forall other | other in rotations ensures other <= r || other <= h {
        assert other == r || other in rotations - {r};
      }
      r := if r > h then r else h;
    }
  }

  lemma SomeRotationIsHighest(rotations: set<nat>)
    requires rotations != {}
    ensures exists r :: r in rotations && forall other :: other in rotations ==> other <= r
  {
    var r := HighestOf(rotations);
  }

  /** The rotation in the returned row, or 0 when the update returned none. */
  function ReturnedRotation(tokens: map<string, Token>, claimId: Id): nat {
    var rotations := set k | k in ActiveTokens(tokens, claimId) :: tokens[k].rotation;
    if rotations == {} then 0
    else
      SomeRotationIsHighest(rotations);
      var r :| r in rotations && forall other <- rotations :: other <= r;
      r
  }

  predicate RotationTaken(tokens: map<string, Token>, claimId: Id, rotation: nat) {
    exists k <- tokens :: tokens[k].claimId == claimId && tokens[k].rotation == rotation
  }

  function Least(x: int, y: int): int { if x <= y then x else y }

  function RecoverStep(s: Tables, req: RecoverRequest): Step<nat> {
    if req.claimId !in s.claims || s.claims[req.claimId].status != ClaimActive then RollsBack(AccessDenied)
    else
      var claim := s.claims[req.claimId];
      if !FreshVerified(s.challenges, req.challengeId, ForRecovery, Some(req.claimId), req.now)
         || s.challenges[req.challengeId].destination != claim.customer
      then RollsBack(ChallengeInvalid)
      else if Date(req.now) >= claim.expiresAt then RollsBack(TokenExpiredError)
      else
        var rotation := ReturnedRotation(s.tokens, req.claimId) + 1;
        if req.token in s.tokens || RotationTaken(s.tokens, req.claimId, rotation) then RollsBack(ConstraintViolated)
        else
          var token := Token(req.claimId, rotation, TokenActive, Least(Date(req.now) + TOKEN_LIFE, claim.expiresAt));
          Commits(rotation, s.(tokens := SetActive(s.tokens, req.claimId, TokenRevoked)[req.token := token],
                               challenges := Consume(s.challenges, req.challengeId)))
  }

  // ----- redeeming

  /** `mayScan`: the actor may redeem at the venue now. */
  datatype RedeemRequest = RedeemRequest(token: string, offerConfirmed: bool, locationId: Id, mayScan: bool, kind: FulfillmentKind,
                                         substitute: Option<(string, int)>, substituteStated: bool, acceptanceId: Id, now: int, year: Year)

  predicate HasOpenIncident(incidents: map<Id, Incident>, claimId: Id) {
    exists i <- incidents :: incidents[i].claimId == claimId && incidents[i].status == IncidentOpen
  }

  predicate FulfillmentMatches(offer: Offer, req: RedeemRequest) {
    match req.kind
    case OriginalOffer => req.substitute.None?
    case PreapprovedSubstitute =>
      req.substitute.Some? && req.substituteStated && req.substitute.value.1 >= offer.value && offer.substitute == req.substitute
    case CustomerAcceptedSubstitute => req.substitute.Some? && req.substituteStated && req.substitute.value.1 >= offer.value
  }

  predicate TokenUsed(redemptions: map<Id, Redemption>, token: string) {
    exists c <- redemptions :: redemptions[c].token == token
  }

  /** When a claim has ended, the contacts behind it and its customer's are kept at least as long as the claim's customer. */
  function KeepContacts(challenges: map<Id, Challenge>, claimId: Id, customer: Option<string>, until: int): map<Id, Challenge> {
    map id <- challenges ::
      if challenges[id].target.claimId == Some(claimId) || (customer.Some? && challenges[id].destination == customer)
      then challenges[id].(linkageUntil := if until > challenges[id].linkageUntil then until else challenges[id].linkageUntil) else challenges[id]
  }

  /** What stands against redeeming the token's claim, in the order it is checked. */
  function RedeemRefusal(s: Tables, req: RedeemRequest): Option<Error> {
    if !req.offerConfirmed then Some(OfferInvalid)
    else if req.token !in s.tokens then Some(TokenInvalid)
    else
      var token := s.tokens[req.token];
      if token.status == TokenConsumed then Some(TokenReplayed)
      else if token.status != TokenActive then Some(TokenInvalid)
      else if Date(req.now) >= token.expiresAt then Some(TokenExpiredError)
      else if token.claimId !in s.claims then Some(NotFound)
      else
        var claim := s.claims[token.claimId];
        if claim.status == ClaimRedeemed then Some(AlreadyRedeemed)
        else if claim.status != ClaimActive || Date(req.now) >= claim.expiresAt then Some(TokenExpiredError)
        else if HasOpenIncident(s.incidents, token.claimId) then Some(ReviewRequired)
        else if claim.offerId !in s.offers then Some(NotFound)
        else if s.offers[claim.offerId].locationId != req.locationId then Some(WrongVenue)
        else if !req.mayScan then Some(AccessDenied)
        else if !FulfillmentMatches(s.offers[claim.offerId], req) then Some(OfferInvalid)
        else if req.kind == CustomerAcceptedSubstitute
                && !FreshVerified(s.challenges, req.acceptanceId, ForSubstitute, Some(token.claimId), req.now)
        then Some(ChallengeInvalid)
        else if token.claimId in s.redemptions || TokenUsed(s.redemptions, req.token)
                || !InventoryChecks(s.offers[claim.offerId].(redeemed := s.offers[claim.offerId].redeemed + 1))
        then Some(ConstraintViolated)
        else None
  }

  function RedeemStep(s: Tables, req: RedeemRequest): Step<Redemption> {
    var refusal := RedeemRefusal(s, req);
    if refusal.Some? then RollsBack(refusal.value)
    else
      var token := s.tokens[req.token];
      var claim := s.claims[token.claimId];
      var offer := s.offers[claim.offerId];
      var redemption := Redemption(req.token, Date(req.now), req.kind);
      Commits(redemption,
              s.(redemptions := s.redemptions[token.claimId := redemption],
                 tokens := s.tokens[req.token := token.(status := TokenConsumed)],
                 challenges := KeepContacts(if req.kind == CustomerAcceptedSubstitute then Consume(s.challenges, req.acceptanceId) else s.challenges,
                                            token.claimId, claim.customer, Date(req.now) + req.year),
                 claims := s.claims[token.claimId := claim.(status := ClaimRedeemed, customerUntil := Some(Date(req.now) + req.year),
                                                            version := claim.version + 1)],
                 offers := s.offers[claim.offerId := offer.(redeemed := offer.redeemed + 1, version := offer.version + 1)]))
  }

  // ----- expiring

  datatype ExpireRequest = ExpireRequest(claimId: Id, now: int, year: Year)

  function ExpireStep(s: Tables, req: ExpireRequest): Step<Claim> {
    if req.claimId !in s.claims then RollsBack(NotFound)
    else
      var claim := s.claims[req.claimId];
      if claim.status != ClaimActive || Date(req.now) < claim.expiresAt then RollsBack(OutsideWindow)
      else if claim.offerId !in s.offers
              || !InventoryChecks(s.offers[claim.offerId].(committed := s.offers[claim.offerId].committed - 1))
      then RollsBack(ConstraintViolated)
      else
        var offer, updated := s.offers[claim.offerId], claim.(status := ClaimExpired, customerUntil := Some(Date(req.now) + req.year),
                                                                     version := claim.version + 1);
        Commits(updated, s.(claims := s.claims[req.claimId := updated],
                            challenges := KeepContacts(s.challenges, req.claimId, claim.customer, Date(req.now) + req.year),
                            offers := s.offers[claim.offerId := offer.(committed := offer.committed - 1, version := offer.version + 1)],
                            tokens := SetActive(s.tokens, req.claimId, TokenExpired)))
  }

  // ----- fulfillment problems

  datatype ReportRequest = ReportRequest(publicId: Id, claimId: Id, challengeId: Id, stated: bool, now: int)

  function ReportStep(s: Tables, req: ReportRequest): Step<Id> {
    if !req.stated then RollsBack(OfferInvalid)
    else if req.claimId !in s.claims || s.claims[req.claimId].offerId !in s.offers || s.claims[req.claimId].status != ClaimActive
            || Date(req.now) >= s.claims[req.claimId].expiresAt
    then RollsBack(NotFound)
    else
      var claim := s.claims[req.claimId];
      if !FreshVerified(s.challenges, req.challengeId, ForRefusalReport, Some(req.claimId), req.now)
         || s.challenges[req.challengeId].destination != claim.customer
      then RollsBack(ChallengeInvalid)
      else if req.publicId in s.incidents || HasOpenIncident(s.incidents, req.claimId)
              || (exists i <- s.incidents :: s.incidents[i].challengeId == req.challengeId)
      then RollsBack(ConstraintViolated)
      else
        var incident := Incident(req.claimId, s.offers[claim.offerId].businessId, req.challengeId, IncidentOpen);
        Commits(req.publicId, s.(incidents := s.incidents[req.publicId := incident],
                                 challenges := Consume(s.challenges, req.challengeId)))
  }

  datatype ReviewRequest = ReviewRequest(publicId: Id, stated: bool, isReviewer: bool, confirmed: bool, intentional: bool)

  function Confirmed(incidents: map<Id, Incident>, businessId: Id): set<Id> {
    set i | i in incidents && incidents[i].businessId == businessId && incidents[i].status == IncidentConfirmed
  }

  /** Pauses the business's active offers. */
  function PauseOffers(offers: map<Id, Offer>, businessId: Id): map<Id, Offer> {
    map o <- offers ::
      if offers[o].businessId == businessId && offers[o].status == OfferActive
      then offers[o].(status := ClaimsPaused, version := offers[o].version + 1) else offers[o]
  }

  function ReviewStep(s: Tables, req: ReviewRequest): Step<bool> {
    if !req.stated then RollsBack(OfferInvalid)
    else if !req.isReviewer then RollsBack(AccessDenied)
    else if req.publicId !in s.incidents || s.incidents[req.publicId].status != IncidentOpen then RollsBack(ReviewRequired)
    else
      var businessId := s.incidents[req.publicId].businessId;
      var incident := s.incidents[req.publicId].(status := if req.confirmed then IncidentConfirmed else IncidentDismissed);
      var incidents := s.incidents[req.publicId := incident];
      var pauses := req.confirmed && (req.intentional || |Confirmed(incidents, businessId)| >= 2);
      var offers := if pauses then PauseOffers(s.offers, businessId) else s.offers;
      Commits(offers != s.offers, s.(incidents := incidents, offers := offers))
  }

  // ----- the customer's status, and data due for deletion

  datatype StatusView = StatusView(claimId: Id, challengeId: Id, now: int)

  function CustomerStatusStep(s: Tables, req: StatusView): Step<ClaimStatus> {
    if req.claimId !in s.claims then RollsBack(NotFound)
    else if !FreshVerified(s.challenges, req.challengeId, ForStatus, Some(req.claimId), req.now)
            || s.challenges[req.challengeId].destination != s.claims[req.claimId].customer
    then RollsBack(AccessDenied)
    else Commits(s.claims[req.claimId].status, s.(challenges := Consume(s.challenges, req.challengeId)))
  }

  function ForgetCustomers(claims: map<Id, Claim>, now: int): map<Id, Claim> {
    map c <- claims ::
      if claims[c].customerUntil.Some? && claims[c].customerUntil.value <= now then claims[c].(customer := None) else claims[c]
  }

  function ForgetContacts(challenges: map<Id, Challenge>, now: int): map<Id, Challenge> {
    map id <- challenges ::
      if challenges[id].linkageUntil <= now then challenges[id].(destination := None, risk := None, otp := None) else challenges[id]
  }

  /** Forgets what is past its date. */
  function PurgeStep(s: Tables, now: int): Step<()> {
    Commits((), s.(challenges := ForgetContacts(s.challenges, now), claims := ForgetCustomers(s.claims, now)))
  }

  class LocalPassStore {
    const pool: Database

    constructor (pool: Database)
      ensures this.pool == pool
    {
      this.pool := pool;
    }

    method ClaimPass(req: ClaimRequest) returns (r: Result<Claim, Error>)
      modifies pool
      ensures r == Outcome(ClaimStep(old(pool.tables), req))
      ensures pool.tables == After(old(pool.tables), ClaimStep(old(pool.tables), req))
    {
      var s := pool.tables;
      if req.link !in s.links || s.links[req.link].offerId !in s.offers {
        return Failure(NotFound);
      }
      var link := s.links[req.link];
      if !ClaimChallengeHolds(s, req) {
        return Failure(ChallengeInvalid);
      }
      var customer := s.challenges[req.challengeId].destination;
      var offer := s.offers[link.offerId];
      if !req.published {
        return Failure(NotReady);
      }
      if offer.status == ClaimsPaused {
        return Failure(ClaimsArePaused);
      }
      if !FullWindowAhead(offer, req.now) {
        return Failure(OutsideWindow);
      }
      if offer.committed >= offer.total {
        return Failure(InventoryFull);
      }
      if req.publicId in s.claims {
        return Failure(ConstraintViolated);
      }
      if AttributionTaken(s.claims, link.campaignId, customer.value) {
        return Failure(AttributionLocked);
      }
      var claim := Claim(link.offerId, req.link, link.campaignId, link.creatorId, customer, Date(req.now), Date(req.now) + CLAIM_WINDOW,
                         ClaimActive, None, 1);
      var claims := s.claims[req.publicId := claim];
      offer := offer.(committed := offer.committed + 1, version := offer.version + 1);
      if !InventoryChecks(offer) {
        return Failure(ConstraintViolated);
      }
      var offers := s.offers[link.offerId := offer];
      if req.token in s.tokens || RotationTaken(s.tokens, req.publicId, 1) {
        return Failure(ConstraintViolated);
      }
      var tokens := s.tokens[req.token := Token(req.publicId, 1, TokenActive, Date(req.now) + TOKEN_LIFE)];
      var challenges := Consume(s.challenges, req.challengeId);
      pool.tables := s.(claims := claims, offers := offers, tokens := tokens, challenges := challenges);
      return Success(claim);
    }

    method RecoverActivePass(req: RecoverRequest) returns (r: Result<nat, Error>)
      modifies pool
      ensures r == Outcome(RecoverStep(old(pool.tables), req))
      ensures pool.tables == After(old(pool.tables), RecoverStep(old(pool.tables), req))
    {
      var s := pool.tables;
      if req.claimId !in s.claims || s.claims[req.claimId].status != ClaimActive {
        return Failure(AccessDenied);
      }
      var claim := s.claims[req.claimId];
      if !FreshVerified(s.challenges, req.challengeId, ForRecovery, Some(req.claimId), req.now)
         || s.challenges[req.challengeId].destination != claim.customer {
        return Failure(ChallengeInvalid);
      }
      if Date(req.now) >= claim.expiresAt {
        return Failure(TokenExpiredError);
      }
      var rotation := ReturnedRotation(s.tokens, req.claimId) + 1;
      var tokens := SetActive(s.tokens, req.claimId, TokenRevoked);
      if req.token in tokens || RotationTaken(s.tokens, req.claimId, rotation) {
        return Failure(ConstraintViolated);
      }
      tokens := tokens[req.token := Token(req.claimId, rotation, TokenActive, Least(Date(req.now) + TOKEN_LIFE, claim.expiresAt))];
      var challenges := Consume(s.challenges, req.challengeId);
      pool.tables := s.(tokens := tokens, challenges := challenges);
      return Success(rotation);
    }

    method RedeemPass(req: RedeemRequest) returns (r: Result<Redemption, Error>)
      modifies pool
      ensures r == Outcome(RedeemStep(old(pool.tables), req))
      ensures pool.tables == After(old(pool.tables), RedeemStep(old(pool.tables), req))
    {
      var s := pool.tables;
      var refusal := RedeemRefusal(s, req);
      if refusal.Some? {
        return Failure(refusal.value);
      }
      var token := s.tokens[req.token];
      var claim := s.claims[token.claimId];
      var offer := s.offers[claim.offerId];
      var redemption := Redemption(req.token, Date(req.now), req.kind);
      var redemptions := s.redemptions[token.claimId := redemption];
      var tokens := s.tokens[req.token := token.(status := TokenConsumed)];
      var challenges := s.challenges;
      if req.kind == CustomerAcceptedSubstitute {
        challenges := Consume(challenges, req.acceptanceId);
      }
      var until := Date(req.now) + req.year;
      var claims := s.claims[token.claimId := claim.(status := ClaimRedeemed, customerUntil := Some(until), version := claim.version + 1)];
      challenges := KeepContacts(challenges, token.claimId, claim.customer, until);
      var offers := s.offers[claim.offerId := offer.(redeemed := offer.redeemed + 1, version := offer.version + 1)];
      pool.tables := s.(redemptions := redemptions, tokens := tokens, challenges := challenges, claims := claims, offers := offers);
      return Success(redemption);
    }

    method ExpireClaim(req: ExpireRequest) returns (r: Result<Claim, Error>)
      modifies pool
      ensures r == Outcome(ExpireStep(old(pool.tables), req))
      ensures pool.tables == After(old(pool.tables), ExpireStep(old(pool.tables), req))
    {
      var s := pool.tables;
      if req.claimId !in s.claims {
        return Failure(NotFound);
      }
      var claim := s.claims[req.claimId];
      if claim.status != ClaimActive || Date(req.now) < claim.expiresAt {
        return Failure(OutsideWindow);
      }
      if claim.offerId !in s.offers {
        return Failure(ConstraintViolated);
      }
      var until := Date(req.now) + req.year;
      var updated := claim.(status := ClaimExpired, customerUntil := Some(until), version := claim.version + 1);
      var claims := s.claims[req.claimId := updated];
      var offer := s.offers[claim.offerId];
      offer := offer.(committed := offer.committed - 1, version := offer.version + 1);
      if !InventoryChecks(offer) {
        return Failure(ConstraintViolated);
      }
      var offers := s.offers[claim.offerId := offer];
      var tokens := SetActive(s.tokens, req.claimId, TokenExpired);
      var challenges := KeepContacts(s.challenges, req.claimId, claim.customer, until);
      pool.tables := s.(claims := claims, offers := offers, tokens := tokens, challenges := challenges);
      return Success(updated);
    }

    method ChangeOfferStatus(req: StatusRequest, from: OfferStatus, to: OfferStatus) returns (r: Result<Offer, Error>)
      modifies pool
      ensures r == Outcome(ChangeStatusStep(old(pool.tables), req, from, to))
      ensures pool.tables == After(old(pool.tables), ChangeStatusStep(old(pool.tables), req, from, to))
    {
      var s := pool.tables;
      if req.offerId !in s.offers || !req.managesBusiness {
        return Failure(AccessDenied);
      }
      var offer := s.offers[req.offerId];
      if !req.published || offer.status != from {
        return Failure(NotReady);
      }
      offer := offer.(status := to, version := offer.version + 1);
      pool.tables := s.(offers := s.offers[req.offerId := offer]);
      return Success(offer);
    }

    method PurgeDueCustomerData(now: int)
      modifies pool
      ensures pool.tables == After(old(pool.tables), PurgeStep(old(pool.tables), now))
    {
      var s := pool.tables;
      var challenges := ForgetContacts(s.challenges, now);
      var claims := ForgetCustomers(s.claims, now);
      pool.tables := s.(challenges := challenges, claims := claims);
    }
  }
}
