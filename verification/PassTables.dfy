/** The Local Pass rows. Times are microseconds, as the database keeps them; the program sees whole milliseconds.
    Claim tokens and creator links are keyed by the secret whose hash is unique. */
module PassTables {
  import opened Wrappers

  type Id = string

  const SECOND := 1000000
  const MINUTE := 60 * SECOND
  const DAY := 24 * 60 * MINUTE

  /** How long twelve months are counted to be; in any calendar and time zone at least 360 days. */
  type Year = x: int | 360 * DAY <= x witness 360 * DAY

  /** A database time as a JavaScript Date. */
  function Date(now: int): int { now - now % 1000 }

  datatype OfferStatus = Configured | OfferActive | ClaimsPaused

  datatype Offer = Offer(campaignId: Id, businessId: Id, locationId: Id, startsAt: int, endsAt: int, value: int,
                         substitute: Option<(string, int)>, total: int, committed: int, redeemed: int, status: OfferStatus, version: int)

  datatype Link = Link(offerId: Id, campaignId: Id, assignmentId: Id, creatorId: Id)

  datatype ClaimStatus = ClaimActive | ClaimRedeemed | ClaimExpired

  datatype Claim = Claim(offerId: Id, link: string, campaignId: Id, creatorId: Id, customer: Option<string>, claimedAt: int,
                         expiresAt: int, status: ClaimStatus, customerUntil: Option<int>, version: int)

  datatype TokenStatus = TokenActive | TokenRevoked | TokenConsumed | TokenExpired

  datatype Token = Token(claimId: Id, rotation: nat, status: TokenStatus, expiresAt: int)

  datatype Purpose = ForClaim | ForRecovery | ForRefusalReport | ForSubstitute | ForStatus

  datatype ChallengeStatus = Pending | Verified | Consumed | Superseded | Locked | ChallengeExpired

  /** What a challenge is for; a claim challenge has no claim yet. */
  datatype Target = Target(purpose: Purpose, link: string, claimId: Option<Id>)

  datatype Challenge = Challenge(target: Target, destination: Option<string>, risk: Option<string>, otp: Option<string>,
                                 sendNumber: nat, attempts: nat, issuedAt: int, expiresAt: int, linkageUntil: int, status: ChallengeStatus)

  const MAX_VERIFY_ATTEMPTS := 5

  datatype FulfillmentKind = OriginalOffer | PreapprovedSubstitute | CustomerAcceptedSubstitute

  datatype Redemption = Redemption(token: string, at: int, kind: FulfillmentKind)

  datatype IncidentStatus = IncidentOpen | IncidentConfirmed | IncidentDismissed

  datatype Incident = Incident(claimId: Id, businessId: Id, challengeId: Id, status: IncidentStatus)

  // A redemption is keyed by its claim.
  datatype Tables = Tables(offers: map<Id, Offer>, links: map<string, Link>, claims: map<Id, Claim>, tokens: map<string, Token>,
                           challenges: map<Id, Challenge>, redemptions: map<Id, Redemption>, incidents: map<Id, Incident>)

  const EMPTY_TABLES := Tables(map[], map[], map[], map[], map[], map[], map[])

  datatype Error =
    | OfferInvalid | AccessDenied | NotReady | NotFound | ChallengeInvalid | RateLimited | ChallengeExpiredError | ChallengeReplayed
    | ClaimsArePaused | OutsideWindow | InventoryFull | AttributionLocked | TokenInvalid | TokenReplayed | TokenExpiredError
    | AlreadyRedeemed | ReviewRequired | WrongVenue | ConstraintViolated

  datatype Step<+T> = Commits(value: T, tables: Tables) | RollsBack(error: Error)

  function After<T>(before: Tables, step: Step<T>): Tables {
    if step.Commits? then step.tables else before
  }

  function Outcome<T>(step: Step<T>): Result<T, Error> {
    if step.Commits? then Success(step.value) else Failure(step.error)
  }

  class Database {
    var tables: Tables

    constructor ()
      ensures tables == EMPTY_TABLES
    {
      tables := EMPTY_TABLES;
    }
  }

  /** A verified challenge of that purpose for that claim, not expired on the database clock. */
  predicate FreshVerified(challenges: map<Id, Challenge>, id: Id, purpose: Purpose, claimId: Option<Id>, now: int) {
    && id in challenges
    && challenges[id].status == Verified
    && challenges[id].target.purpose == purpose
    && challenges[id].target.claimId == claimId
    && challenges[id].expiresAt > now
  }

  function Consume(challenges: map<Id, Challenge>, id: Id): map<Id, Challenge>
    requires id in challenges
  {
    challenges[id := challenges[id].(status := Consumed)]
  }
}
