/** One-time-code challenges: rate limits, supersession and verification. */
module PassChallenges {
  import opened Wrappers
  import opened PassTables

  const RATE_WINDOW := 15 * MINUTE
  const RATE_LIMIT := 3

  /** `wellFormed`: code, ciphertext and risk signal have the required shape; `published`: the link's campaign is
      published. Destination and risk stand for their keyed hashes. */
  datatype IssueRequest = IssueRequest(publicId: Id, purpose: Purpose, link: string, claimId: Id, destination: string, risk: string,
                                       otp: string, wellFormed: bool, published: bool, now: int, year: Year)

  function TargetOf(s: Tables, req: IssueRequest): Option<Target> {
    if req.purpose == ForClaim then
      if req.link in s.links && s.links[req.link].offerId in s.offers && req.published
         && s.offers[s.links[req.link].offerId].status in {OfferActive, ClaimsPaused}
      then Some(Target(ForClaim, req.link, None)) else None
    else if req.claimId in s.claims && s.claims[req.claimId].status == ClaimActive && s.claims[req.claimId].expiresAt > req.now
    then Some(Target(req.purpose, s.claims[req.claimId].link, Some(req.claimId))) else None
  }

  // ----- rate limits

  predicate Recent(challenge: Challenge, now: int) { challenge.issuedAt > now - RATE_WINDOW }

  function SameDestination(challenges: map<Id, Challenge>, destination: string): set<Id> {
    set id | id in challenges && challenges[id].destination == Some(destination)
  }

  function SameRisk(challenges: map<Id, Challenge>, risk: string): set<Id> {
    set id | id in challenges && challenges[id].risk == Some(risk)
  }

  function SameLink(challenges: map<Id, Challenge>, link: string): set<Id> {
    set id | id in challenges && challenges[id].target.link == link
  }

  function Recents(challenges: map<Id, Challenge>, ids: set<Id>, now: int): set<Id> {
    set id | id in ids && id in challenges && Recent(challenges[id], now)
  }

  function Max(x: int, y: int): int { if x >= y then x else y }

  /** The most crowded of the three counts. */
  function Load(challenges: map<Id, Challenge>, target: Target, req: IssueRequest): nat {
    Max(|Recents(challenges, SameDestination(challenges, req.destination), req.now)|,
        Max(|Recents(challenges, SameRisk(challenges, req.risk), req.now)|,
            |Recents(challenges, SameLink(challenges, target.link), req.now)|))
  }

  /** The latest challenge to the destination for the target was issued less than a minute ago. */
  predicate TooSoon(challenges: map<Id, Challenge>, target: Target, req: IssueRequest) {
    exists id <- challenges ::
      && challenges[id].destination == Some(req.destination) && challenges[id].target == target
      && Recent(challenges[id], req.now)
      && Date(req.now) - challenges[id].issuedAt < MINUTE
  }

  function Supersede(challenges: map<Id, Challenge>, target: Target): map<Id, Challenge> {
    map id <- challenges ::
      if challenges[id].target == target && challenges[id].status in {Pending, Verified}
      then challenges[id].(status := Superseded) else challenges[id]
  }

  function IssueStep(s: Tables, req: IssueRequest): Step<Challenge> {
    var target := TargetOf(s, req);
    if !req.wellFormed then RollsBack(ChallengeInvalid)
    else if target.None? then RollsBack(NotFound)
    else if req.purpose != ForClaim && s.claims[req.claimId].customer != Some(req.destination) then RollsBack(AccessDenied)
    else if TooSoon(s.challenges, target.value, req) || Load(s.challenges, target.value, req) >= RATE_LIMIT then RollsBack(RateLimited)
    else if req.publicId in s.challenges then RollsBack(ConstraintViolated)
    else
      var challenge := Challenge(target.value, Some(req.destination), Some(req.risk), Some(req.otp), Load(s.challenges, target.value, req) + 1,
                                 0, Date(req.now), Date(req.now) + 5 * MINUTE, Date(req.now) + 5 * MINUTE + req.year, Pending);
      Commits(challenge, s.(challenges := Supersede(s.challenges, target.value)[req.publicId := challenge]))
  }

  // ----- verification

  datatype Verdict = CodeInvalid | CodeReplayed | CodeExpired | CodeLocked | CodeVerified

  datatype VerifyRequest = VerifyRequest(publicId: Id, otp: string, wellFormed: bool, now: int)

  /** The row of a pending challenge after a code was tried on it. */
  function Tried(challenge: Challenge, otp: string, now: int): Challenge {
    if Date(now) >= challenge.expiresAt then challenge.(status := ChallengeExpired)
    else if challenge.otp == Some(otp) then challenge.(status := Verified)
    else
      challenge.(attempts := challenge.attempts + 1, status := if challenge.attempts + 1 >= MAX_VERIFY_ATTEMPTS then Locked else Pending)
  }

  function VerdictOn(tried: Challenge): Verdict {
    match tried.status
    case ChallengeExpired => CodeExpired
    case Verified => CodeVerified
    case Locked => CodeLocked
    case _ => CodeInvalid
  }

  /** Verification commits what it learns even when it then reports an error. */
  function VerifyStep(s: Tables, req: VerifyRequest): Step<Verdict> {
    if !req.wellFormed then RollsBack(ChallengeInvalid)
    else if req.publicId !in s.challenges || s.challenges[req.publicId].otp.None? then Commits(CodeInvalid, s)
    else
      var challenge := s.challenges[req.publicId];
      if challenge.status in {Verified, Consumed} then Commits(CodeReplayed, s)
      else if challenge.status != Pending then Commits(CodeInvalid, s)
      else
        var tried := Tried(challenge, req.otp, req.now);
        Commits(VerdictOn(tried), s.(challenges := s.challenges[req.publicId := tried]))
  }

  lemma VerifyTriesOneRow(s: Tables, req: VerifyRequest)
    ensures var step := VerifyStep(s, req);
            step.Commits? ==>
              || step.tables == s
              || (&& req.publicId in s.challenges && s.challenges[req.publicId].status == Pending
                  && step.tables == s.(challenges := s.challenges[req.publicId := Tried(s.challenges[req.publicId], req.otp, req.now)]))
  {
    hide Date;
  }

  function Report(verdict: Verdict, s: Tables, publicId: Id): Result<Challenge, Error> {
    match verdict
    case CodeExpired => Failure(ChallengeExpiredError)
    case CodeReplayed => Failure(ChallengeReplayed)
    case CodeLocked => Failure(RateLimited)
    case CodeInvalid => Failure(ChallengeInvalid)
    case CodeVerified => if publicId in s.challenges then Success(s.challenges[publicId]) else Failure(ChallengeInvalid)
  }

  class ChallengeDesk {
    const pool: Database

    constructor (pool: Database)
      ensures this.pool == pool
    {
      this.pool := pool;
    }

    method IssueCustomerChallenge(req: IssueRequest) returns (r: Result<Challenge, Error>)
      modifies pool
      ensures r == Outcome(IssueStep(old(pool.tables), req))
      ensures pool.tables == After(old(pool.tables), IssueStep(old(pool.tables), req))
    {
      if !req.wellFormed {
        return Failure(ChallengeInvalid);
      }
      var s := pool.tables;
      var target := TargetOf(s, req);
      if target.None? {
        return Failure(NotFound);
      }
      if req.purpose != ForClaim && s.claims[req.claimId].customer != Some(req.destination) {
        return Failure(AccessDenied);
      }
      var destinationCount := |Recents(s.challenges, SameDestination(s.challenges, req.destination), req.now)|;
      var riskCount := |Recents(s.challenges, SameRisk(s.challenges, req.risk), req.now)|;
      var linkCount := |Recents(s.challenges, SameLink(s.challenges, target.value.link), req.now)|;
      if TooSoon(s.challenges, target.value, req) || destinationCount >= RATE_LIMIT || riskCount >= RATE_LIMIT || linkCount >= RATE_LIMIT {
        return Failure(RateLimited);
      }
      var challenges := Supersede(s.challenges, target.value);
      var sendNumber := Max(destinationCount, Max(riskCount, linkCount)) + 1;
      if req.publicId in challenges {
        return Failure(ConstraintViolated);
      }
      var challenge := Challenge(target.value, Some(req.destination), Some(req.risk), Some(req.otp), sendNumber, 0, Date(req.now),
                                 Date(req.now) + 5 * MINUTE, Date(req.now) + 5 * MINUTE + req.year, Pending);
      challenges := challenges[req.publicId := challenge];
      pool.tables := s.(challenges := challenges);
      return Success(challenge);
    }

    method VerifyCustomerChallenge(req: VerifyRequest) returns (r: Result<Challenge, Error>)
      modifies pool
      ensures pool.tables == After(old(pool.tables), VerifyStep(old(pool.tables), req))
      ensures var step := VerifyStep(old(pool.tables), req);
              r == if step.RollsBack? then Failure(step.error) else Report(step.value, pool.tables, req.publicId)
    {
      if !req.wellFormed {
        return Failure(ChallengeInvalid);
      }
      var s := pool.tables;
      if req.publicId !in s.challenges || s.challenges[req.publicId].otp.None? {
        return Failure(ChallengeInvalid);
      }
      var challenge := s.challenges[req.publicId];
      if challenge.status == Verified || challenge.status == Consumed {
        return Failure(ChallengeReplayed);
      }
      if challenge.status != Pending {
        return Failure(ChallengeInvalid);
      }
      if Date(req.now) >= challenge.expiresAt {
        pool.tables := s.(challenges := s.challenges[req.publicId := challenge.(status := ChallengeExpired)]);
        return Failure(ChallengeExpiredError);
      }
      if challenge.otp != Some(req.otp) {
        var attempts := challenge.attempts + 1;
        var updated := challenge.(attempts := attempts);
        if attempts >= MAX_VERIFY_ATTEMPTS {
          updated := updated.(status := Locked);
        }
        pool.tables := s.(challenges := s.challenges[req.publicId := updated]);
        return Failure(if attempts >= MAX_VERIFY_ATTEMPTS then RateLimited else ChallengeInvalid);
      }
      pool.tables := s.(challenges := s.challenges[req.publicId := challenge.(status := Verified)]);
      return Success(pool.tables.challenges[req.publicId]);
    }
  }

  // ----- what the limits guarantee, whatever the order in which the transactions' clocks commit

  function Within(challenges: map<Id, Challenge>, ids: set<Id>, from: int): set<Id> {
    set id | id in ids && id in challenges && from <= challenges[id].issuedAt < from + RATE_WINDOW
  }

  ghost predicate WindowsHold(challenges: map<Id, Challenge>) {
    && (forall destination, from :: |Within(challenges, SameDestination(challenges, destination), from)| <= RATE_LIMIT)
    && (forall risk, from :: |Within(challenges, SameRisk(challenges, risk), from)| <= RATE_LIMIT)
    && (forall link, from :: |Within(challenges, SameLink(challenges, link), from)| <= RATE_LIMIT)
  }

  predicate Live(challenge: Challenge) { challenge.status in {Pending, Verified} }

  /** Challenges of one destination for one target are a minute apart. */
  predicate Apart(x: Challenge, y: Challenge) {
    x.destination.Some? && x.destination == y.destination && x.target == y.target ==>
      x.issuedAt - y.issuedAt >= MINUTE || y.issuedAt - x.issuedAt >= MINUTE
  }

  ghost predicate Spaced(challenges: map<Id, Challenge>) {
    forall x, y :: x in challenges && y in challenges && x != y ==> Apart(challenges[x], challenges[y])
  }

  ghost predicate OneLiveEach(challenges: map<Id, Challenge>) {
    forall x, y :: x in challenges && y in challenges && Live(challenges[x]) && Live(challenges[y]) ==>
                     challenges[x].target == challenges[y].target ==> x == y
  }

  ghost predicate WellKept(challenges: map<Id, Challenge>) {
    forall id :: id in challenges ==>
      && challenges[id].issuedAt % 1000 == 0
      && 1 <= challenges[id].sendNumber <= RATE_LIMIT
      && challenges[id].attempts <= MAX_VERIFY_ATTEMPTS
      && (challenges[id].status == Pending ==> challenges[id].attempts < MAX_VERIFY_ATTEMPTS)
  }

  ghost predicate ChallengesHold(challenges: map<Id, Challenge>) {
    WellKept(challenges) && WindowsHold(challenges) && Spaced(challenges) && OneLiveEach(challenges)
  }

  lemma SubsetHasFewer<T>(small: set<T>, large: set<T>)
    requires small <= large
    ensures |small| <= |large|
    decreases |small|
  {
    if small != {} {
      var x :| x in small;
      SubsetHasFewer(small - {x}, large - {x});
    }
  }

  lemma WholeMilliseconds(issuedAt: int, now: int)
    requires issuedAt % 1000 == 0 && Date(now) - issuedAt < RATE_WINDOW
    ensures issuedAt > now - RATE_WINDOW
  {
    var i, n := issuedAt / 1000, now / 1000;
    assert issuedAt == 1000 * i && Date(now) == 1000 * n;
  }

  /** Of the rows already there, those in a window with the new one were all counted. */
  lemma WindowOfNewRow(challenges: map<Id, Challenge>, ids: set<Id>, now: int, from: int)
    requires WellKept(challenges) && from <= Date(now) < from + RATE_WINDOW && |Recents(challenges, ids, now)| < RATE_LIMIT
    ensures |Within(challenges, ids, from)| < RATE_LIMIT
  {
    forall id | id in Within(challenges, ids, from) ensures id in Recents(challenges, ids, now) {
      WholeMilliseconds(challenges[id].issuedAt, now);
    }
    SubsetHasFewer(Within(challenges, ids, from), Recents(challenges, ids, now));
  }

  /** Two lists of rows that agree on identity and time agree on every window. */
  lemma SupersedingKeepsWindows(challenges: map<Id, Challenge>, target: Target)
    ensures forall destination :: SameDestination(Supersede(challenges, target), destination) == SameDestination(challenges, destination)
    ensures forall risk :: SameRisk(Supersede(challenges, target), risk) == SameRisk(challenges, risk)
    ensures forall link :: SameLink(Supersede(challenges, target), link) == SameLink(challenges, link)
    ensures forall ids, from :: Within(Supersede(challenges, target), ids, from) == Within(challenges, ids, from)
  {
  }

  lemma AddingToWindow(challenges: map<Id, Challenge>, before: set<Id>, after: set<Id>, id: Id, challenge: Challenge, from: int, now: int)
    requires WellKept(challenges) && id !in challenges && after <= before + {id} && before <= challenges.Keys
    requires |Within(challenges, before, from)| <= RATE_LIMIT
    requires challenge.issuedAt == Date(now) && (id in after ==> |Recents(challenges, before, now)| < RATE_LIMIT)
    ensures |Within(challenges[id := challenge], after, from)| <= RATE_LIMIT
  {
    var old', new' := Within(challenges, before, from), Within(challenges[id := challenge], after, from);
    if id in new' {
      WindowOfNewRow(challenges, before, now, from);
      SubsetHasFewer(new', old' + {id});
    } else {
      SubsetHasFewer(new', old');
    }
  }

  lemma IssuingKeepsWindows(challenges: map<Id, Challenge>, id: Id, challenge: Challenge, now: int)
    requires WellKept(challenges) && WindowsHold(challenges) && id !in challenges && challenge.issuedAt == Date(now)
    requires challenge.destination.Some? ==> |Recents(challenges, SameDestination(challenges, challenge.destination.value), now)| < RATE_LIMIT
    requires challenge.risk.Some? ==> |Recents(challenges, SameRisk(challenges, challenge.risk.value), now)| < RATE_LIMIT
    requires |Recents(challenges, SameLink(challenges, challenge.target.link), now)| < RATE_LIMIT
    ensures WindowsHold(challenges[id := challenge])
  {
    var after := challenges[id := challenge];
    forall destination, from ensures |Within(after, SameDestination(after, destination), from)| <= RATE_LIMIT {
      AddingToWindow(challenges, SameDestination(challenges, destination), SameDestination(after, destination), id, challenge, from, now);
    }
    forall risk, from ensures |Within(after, SameRisk(after, risk), from)| <= RATE_LIMIT {
      AddingToWindow(challenges, SameRisk(challenges, risk), SameRisk(after, risk), id, challenge, from, now);
    }
    forall link, from ensures |Within(after, SameLink(after, link), from)| <= RATE_LIMIT {
      AddingToWindow(challenges, SameLink(challenges, link), SameLink(after, link), id, challenge, from, now);
    }
  }

  lemma IssuingKeepsBooks(challenges: map<Id, Challenge>, target: Target, id: Id, challenge: Challenge)
    requires WellKept(challenges) && OneLiveEach(challenges) && id !in challenges
    requires challenge.target == target && challenge.status == Pending && challenge.attempts == 0
    requires challenge.issuedAt % 1000 == 0 && 1 <= challenge.sendNumber <= RATE_LIMIT
    ensures WellKept(Supersede(challenges, target)) && WellKept(Supersede(challenges, target)[id := challenge])
    ensures OneLiveEach(Supersede(challenges, target)[id := challenge])
  {
  }

  lemma IssuingOverSuperseded(s: Tables, req: IssueRequest, challenge: Challenge)
    requires IssueStep(s, req).Commits? && IssueStep(s, req).value == challenge && WellKept(s.challenges) && WindowsHold(s.challenges)
    requires WellKept(Supersede(s.challenges, TargetOf(s, req).value))
    ensures WindowsHold(Supersede(s.challenges, TargetOf(s, req).value)[req.publicId := challenge])
  {
    var target, superseded := TargetOf(s, req).value, Supersede(s.challenges, TargetOf(s, req).value);
    SupersedingKeepsWindows(s.challenges, target);
    SupersedingKeepsRecents(s.challenges, target, req.now);
    hide WellKept;
    IssuingKeepsWindows(superseded, req.publicId, challenge, req.now);
  }

  lemma IssueKeepsChallenges(s: Tables, req: IssueRequest)
    requires ChallengesHold(s.challenges)
    ensures ChallengesHold(After(s, IssueStep(s, req)).challenges)
  {
    hide WellKept, WindowsHold, Spaced, OneLiveEach, Supersede, TooSoon;
    var step := IssueStep(s, req);
    if step.Commits? {
      var target := TargetOf(s, req).value;
      IssuingKeepsBooks(s.challenges, target, req.publicId, step.value);
      IssuingOverSuperseded(s, req, step.value);
      IssuingKeepsSpacing(s.challenges, target, req, step.value);
    }
  }

  lemma SupersedingKeepsRecents(challenges: map<Id, Challenge>, target: Target, now: int)
    ensures forall ids :: Recents(Supersede(challenges, target), ids, now) == Recents(challenges, ids, now)
  {
  }

  lemma IssuingKeepsSpacing(challenges: map<Id, Challenge>, target: Target, req: IssueRequest, challenge: Challenge)
    requires Spaced(challenges) && WellKept(challenges) && !TooSoon(challenges, target, req) && req.publicId !in challenges
    requires challenge.destination == Some(req.destination) && challenge.target == target && challenge.issuedAt == Date(req.now)
    ensures Spaced(Supersede(challenges, target)[req.publicId := challenge])
  {
    var after := Supersede(challenges, target)[req.publicId := challenge];
    forall id | id in challenges ensures Apart(challenges[id], challenge) {
    }
    forall x, y | x in after && y in after && x != y ensures Apart(after[x], after[y]) {
      if x != req.publicId && y != req.publicId {
        assert Apart(challenges[x], challenges[y]);
      } else if x == req.publicId {
        assert Apart(challenges[y], challenge);
      } else {
        assert Apart(challenges[x], challenge);
      }
    }
  }

  /** Changing what a challenge has been through keeps everything that its identity and time decide. */
  lemma ChangingStatusKeepsChallenges(challenges: map<Id, Challenge>, id: Id, attempts: nat, status: ChallengeStatus)
    requires ChallengesHold(challenges) && id in challenges
    requires attempts <= MAX_VERIFY_ATTEMPTS && (status == Pending ==> attempts < MAX_VERIFY_ATTEMPTS)
    requires status in {Pending, Verified} ==> Live(challenges[id])
    ensures ChallengesHold(challenges[id := challenges[id].(attempts := attempts, status := status)])
  {
    var after := challenges[id := challenges[id].(attempts := attempts, status := status)];
    assert forall destination :: SameDestination(after, destination) == SameDestination(challenges, destination);
    assert forall risk :: SameRisk(after, risk) == SameRisk(challenges, risk);
    assert forall link :: SameLink(after, link) == SameLink(challenges, link);
    assert forall ids, from :: Within(after, ids, from) == Within(challenges, ids, from);
    forall x, y | x in after && y in after && x != y ensures Apart(after[x], after[y]) {
      assert Apart(challenges[x], challenges[y]);
    }
  }

  lemma PendingHasAttemptsLeft(challenges: map<Id, Challenge>, id: Id)
    requires ChallengesHold(challenges) && id in challenges && challenges[id].status == Pending
    ensures challenges[id].attempts < MAX_VERIFY_ATTEMPTS
  {
  }

  lemma VerifyKeepsChallenges(s: Tables, req: VerifyRequest)
    requires ChallengesHold(s.challenges)
    ensures ChallengesHold(After(s, VerifyStep(s, req)).challenges)
  {
    hide ChallengesHold, VerifyStep;
    var step := VerifyStep(s, req);
    VerifyTriesOneRow(s, req);
    if step.Commits? && step.tables != s {
      var updated := Tried(s.challenges[req.publicId], req.otp, req.now);
      PendingHasAttemptsLeft(s.challenges, req.publicId);
      ChangingStatusKeepsChallenges(s.challenges, req.publicId, updated.attempts, updated.status);
    }
  }

  lemma ConsumingKeepsChallenges(challenges: map<Id, Challenge>, id: Id)
    requires ChallengesHold(challenges) && id in challenges
    ensures ChallengesHold(Consume(challenges, id))
  {
    assert challenges[id].attempts <= MAX_VERIFY_ATTEMPTS;
    hide ChallengesHold;
    ChangingStatusKeepsChallenges(challenges, id, challenges[id].attempts, Consumed);
  }
}
