/** The limits on challenges over everything ever issued, whatever has been purged since. */
module LocalPassHistory {
  import opened Wrappers
  import opened PassTables
  import opened PassChallenges
  import opened PassClaims
  import opened LocalPass

  /** The challenges as they were issued, under their public ids. */
  function Noted(history: map<Id, Challenge>, s: Tables, op: Op): map<Id, Challenge> {
    if op.IssueChallenge? && IssueStep(s, op.issue).Commits? then history[op.issue.publicId := IssueStep(s, op.issue).value] else history
  }

  function History(history: map<Id, Challenge>, s: Tables, ops: seq<Op>): map<Id, Challenge>
    decreases |ops|
  {
    if ops == [] then history else History(Noted(history, s, ops[0]), Perform(s, ops[0]), ops[1..])
  }

  /** Contacts are kept at least this long after their challenge was issued. */
  const RETENTION := 5 * MINUTE + 360 * DAY

  /** What a purge can have left behind in a rate window, unless a later issue reads a clock almost a year older. */
  const SKEW := RETENTION - RATE_WINDOW

  /** No challenge is issued by a clock that far behind the clock of an earlier purge. */
  predicate Steady(ops: seq<Op>) {
    forall i, j :: 0 <= i < j < |ops| && ops[i].PurgeData? && ops[j].IssueChallenge? ==> ops[i].purgedAt - SKEW <= ops[j].issue.now
  }

  // ----- what the table still shows of the history

  /** Every row still shows when and for what it was issued, and to whom unless it is older than any window in use. */
  ghost predicate Shows(challenges: map<Id, Challenge>, history: map<Id, Challenge>, horizon: int) {
    && challenges.Keys == history.Keys
    && forall id :: id in history ==>
         && challenges[id].target == history[id].target && challenges[id].issuedAt == history[id].issuedAt
         && challenges[id].issuedAt + RETENTION <= challenges[id].linkageUntil
         && (history[id].issuedAt > horizon - RATE_WINDOW ==>
               challenges[id].destination == history[id].destination && challenges[id].risk == history[id].risk)
  }

  /** The same rows, issued to the same for the same at the same time. */
  ghost predicate SameContacts(before: map<Id, Challenge>, after: map<Id, Challenge>) {
    && before.Keys == after.Keys
    && forall id :: id in before ==>
         && after[id].target == before[id].target && after[id].issuedAt == before[id].issuedAt
         && after[id].destination == before[id].destination && after[id].risk == before[id].risk
         && before[id].linkageUntil <= after[id].linkageUntil
  }

  lemma SameContactsShow(before: map<Id, Challenge>, after: map<Id, Challenge>, history: map<Id, Challenge>, horizon: int)
    requires Shows(before, history, horizon) && SameContacts(before, after)
    ensures Shows(after, history, horizon)
  {
  }

  lemma RecentsAgree(challenges: map<Id, Challenge>, history: map<Id, Challenge>, horizon: int, now: int)
    requires Shows(challenges, history, horizon) && horizon <= now
    ensures forall destination :: Recents(history, SameDestination(history, destination), now)
                                  == Recents(challenges, SameDestination(challenges, destination), now)
    ensures forall risk :: Recents(history, SameRisk(history, risk), now) == Recents(challenges, SameRisk(challenges, risk), now)
    ensures forall link :: Recents(history, SameLink(history, link), now) == Recents(challenges, SameLink(challenges, link), now)
  {
  }

  lemma CloseIsRecent(issuedAt: int, now: int)
    requires issuedAt % 1000 == 0
    ensures Date(now) - issuedAt < MINUTE ==> issuedAt > now - RATE_WINDOW
  {
    var i, n := issuedAt / 1000, now / 1000;
    assert issuedAt == 1000 * i && Date(now) == 1000 * n;
  }

  lemma HistorySpaced(challenges: map<Id, Challenge>, history: map<Id, Challenge>, horizon: int, target: Target, req: IssueRequest,
                      challenge: Challenge)
    requires Shows(challenges, history, horizon) && horizon <= req.now && Spaced(history) && WellKept(history)
    requires !TooSoon(challenges, target, req) && req.publicId !in history
    requires challenge.destination == Some(req.destination) && challenge.target == target && challenge.issuedAt == Date(req.now)
    ensures Spaced(history[req.publicId := challenge])
  {
    var after := history[req.publicId := challenge];
    forall id | id in history ensures Apart(history[id], challenge) && Apart(challenge, history[id]) {
      CloseIsRecent(history[id].issuedAt, req.now);
    }
    forall x, y | x in after && y in after && x != y ensures Apart(after[x], after[y]) {
      assert x in history && y in history ==> Apart(history[x], history[y]);
    }
  }

  ghost predicate HistoryHolds(history: map<Id, Challenge>) {
    WellKept(history) && WindowsHold(history) && Spaced(history)
  }

  lemma IssuedFacts(s: Tables, req: IssueRequest)
    requires IssueStep(s, req).Commits?
    ensures TargetOf(s, req).Some?
    ensures var target, challenge := TargetOf(s, req).value, IssueStep(s, req).value;
            && IssueStep(s, req).tables.challenges == Supersede(s.challenges, target)[req.publicId := challenge]
            && challenge.target == target && challenge.destination == Some(req.destination) && challenge.risk == Some(req.risk)
            && challenge.issuedAt == Date(req.now) && challenge.issuedAt + RETENTION <= challenge.linkageUntil && challenge.attempts == 0 && 1 <= challenge.sendNumber <= RATE_LIMIT
            && !TooSoon(s.challenges, target, req) && req.publicId !in s.challenges
            && |Recents(s.challenges, SameDestination(s.challenges, req.destination), req.now)| < RATE_LIMIT
            && |Recents(s.challenges, SameRisk(s.challenges, req.risk), req.now)| < RATE_LIMIT
            && |Recents(s.challenges, SameLink(s.challenges, target.link), req.now)| < RATE_LIMIT
  {
    hide TooSoon, Recents, SameDestination, SameRisk, SameLink, Supersede, TargetOf;
  }

  lemma IssuedShows(challenges: map<Id, Challenge>, history: map<Id, Challenge>, horizon: int, target: Target, id: Id, challenge: Challenge)
    requires Shows(challenges, history, horizon) && challenge.issuedAt + RETENTION <= challenge.linkageUntil
    ensures Shows(Supersede(challenges, target)[id := challenge], history[id := challenge], horizon)
  {
  }

  lemma NotedIsWellKept(history: map<Id, Challenge>, id: Id, challenge: Challenge, now: int)
    requires WellKept(history) && challenge.issuedAt == Date(now) && challenge.attempts == 0 && 1 <= challenge.sendNumber <= RATE_LIMIT
    ensures WellKept(history[id := challenge])
  {
    assert Date(now) == 1000 * (now / 1000);
  }

  lemma IssueKeepsHistory(s: Tables, history: map<Id, Challenge>, horizon: int, req: IssueRequest)
    requires Shows(s.challenges, history, horizon) && horizon <= req.now && HistoryHolds(history)
    ensures HistoryHolds(Noted(history, s, IssueChallenge(req)))
    ensures Shows(After(s, IssueStep(s, req)).challenges, Noted(history, s, IssueChallenge(req)), horizon)
  {
    hide WellKept, WindowsHold, Spaced, TooSoon, Recents, SameDestination, SameRisk, SameLink, IssueStep, Supersede, TargetOf;
    var step := IssueStep(s, req);
    if step.Commits? {
      IssuedFacts(s, req);
      assert req.publicId !in history;
      RecentsAgree(s.challenges, history, horizon, req.now);
      hide Shows;
      var target := TargetOf(s, req).value;
      NotedIsWellKept(history, req.publicId, step.value, req.now);
      IssuingKeepsWindows(history, req.publicId, step.value, req.now);
      HistorySpaced(s.challenges, history, horizon, target, req, step.value);
      IssuedShows(s.challenges, history, horizon, target, req.publicId, step.value);
    }
  }

  lemma PurgeShows(challenges: map<Id, Challenge>, history: map<Id, Challenge>, horizon: int, now: int)
    requires Shows(challenges, history, horizon)
    ensures Shows(ForgetContacts(challenges, now), history, Max(horizon, now - SKEW))
  {
  }

  lemma SameContactsAsBefore(challenges: map<Id, Challenge>)
    ensures SameContacts(challenges, challenges)
  {
  }

  lemma ConsumingKeepsContacts(challenges: map<Id, Challenge>, id: Id)
    requires id in challenges
    ensures SameContacts(challenges, Consume(challenges, id))
  {
  }

  lemma ChangingStatusKeepsContacts(challenges: map<Id, Challenge>, id: Id, row: Challenge)
    requires id in challenges && row == challenges[id].(status := row.status, attempts := row.attempts)
    ensures SameContacts(challenges, challenges[id := row])
  {
  }

  lemma VerifyKeepsContacts(s: Tables, req: VerifyRequest)
    ensures SameContacts(s.challenges, After(s, VerifyStep(s, req)).challenges)
  {
    hide SameContacts, VerifyStep;
    VerifyTriesOneRow(s, req);
    SameContactsAsBefore(s.challenges);
    var step := VerifyStep(s, req);
    if step.Commits? && step.tables != s {
      ChangingStatusKeepsContacts(s.challenges, req.publicId, step.tables.challenges[req.publicId]);
    }
  }

  /** The challenge that the step consumes when it commits. */
  function Spent(op: Op): Option<Id> {
    match op
    case ClaimPass(req) => Some(req.challengeId)
    case RecoverPass(req) => Some(req.challengeId)
    case ReportProblem(req) => Some(req.challengeId)
    case ViewStatus(req) => Some(req.challengeId)
    case _ => None
  }

  lemma ConsumersConsume(s: Tables, op: Op)
    requires Spent(op).Some?
    ensures var after := Perform(s, op).challenges;
            after == s.challenges || (Spent(op).value in s.challenges && after == Consume(s.challenges, Spent(op).value))
  {
    hide Consume, HasOpenIncident, FulfillmentMatches, TokenUsed, AttributionTaken, RotationTaken, ReturnedRotation, KeepContacts;
  }

  lemma KeepingContactsKeepsThem(challenges: map<Id, Challenge>, c: Id, customer: Option<string>, until: int)
    ensures SameContacts(challenges, KeepContacts(challenges, c, customer, until))
  {
  }

  lemma SameContactsFollow(first: map<Id, Challenge>, second: map<Id, Challenge>, third: map<Id, Challenge>)
    requires SameContacts(first, second) && SameContacts(second, third)
    ensures SameContacts(first, third)
  {
  }

  lemma RedeemKeepsContacts(s: Tables, req: RedeemRequest)
    ensures SameContacts(s.challenges, After(s, RedeemStep(s, req)).challenges)
  {
    hide SameContacts, HasOpenIncident, FulfillmentMatches, TokenUsed, KeepContacts, Consume;
    SameContactsAsBefore(s.challenges);
    if RedeemStep(s, req).Commits? {
      var c, accepted := s.tokens[req.token].claimId, req.kind == CustomerAcceptedSubstitute;
      var challenges := if accepted then Consume(s.challenges, req.acceptanceId) else s.challenges;
      if accepted {
        ConsumingKeepsContacts(s.challenges, req.acceptanceId);
      }
      KeepingContactsKeepsThem(challenges, c, s.claims[c].customer, Date(req.now) + req.year);
      SameContactsFollow(s.challenges, challenges, After(s, RedeemStep(s, req)).challenges);
    }
  }

  lemma ExpireKeepsContacts(s: Tables, req: ExpireRequest)
    ensures SameContacts(s.challenges, After(s, ExpireStep(s, req)).challenges)
  {
    hide SameContacts, SetActive, KeepContacts;
    SameContactsAsBefore(s.challenges);
    if ExpireStep(s, req).Commits? {
      KeepingContactsKeepsThem(s.challenges, req.claimId, s.claims[req.claimId].customer, Date(req.now) + req.year);
    }
  }

  predicate LeavesChallenges(op: Op) {
    op.ConfigureOffer? || op.ActivateOffer? || op.PauseFutureClaims? || op.IssueCreatorLink? || op.ReviewProblem?
  }

  lemma OthersLeaveChallenges(s: Tables, op: Op)
    requires LeavesChallenges(op)
    ensures Perform(s, op).challenges == s.challenges
  {
    hide PauseOffers, HasOpenIncident;
  }

  lemma SpendingKeepsContacts(s: Tables, op: Op)
    requires Spent(op).Some?
    ensures SameContacts(s.challenges, Perform(s, op).challenges)
  {
    hide Perform, SameContacts;
    SameContactsAsBefore(s.challenges);
    ConsumersConsume(s, op);
    if Spent(op).value in s.challenges {
      ConsumingKeepsContacts(s.challenges, Spent(op).value);
    }
  }

  lemma OtherStepsKeepContacts(s: Tables, op: Op)
    requires !op.IssueChallenge? && !op.PurgeData?
    ensures SameContacts(s.challenges, Perform(s, op).challenges)
  {
    hide VerifyStep, RedeemStep, ExpireStep, SameContacts;
    if Spent(op).Some? {
      SpendingKeepsContacts(s, op);
    } else if LeavesChallenges(op) {
      OthersLeaveChallenges(s, op);
      SameContactsAsBefore(s.challenges);
    } else {
      match op
      case VerifyChallenge(req) => VerifyKeepsContacts(s, req);
      case RedeemPass(req) => RedeemKeepsContacts(s, req);
      case ExpireClaim(req) => ExpireKeepsContacts(s, req);
    }
  }

  // ----- every run

  /** The issues of the run are no further back than the horizon. */
  predicate Ahead(horizon: int, ops: seq<Op>) {
    forall j :: 0 <= j < |ops| && ops[j].IssueChallenge? ==> horizon <= ops[j].issue.now
  }

  function Horizon(horizon: int, op: Op): int {
    if op.PurgeData? then Max(horizon, op.purgedAt - SKEW) else horizon
  }

  lemma StepKeepsHistory(s: Tables, history: map<Id, Challenge>, horizon: int, op: Op)
    requires Shows(s.challenges, history, horizon) && HistoryHolds(history) && (op.IssueChallenge? ==> horizon <= op.issue.now)
    ensures Shows(Perform(s, op).challenges, Noted(history, s, op), Horizon(horizon, op)) && HistoryHolds(Noted(history, s, op))
  {
    hide Shows, HistoryHolds, IssueStep, ForgetContacts;
    if op.IssueChallenge? {
      IssueKeepsHistory(s, history, horizon, op.issue);
    } else if op.PurgeData? {
      PurgeShows(s.challenges, history, horizon, op.purgedAt);
    } else {
      hide Perform;
      OtherStepsKeepContacts(s, op);
      SameContactsShow(s.challenges, Perform(s, op).challenges, history, horizon);
    }
  }

  lemma {:induction false} RunKeepsHistory(s: Tables, history: map<Id, Challenge>, horizon: int, ops: seq<Op>)
    requires Shows(s.challenges, history, horizon) && HistoryHolds(history) && Steady(ops) && Ahead(horizon, ops)
    ensures HistoryHolds(History(history, s, ops)) && History(history, s, ops).Keys == Run(s, ops).challenges.Keys
    decreases |ops|
  {
    hide HistoryHolds, Perform, Noted;
    if ops != [] {
      StepKeepsHistory(s, history, horizon, ops[0]);
      var rest := ops[1..];
      assert Steady(rest) && Ahead(Horizon(horizon, ops[0]), rest) by {
        assert forall j :: 0 <= j < |rest| ==> rest[j] == ops[j + 1];
      }
      RunKeepsHistory(Perform(s, ops[0]), Noted(history, s, ops[0]), Horizon(horizon, ops[0]), rest);
    }
  }

  lemma {:induction false} EarliestIssue(ops: seq<Op>) returns (earliest: int)
    ensures Ahead(earliest, ops)
  {
    earliest := 0;
    if ops != [] {
      earliest := EarliestIssue(ops[1..]);
      assert forall j :: 1 <= j < |ops| ==> ops[j] == ops[1..][j - 1];
      if ops[0].IssueChallenge? && ops[0].issue.now < earliest {
        earliest := ops[0].issue.now;
      }
    }
  }

  lemma NothingIssuedYet()
    ensures HistoryHolds(map[])
  {
    var none: map<Id, Challenge> := map[];
    assert forall ids, from :: Within(none, ids, from) == {};
  }

  /** Over everything ever issued, purged since or not: no fifteen-minute window holds more than three challenges of a
      destination, of a risk signal or of a link, and those of one destination for one target are a minute apart. */
  lemma EverythingIssuedIsLimited(ops: seq<Op>)
    requires Steady(ops)
    ensures var issued := History(map[], EMPTY_TABLES, ops);
            && issued.Keys == Run(EMPTY_TABLES, ops).challenges.Keys
            && (forall destination, from :: |Within(issued, SameDestination(issued, destination), from)| <= 3)
            && (forall risk, from :: |Within(issued, SameRisk(issued, risk), from)| <= 3)
            && (forall link, from :: |Within(issued, SameLink(issued, link), from)| <= 3)
            && (forall x, y :: x in issued && y in issued && x != y ==> Apart(issued[x], issued[y]))
  {
    var earliest := EarliestIssue(ops);
    NothingIssuedYet();
    assert Shows(EMPTY_TABLES.challenges, map[], earliest);
    hide Shows, Run, History, Steady, Ahead;
    RunKeepsHistory(EMPTY_TABLES, map[], earliest, ops);
  }
}
