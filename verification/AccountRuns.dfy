/** What every run of the account store keeps: holds against sessions, grants against steps, and a way to sign in. */
module AccountRuns {
  import opened Wrappers
  import opened Accounts

  datatype Op =
    | CreateSession(create: SessionRequest)
    | CreateOrReuseSession(reuse: SessionRequest)
    | RevokeSession(session: nat, user: Id, now: int)
    | GrantRecentAuth(grant: GrantRequest)
    | LinkIdentity(link: LinkRequest)
    | UnlinkIdentity(unlink: UnlinkRequest)
    | PlaceHold(place: PlaceRequest)
    | ReleaseHold(release: ReleaseRequest)
    | RequestAction(action: ActionRequest)

  function Perform(s: Tables, op: Op): Tables {
    match op
    case CreateSession(req) => After(s, CreateSessionStep(s, req))
    case CreateOrReuseSession(req) => After(s, CreateOrReuseStep(s, req))
    case RevokeSession(session, user, now) => After(s, RevokeStep(s, session, user, now))
    case GrantRecentAuth(req) => After(s, GrantStep(s, req))
    case LinkIdentity(req) => After(s, LinkStep(s, req))
    case UnlinkIdentity(req) => After(s, UnlinkStep(s, req))
    case PlaceHold(req) => After(s, PlaceHoldStep(s, req))
    case ReleaseHold(req) => After(s, ReleaseStep(s, req))
    case RequestAction(req) => After(s, ActionStep(s, req))
  }

  function Run(s: Tables, ops: seq<Op>): Tables
    decreases |ops|
  {
    if ops == [] then s else Run(Perform(s, ops[0]), ops[1..])
  }

  function Start(users: map<Id, UserStatus>, identities: seq<Identity>): Tables {
    Tables(users, identities, [], [], [], [])
  }

  ghost predicate Reachable(s: Tables) {
    exists users, identities, ops :: s == Run(Start(users, identities), ops)
  }

  // ----- the invariant

  /** A held user has no active session. */
  ghost predicate HeldUsersAreOut(holds: seq<Hold>, sessions: seq<Session>) {
    forall i :: 0 <= i < |sessions| && sessions[i].active ==> !IsHeld(holds, sessions[i].user)
  }

  /** An active session belongs to an active identity of its user. */
  ghost predicate SessionsHaveIdentities(sessions: seq<Session>, identities: seq<Identity>) {
    forall i :: 0 <= i < |sessions| && sessions[i].active ==>
      && sessions[i].identity < |identities|
      && identities[sessions[i].identity].user == sessions[i].user && identities[sessions[i].identity].active
  }

  /** At most one hold of a user is open, and a closed one was closed by someone other than who placed it. */
  ghost predicate HoldsHold(holds: seq<Hold>) {
    && (forall i, j :: 0 <= i < j < |holds| && holds[i].releasedBy.None? && holds[j].releasedBy.None? ==> holds[i].user != holds[j].user)
    && (forall i :: 0 <= i < |holds| ==> holds[i].releasedBy != Some(holds[i].placedBy))
  }

  ghost predicate Invariant(s: Tables) {
    HeldUsersAreOut(s.holds, s.sessions) && SessionsHaveIdentities(s.sessions, s.identities) && HoldsHold(s.holds)
  }

  lemma CreatingKeeps(s: Tables, req: SessionRequest)
    requires Invariant(s) && SessionBar(s, req.user).None? && SessionRowAllowed(s, req)
    ensures Invariant(s.(sessions := s.sessions + [NewSession(req)]))
  {
  }

  lemma RevokingKeeps(s: Tables, sessions: seq<Session>)
    requires Invariant(s) && |sessions| == |s.sessions|
    requires forall i :: 0 <= i < |sessions| && sessions[i].active ==> sessions[i] == s.sessions[i]
    ensures Invariant(s.(sessions := sessions))
  {
    hide IsHeld;
  }

  lemma UnlinkKeeps(s: Tables, req: UnlinkRequest)
    requires Invariant(s)
    ensures Invariant(After(s, UnlinkStep(s, req)))
  {
    hide IsHeld;
    var step := UnlinkStep(s, req);
    if step.Commits? {
      RevokingKeeps(s, step.tables.sessions);
    }
  }

  lemma PlacingKeeps(s: Tables, req: PlaceRequest)
    requires Invariant(s)
    ensures Invariant(After(s, PlaceHoldStep(s, req)))
  {
    var step := PlaceHoldStep(s, req);
    if step.Commits? {
      RevokingKeeps(s, step.tables.sessions);
      forall user | user != req.user && IsHeld(step.tables.holds, user) ensures IsHeld(s.holds, user) {
        var h :| 0 <= h < |step.tables.holds| && step.tables.holds[h].user == user && step.tables.holds[h].releasedBy.None?;
        assert s.holds[h] == step.tables.holds[h];
      }
    }
  }

  lemma ReleasingKeeps(s: Tables, req: ReleaseRequest)
    requires Invariant(s)
    ensures Invariant(After(s, ReleaseStep(s, req)))
  {
    var step := ReleaseStep(s, req);
    if step.Commits? {
      forall user | IsHeld(step.tables.holds, user) ensures IsHeld(s.holds, user) {
        var h :| 0 <= h < |step.tables.holds| && step.tables.holds[h].user == user && step.tables.holds[h].releasedBy.None?;
        assert s.holds[h] == step.tables.holds[h];
      }
    }
  }

  lemma StepKeepsInvariant(s: Tables, op: Op)
    requires Invariant(s)
    ensures Invariant(Perform(s, op))
  {
    match op
    case CreateSession(req) =>
      if CreateSessionStep(s, req).Commits? {
        CreatingKeeps(s, req);
      }
    case CreateOrReuseSession(req) =>
      if CreateOrReuseStep(s, req).Commits? && CreateOrReuseStep(s, req).value.0 {
        CreatingKeeps(s, req);
      }
    case RevokeSession(session, user, now) =>
      if RevokeStep(s, session, user, now).Commits? {
        RevokingKeeps(s, RevokeStep(s, session, user, now).tables.sessions);
      }
    case UnlinkIdentity(req) => UnlinkKeeps(s, req);
    case PlaceHold(req) => PlacingKeeps(s, req);
    case ReleaseHold(req) => ReleasingKeeps(s, req);
    case _ =>
  }

  lemma {:induction false} RunKeepsInvariant(s: Tables, ops: seq<Op>)
    requires Invariant(s)
    ensures Invariant(Run(s, ops))
    decreases |ops|
  {
    hide Invariant, Perform;
    if ops != [] {
      StepKeepsInvariant(s, ops[0]);
      RunKeepsInvariant(Perform(s, ops[0]), ops[1..]);
    }
  }

  lemma ReachableHolds(s: Tables)
    requires Reachable(s)
    ensures Invariant(s)
  {
    hide Perform;
    var users, identities, ops :| s == Run(Start(users, identities), ops);
    RunKeepsInvariant(Start(users, identities), ops);
  }

  // ----- holds

  /** While a hold is open its user has no active session, so no grant can be consumed; the holds of a user are opened
      one at a time and closed by a second person. */
  lemma HeldUserIsOut(s: Tables, user: Id)
    requires Reachable(s) && IsHeld(s.holds, user)
    ensures forall i :: 0 <= i < |s.sessions| && s.sessions[i].user == user ==> !s.sessions[i].active
    ensures forall grant, purpose, now :: !Spendable(s, grant, user, purpose, now)
    ensures HoldsHold(s.holds)
  {
    ReachableHolds(s);
  }

  /** Once the grant is consumed, the later checks of the session and of holds cannot fail: linking, unlinking and deletion
      behave as if they were not there. */
  lemma LaterChecksNeverFail(s: Tables, grant: nat, user: Id, purpose: Purpose, now: int)
    requires Reachable(s)
    ensures ConsumeStep(s, grant, user, purpose, now) != RollsBack(SessionInvalid)
    ensures ConsumeStep(s, grant, user, purpose, now).Commits? ==> !IsHeld(s.holds, user)
  {
    ReachableHolds(s);
    hide IsHeld;
  }

  lemma HoldNeverRefusesHere(s: Tables, link: LinkRequest, unlink: UnlinkRequest, action: ActionRequest)
    requires Reachable(s)
    ensures LinkStep(s, link) != RollsBack(HoldActive) && LinkStep(s, link) != RollsBack(SessionInvalid)
    ensures UnlinkStep(s, unlink) != RollsBack(HoldActive) && UnlinkStep(s, unlink) != RollsBack(SessionInvalid)
    ensures ActionStep(s, action) != RollsBack(HoldActive)
    ensures IsHeld(s.holds, action.user) ==> ActionStep(s, action) == RollsBack(SessionInvalid)
  {
    LaterChecksNeverFail(s, link.grant, link.user, IdentityLink, link.now);
    LaterChecksNeverFail(s, unlink.grant, unlink.user, IdentityUnlink, unlink.now);
    if action.grant.Some? {
      LaterChecksNeverFail(s, action.grant.value, action.user, AccountDeletion, action.now);
    }
    ReachableHolds(s);
    hide IsHeld, ConsumeStep, HoldsHold, SessionsHaveIdentities, ActiveIdentities;
  }

  /** Every active session was opened with an identity that is still active and belongs to the session's user. */
  lemma SessionsUseLiveIdentities(s: Tables, i: nat)
    requires Reachable(s) && i < |s.sessions| && s.sessions[i].active
    ensures s.sessions[i].identity in ActiveIdentities(s.identities, s.sessions[i].user)
  {
    ReachableHolds(s);
  }

  // ----- grants

  /** The step commits what the grant was for. */
  predicate Uses(s: Tables, op: Op, grant: nat) {
    || (op.LinkIdentity? && op.link.grant == grant && LinkStep(s, op.link).Commits?)
    || (op.UnlinkIdentity? && op.unlink.grant == grant && UnlinkStep(s, op.unlink).Commits?)
    || (op.RequestAction? && op.action.kind == Deletion && op.action.grant == Some(grant) && ActionStep(s, op.action).Commits?)
  }

  function TimesUsed(s: Tables, ops: seq<Op>, grant: nat): nat
    decreases |ops|
  {
    if ops == [] then 0 else (if Uses(s, ops[0], grant) then 1 else 0) + TimesUsed(Perform(s, ops[0]), ops[1..], grant)
  }

  predicate IsSpent(s: Tables, grant: nat) { grant < |s.grants| && s.grants[grant].consumed }

  lemma UseSpends(s: Tables, op: Op, grant: nat)
    ensures Uses(s, op, grant) ==> !IsSpent(s, grant) && IsSpent(Perform(s, op), grant)
    ensures IsSpent(s, grant) ==> IsSpent(Perform(s, op), grant)
  {
    hide IsHeld, ActiveIdentities, BindingTaken, RequestTaken;
  }

  /** Along any run a grant is used at most once, and not at all once it is spent. */
  lemma {:induction false} GrantIsSpentOnce(s: Tables, ops: seq<Op>, grant: nat)
    ensures TimesUsed(s, ops, grant) <= if IsSpent(s, grant) then 0 else 1
    decreases |ops|
  {
    hide Perform, Uses, IsSpent;
    if ops != [] {
      UseSpends(s, ops[0], grant);
      GrantIsSpentOnce(Perform(s, ops[0]), ops[1..], grant);
    }
  }

  // ----- a way to sign in

  lemma StepKeepsAnIdentity(s: Tables, op: Op, user: Id)
    requires ActiveIdentities(s.identities, user) != {}
    ensures ActiveIdentities(Perform(s, op).identities, user) != {}
  {
    hide IsHeld;
    var i :| i in ActiveIdentities(s.identities, user);
    var identities := Perform(s, op).identities;
    if op.UnlinkIdentity? && UnlinkStep(s, op.unlink).Commits? {
      var active := ActiveIdentities(s.identities, user);
      if op.unlink.user == user {
        assert |active - {op.unlink.identity}| == |active| - 1;
        var other :| other in active - {op.unlink.identity};
        assert other in ActiveIdentities(identities, user);
      } else {
        assert i in ActiveIdentities(identities, user);
      }
    } else {
      assert i in ActiveIdentities(identities, user);
    }
  }

  /** An account with an active identity has one ever after. */
  lemma {:induction false} AWayToSignInRemains(s: Tables, ops: seq<Op>, user: Id)
    requires ActiveIdentities(s.identities, user) != {}
    ensures ActiveIdentities(Run(s, ops).identities, user) != {}
    decreases |ops|
  {
    hide Perform, ActiveIdentities;
    if ops != [] {
      StepKeepsAnIdentity(s, ops[0], user);
      AWayToSignInRemains(Perform(s, ops[0]), ops[1..], user);
    }
  }

  lemma IdentityRowsStay(s: Tables, op: Op, i: nat)
    requires i < |s.identities|
    ensures var after := Perform(s, op).identities;
            && i < |after| && after[i] == s.identities[i].(active := after[i].active, version := after[i].version)
            && (after[i].active ==> s.identities[i].active)
  {
    hide IsHeld, BindingTaken, RequestTaken;
  }

  /** A provider subject that was ever bound, even if it was unlinked since, can never be bound again. */
  lemma {:induction false} BoundSubjectIsNeverBoundAgain(s: Tables, ops: seq<Op>, i: nat, req: LinkRequest)
    requires i < |s.identities| && s.identities[i].issuer == req.issuer && s.identities[i].subject == req.subject
    ensures LinkStep(Run(s, ops), req).RollsBack?
    ensures i < |Run(s, ops).identities| && (Run(s, ops).identities[i].active ==> s.identities[i].active)
    decreases |ops|
  {
    hide Perform;
    if ops != [] {
      IdentityRowsStay(s, ops[0], i);
      BoundSubjectIsNeverBoundAgain(Perform(s, ops[0]), ops[1..], i, req);
    } else {
      assert BindingTaken(s.identities, req.user, req.provider, req.issuer, req.subject);
    }
  }
}
