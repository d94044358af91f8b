/** Sessions, sign-in identities, recent-authentication grants and recovery holds. Identities, sessions, grants and holds
    are numbered as they are inserted. */
module Accounts {
  import opened Wrappers

  type Id = string

  const GRANT_LIMIT := 10 * 60

  datatype UserStatus = UserActive | DeletionRequested | UserClosed

  datatype Provider = Apple | Google | Microsoft | PasswordlessEmail

  datatype Identity = Identity(user: Id, provider: Provider, issuer: string, subject: string, active: bool, version: nat)

  datatype Session = Session(publicId: Id, user: Id, identity: nat, expiresAt: int, active: bool, version: nat)

  datatype Purpose = IdentityLink | IdentityUnlink | AccountDeletion | PayoutDestinationChange | ContactChange

  datatype Grant = Grant(user: Id, session: nat, purpose: Purpose, expiresAt: int, consumed: bool)

  /** A recovery hold blocks funding, payout changes, provider changes and deletion until another person releases it. */
  datatype Hold = Hold(user: Id, placedBy: Id, releasedBy: Option<Id>, version: nat)

  datatype RequestKind = Deletion | Export

  datatype AccountRequest = AccountRequest(publicId: Id, user: Id, kind: RequestKind)

  datatype Tables = Tables(users: map<Id, UserStatus>, identities: seq<Identity>, sessions: seq<Session>, grants: seq<Grant>,
                           holds: seq<Hold>, requests: seq<AccountRequest>)

  datatype Error = AccessDenied | HoldActive | RequestConflict | BindingConflict | LastIdentityMethod | RecentAuthRequired
                 | SessionInvalid | ConstraintViolated

  datatype Step<+T> = Commits(value: T, tables: Tables) | RollsBack(error: Error)

  function After<T>(before: Tables, step: Step<T>): Tables {
    if step.Commits? then step.tables else before
  }

  function Outcome<T>(step: Step<T>): Result<T, Error> {
    if step.Commits? then Success(step.value) else Failure(step.error)
  }

  // ----- holds and sessions

  predicate IsHeld(holds: seq<Hold>, user: Id) {
    exists h :: 0 <= h < |holds| && holds[h].user == user && holds[h].releasedBy.None?
  }

  predicate LiveSession(s: Tables, session: nat, user: Id, now: int) {
    session < |s.sessions| && s.sessions[session].user == user && s.sessions[session].active && s.sessions[session].expiresAt > now
  }

  datatype SessionRequest = SessionRequest(publicId: Id, user: Id, identity: nat, expiresAt: int, now: int)

  /** Who may get a session at all: an active user without a hold. */
  function SessionBar(s: Tables, user: Id): Option<Error> {
    if user !in s.users || s.users[user] != UserActive then Some(SessionInvalid)
    else if IsHeld(s.holds, user) then Some(HoldActive)
    else None
  }

  /** The trigger and the CHECK that a proposed session row must pass. */
  predicate SessionRowAllowed(s: Tables, req: SessionRequest) {
    && req.identity < |s.identities| && s.identities[req.identity].user == req.user && s.identities[req.identity].active
    && req.user in s.users && s.users[req.user] == UserActive
    && req.expiresAt > req.now
  }

  function SessionNamed(sessions: seq<Session>, publicId: Id): (found: Option<nat>)
    ensures found.Some? ==> found.value < |sessions| && sessions[found.value].publicId == publicId
    ensures found.None? ==> forall i :: 0 <= i < |sessions| ==> sessions[i].publicId != publicId
  {
    if sessions == [] then None
    else if sessions[|sessions| - 1].publicId == publicId then Some(|sessions| - 1)
    else SessionNamed(sessions[..|sessions| - 1], publicId)
  }

  function NewSession(req: SessionRequest): Session {
    Session(req.publicId, req.user, req.identity, req.expiresAt, true, 1)
  }

  function CreateSessionStep(s: Tables, req: SessionRequest): Step<nat> {
    var bar := SessionBar(s, req.user);
    if bar.Some? then RollsBack(bar.value)
    else if !SessionRowAllowed(s, req) || SessionNamed(s.sessions, req.publicId).Some? then RollsBack(ConstraintViolated)
    else Commits(|s.sessions|, s.(sessions := s.sessions + [NewSession(req)]))
  }

  /** Inserts unless the public id is taken; then the existing session must be this user's live one. */
  function CreateOrReuseStep(s: Tables, req: SessionRequest): Step<(bool, nat)> {
    var bar := SessionBar(s, req.user);
    if bar.Some? then RollsBack(bar.value)
    else if !SessionRowAllowed(s, req) then RollsBack(ConstraintViolated)
    else
      var existing := SessionNamed(s.sessions, req.publicId);
      if existing.None? then Commits((true, |s.sessions|), s.(sessions := s.sessions + [NewSession(req)]))
      else if !LiveSession(s, existing.value, req.user, req.now) || s.sessions[existing.value].identity != req.identity
      then RollsBack(SessionInvalid)
      else Commits((false, existing.value), s)
  }

  function Revoked(session: Session): Session { session.(active := false, version := session.version + 1) }

  function RevokeStep(s: Tables, session: nat, user: Id, now: int): Step<Id> {
    if !LiveSession(s, session, user, now) then RollsBack(SessionInvalid)
    else Commits(s.sessions[session].publicId, s.(sessions := s.sessions[session := Revoked(s.sessions[session])]))
  }

  /** The update of the active sessions that a condition picks out. */
  function RevokeWhere(sessions: seq<Session>, picks: Session -> bool): (revoked: seq<Session>)
    ensures |revoked| == |sessions|
  {
    seq(|sessions|, i requires 0 <= i < |sessions| =>
      if sessions[i].active && picks(sessions[i]) then Revoked(sessions[i]) else sessions[i])
  }

  // ----- recent authentication

  datatype GrantRequest = GrantRequest(user: Id, session: nat, purpose: Purpose, expiresAt: int, now: int)

  function GrantStep(s: Tables, req: GrantRequest): Step<nat> {
    if !LiveSession(s, req.session, req.user, req.now) || !(req.now < req.expiresAt <= req.now + GRANT_LIMIT)
    then RollsBack(ConstraintViolated)
    else Commits(|s.grants|, s.(grants := s.grants + [Grant(req.user, req.session, req.purpose, req.expiresAt, false)]))
  }

  predicate Spendable(s: Tables, grant: nat, user: Id, purpose: Purpose, now: int) {
    && grant < |s.grants| && s.grants[grant].user == user && s.grants[grant].purpose == purpose
    && !s.grants[grant].consumed && s.grants[grant].expiresAt > now
    && LiveSession(s, s.grants[grant].session, user, now)
  }

  function Spend(s: Tables, grant: nat): Tables
    requires grant < |s.grants|
  {
    s.(grants := s.grants[grant := s.grants[grant].(consumed := true)])
  }

  /** Consumes a grant and returns its session, which must still be live. */
  function ConsumeStep(s: Tables, grant: nat, user: Id, purpose: Purpose, now: int): Step<nat> {
    if !Spendable(s, grant, user, purpose, now) then RollsBack(RecentAuthRequired)
    else
      var session := s.grants[grant].session;
      if !LiveSession(Spend(s, grant), session, user, now) then RollsBack(SessionInvalid)
      else Commits(session, Spend(s, grant))
  }

  // ----- identities

  datatype LinkRequest = LinkRequest(grant: nat, user: Id, provider: Provider, issuer: string, subject: string, now: int)

  /** The two unique indexes: one row per provider subject for ever, one active row per user and provider. */
  predicate BindingTaken(identities: seq<Identity>, user: Id, provider: Provider, issuer: string, subject: string) {
    exists i :: 0 <= i < |identities| &&
      ((identities[i].issuer == issuer && identities[i].subject == subject)
       || (identities[i].active && identities[i].user == user && identities[i].provider == provider))
  }

  function LinkStep(s: Tables, req: LinkRequest): Step<nat> {
    var consumed := ConsumeStep(s, req.grant, req.user, IdentityLink, req.now);
    if consumed.RollsBack? then RollsBack(consumed.error)
    else if IsHeld(s.holds, req.user) then RollsBack(HoldActive)
    else if BindingTaken(s.identities, req.user, req.provider, req.issuer, req.subject) then RollsBack(BindingConflict)
    else
      var identity := Identity(req.user, req.provider, req.issuer, req.subject, true, 1);
      Commits(|s.identities|, consumed.tables.(identities := s.identities + [identity]))
  }

  function ActiveIdentities(identities: seq<Identity>, user: Id): set<nat> {
    set i: nat | i < |identities| && identities[i].user == user && identities[i].active
  }

  datatype UnlinkRequest = UnlinkRequest(grant: nat, user: Id, identity: nat, now: int)

  function WithIdentity(identity: nat): Session -> bool { (session: Session) => session.identity == identity }

  function UnlinkStep(s: Tables, req: UnlinkRequest): Step<()> {
    var consumed := ConsumeStep(s, req.grant, req.user, IdentityUnlink, req.now);
    if consumed.RollsBack? then RollsBack(consumed.error)
    else if IsHeld(s.holds, req.user) then RollsBack(HoldActive)
    else if req.identity !in ActiveIdentities(s.identities, req.user) then RollsBack(AccessDenied)
    else if |ActiveIdentities(s.identities, req.user)| < 2 then RollsBack(LastIdentityMethod)
    else
      var identity := s.identities[req.identity];
      Commits((), consumed.tables.(
        identities := s.identities[req.identity := identity.(active := false, version := identity.version + 1)],
        sessions := RevokeWhere(s.sessions, WithIdentity(req.identity))))
  }

  // ----- recovery

  datatype PlaceRequest = PlaceRequest(user: Id, placedBy: Id, isStaff: bool)

  function OfUser(user: Id): Session -> bool { (session: Session) => session.user == user }

  function PlaceHoldStep(s: Tables, req: PlaceRequest): Step<nat> {
    if !req.isStaff then RollsBack(AccessDenied)
    else if req.user !in s.users || s.users[req.user] != UserActive then RollsBack(AccessDenied)
    else if IsHeld(s.holds, req.user) then RollsBack(ConstraintViolated)
    else
      Commits(|s.holds|, s.(holds := s.holds + [Hold(req.user, req.placedBy, None, 1)],
                            sessions := RevokeWhere(s.sessions, OfUser(req.user))))
  }

  datatype ReleaseRequest = ReleaseRequest(hold: nat, expectedVersion: nat, releasedBy: Id, isStaff: bool, reasonGiven: bool)

  function ReleaseStep(s: Tables, req: ReleaseRequest): Step<()> {
    if !req.isStaff then RollsBack(AccessDenied)
    else if req.hold >= |s.holds| || s.holds[req.hold].releasedBy.Some? || s.holds[req.hold].version != req.expectedVersion
            || s.holds[req.hold].placedBy == req.releasedBy
    then RollsBack(AccessDenied)
    else if !req.reasonGiven then RollsBack(ConstraintViolated)
    else
      var hold := s.holds[req.hold].(releasedBy := Some(req.releasedBy), version := s.holds[req.hold].version + 1);
      Commits((), s.(holds := s.holds[req.hold := hold]))
  }

  // ----- deletion and export

  datatype ActionRequest = ActionRequest(publicId: Id, user: Id, session: nat, kind: RequestKind, grant: Option<nat>, now: int)

  predicate RequestTaken(requests: seq<AccountRequest>, req: ActionRequest) {
    exists i :: 0 <= i < |requests| &&
      (requests[i].publicId == req.publicId || (requests[i].user == req.user && requests[i].kind == req.kind))
  }

  function ActionStep(s: Tables, req: ActionRequest): Step<Id> {
    if !LiveSession(s, req.session, req.user, req.now) then RollsBack(SessionInvalid)
    else if req.kind == Deletion && req.grant.None? then RollsBack(RecentAuthRequired)
    else
      var consumed := if req.kind == Deletion then ConsumeStep(s, req.grant.value, req.user, AccountDeletion, req.now) else Commits(req.session, s);
      if consumed.RollsBack? then RollsBack(consumed.error)
      else if req.kind == Deletion && IsHeld(s.holds, req.user) then RollsBack(HoldActive)
      else if RequestTaken(s.requests, req) then RollsBack(RequestConflict)
      else
        var users := if req.kind == Deletion && req.user in s.users && s.users[req.user] == UserActive
                     then s.users[req.user := DeletionRequested] else s.users;
        Commits(req.publicId, consumed.tables.(users := users, requests := s.requests + [AccountRequest(req.publicId, req.user, req.kind)]))
  }

  class AccountLifecycleStore {
    var tables: Tables

    constructor (users: map<Id, UserStatus>, identities: seq<Identity>)
      ensures tables == Tables(users, identities, [], [], [], [])
    {
      tables := Tables(users, identities, [], [], [], []);
    }

    method CreateSession(req: SessionRequest) returns (r: Result<nat, Error>)
      modifies this
      ensures r == Outcome(CreateSessionStep(old(tables), req)) && tables == After(old(tables), CreateSessionStep(old(tables), req))
    {
      var bar := SessionBar(tables, req.user);
      if bar.Some? {
        return Failure(bar.value);
      }
      if !SessionRowAllowed(tables, req) || SessionNamed(tables.sessions, req.publicId).Some? {
        return Failure(ConstraintViolated);
      }
      tables := tables.(sessions := tables.sessions + [NewSession(req)]);
      return Success(|tables.sessions| - 1);
    }

    method CreateOrReuseSession(req: SessionRequest) returns (r: Result<(bool, nat), Error>)
      modifies this
      ensures r == Outcome(CreateOrReuseStep(old(tables), req)) && tables == After(old(tables), CreateOrReuseStep(old(tables), req))
    {
      var bar := SessionBar(tables, req.user);
      if bar.Some? {
        return Failure(bar.value);
      }
      if !SessionRowAllowed(tables, req) {
        return Failure(ConstraintViolated);
      }
      var existing := SessionNamed(tables.sessions, req.publicId);
      if existing.None? {
        tables := tables.(sessions := tables.sessions + [NewSession(req)]);
        return Success((true, |tables.sessions| - 1));
      }
      var row := tables.sessions[existing.value];
      if row.user != req.user || row.identity != req.identity || !row.active || row.expiresAt <= req.now {
        return Failure(SessionInvalid);
      }
      return Success((false, existing.value));
    }

    method RevokeSession(session: nat, user: Id, now: int) returns (r: Result<Id, Error>)
      modifies this
      ensures r == Outcome(RevokeStep(old(tables), session, user, now)) && tables == After(old(tables), RevokeStep(old(tables), session, user, now))
    {
      if !LiveSession(tables, session, user, now) {
        return Failure(SessionInvalid);
      }
      var row := tables.sessions[session];
      tables := tables.(sessions := tables.sessions[session := Revoked(row)]);
      return Success(row.publicId);
    }

    method GrantRecentAuth(req: GrantRequest) returns (r: Result<nat, Error>)
      modifies this
      ensures r == Outcome(GrantStep(old(tables), req)) && tables == After(old(tables), GrantStep(old(tables), req))
    {
      if !LiveSession(tables, req.session, req.user, req.now) || req.expiresAt <= req.now || req.expiresAt > req.now + GRANT_LIMIT {
        return Failure(ConstraintViolated);
      }
      tables := tables.(grants := tables.grants + [Grant(req.user, req.session, req.purpose, req.expiresAt, false)]);
      return Success(|tables.grants| - 1);
    }

    /** Part of a transaction: what it writes is undone when the caller fails. The session that the update saw is still
        live when it is read again. */
    method ConsumeRecentAuth(grant: nat, user: Id, purpose: Purpose, now: int) returns (r: Result<nat, Error>)
      modifies this
      ensures r == Outcome(ConsumeStep(old(tables), grant, user, purpose, now))
      ensures tables == After(old(tables), ConsumeStep(old(tables), grant, user, purpose, now))
    {
      if !Spendable(tables, grant, user, purpose, now) {
        return Failure(RecentAuthRequired);
      }
      tables := Spend(tables, grant);
      var session := tables.grants[grant].session;
      if !LiveSession(tables, session, user, now) {
        assert false;
      }
      return Success(session);
    }

    method LinkIdentity(req: LinkRequest) returns (r: Result<nat, Error>)
      modifies this
      ensures r == Outcome(LinkStep(old(tables), req)) && tables == After(old(tables), LinkStep(old(tables), req))
    {
      var before := tables;
      var session := ConsumeRecentAuth(req.grant, req.user, IdentityLink, req.now);
      if session.Failure? {
        return Failure(session.error);
      }
      if IsHeld(tables.holds, req.user) {
        tables := before;
        return Failure(HoldActive);
      }
      if BindingTaken(tables.identities, req.user, req.provider, req.issuer, req.subject) {
        tables := before;
        return Failure(BindingConflict);
      }
      tables := tables.(identities := tables.identities + [Identity(req.user, req.provider, req.issuer, req.subject, true, 1)]);
      return Success(|tables.identities| - 1);
    }

    method UnlinkIdentity(req: UnlinkRequest) returns (r: Result<(), Error>)
      modifies this
      ensures r == Outcome(UnlinkStep(old(tables), req)) && tables == After(old(tables), UnlinkStep(old(tables), req))
    {
      var before := tables;
      var session := ConsumeRecentAuth(req.grant, req.user, IdentityUnlink, req.now);
      if session.Failure? {
        return Failure(session.error);
      }
      if IsHeld(tables.holds, req.user) {
        tables := before;
        return Failure(HoldActive);
      }
      var active := ActiveIdentities(tables.identities, req.user);
      if req.identity !in active {
        tables := before;
        return Failure(AccessDenied);
      }
      if |active| < 2 {
        tables := before;
        return Failure(LastIdentityMethod);
      }
      var identity := tables.identities[req.identity];
      tables := tables.(identities := tables.identities[req.identity := identity.(active := false, version := identity.version + 1)]);
      tables := tables.(sessions := RevokeWhere(tables.sessions, WithIdentity(req.identity)));
      return Success(());
    }

    method PlaceRecoveryHold(req: PlaceRequest) returns (r: Result<nat, Error>)
      modifies this
      ensures r == Outcome(PlaceHoldStep(old(tables), req)) && tables == After(old(tables), PlaceHoldStep(old(tables), req))
    {
      if !req.isStaff {
        return Failure(AccessDenied);
      }
      if req.user !in tables.users || tables.users[req.user] != UserActive {
        return Failure(AccessDenied);
      }
      if IsHeld(tables.holds, req.user) {
        return Failure(ConstraintViolated);
      }
      tables := tables.(holds := tables.holds + [Hold(req.user, req.placedBy, None, 1)]);
      tables := tables.(sessions := RevokeWhere(tables.sessions, OfUser(req.user)));
      return Success(|tables.holds| - 1);
    }

    method ReleaseRecoveryHold(req: ReleaseRequest) returns (r: Result<(), Error>)
      modifies this
      ensures r == Outcome(ReleaseStep(old(tables), req)) && tables == After(old(tables), ReleaseStep(old(tables), req))
    {
      if !req.isStaff {
        return Failure(AccessDenied);
      }
      if req.hold >= |tables.holds| || tables.holds[req.hold].releasedBy.Some? || tables.holds[req.hold].version != req.expectedVersion {
        return Failure(AccessDenied);
      }
      var hold := tables.holds[req.hold];
      if hold.placedBy == req.releasedBy {
        return Failure(AccessDenied);
      }
      if !req.reasonGiven {
        return Failure(ConstraintViolated);
      }
      tables := tables.(holds := tables.holds[req.hold := hold.(releasedBy := Some(req.releasedBy), version := hold.version + 1)]);
      return Success(());
    }

    method RequestAccountAction(req: ActionRequest) returns (r: Result<Id, Error>)
      modifies this
      ensures r == Outcome(ActionStep(old(tables), req)) && tables == After(old(tables), ActionStep(old(tables), req))
    {
      var before := tables;
      if !LiveSession(tables, req.session, req.user, req.now) {
        return Failure(SessionInvalid);
      }
      if req.kind == Deletion {
        if req.grant.None? {
          return Failure(RecentAuthRequired);
        }
        var session := ConsumeRecentAuth(req.grant.value, req.user, AccountDeletion, req.now);
        if session.Failure? {
          return Failure(session.error);
        }
        if IsHeld(tables.holds, req.user) {
          tables := before;
          return Failure(HoldActive);
        }
      }
      if RequestTaken(tables.requests, req) {
        tables := before;
        return Failure(RequestConflict);
      }
      tables := tables.(requests := tables.requests + [AccountRequest(req.publicId, req.user, req.kind)]);
      if req.kind == Deletion && req.user in tables.users && tables.users[req.user] == UserActive {
        tables := tables.(users := tables.users[req.user := DeletionRequested]);
      }
      return Success(req.publicId);
    }
  }
}
