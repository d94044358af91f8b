/** Every session that a sign-in builds, changed by any selections and refreshes, keeps its choices across a restart of
    the app and can be used in the mode it shows. */
module SessionResults {
  import opened Wrappers
  import opened AuthSession
  import opened SessionExchange
  import opened SessionData

  /** A workspace the session has selected is one of its own, with its role. */
  predicate SelectionHolds(kept: PersistedSession) {
    if kept.workspacePublicId.None? then kept.workspaceRole.None?
    else
      var selected := FindWorkspace(kept.workspaces, kept.workspacePublicId);
      selected.Some? && kept.workspaceRole == Some(selected.value.role)
  }

  /** Every role of a workspace is a business role, as the types promise but the sign-in does not check. */
  predicate BusinessWorkspaces(workspaces: seq<Workspace>) {
    forall i :: 0 <= i < |workspaces| ==> IsBusiness(workspaces[i].role)
  }

  predicate Built(session: Session) {
    var kept := session.kept;
    && kept.version == 1
    && kept.accountStatus == Active && kept.expiresAt.Some? && !kept.provider.UnknownProvider?
    && (kept.refreshCredential.Some? ==> Credential(kept.refreshCredential.value, 32))
    && KnownRoles(kept.roles)
    && (kept.selectedMode in AvailableModes(kept.roles) || (kept.selectedMode == BusinessMode && !BusinessWorkspaces(kept.workspaces)))
    && PublicId(kept.sessionPublicId, "ses_") && PublicId(kept.userPublicId, "usr_")
    && (forall i :: 0 <= i < |kept.workspaces| ==> NamedWorkspace(kept.workspaces[i], kept.roles))
    && DistinctIds(kept.workspaces)
    && SelectionHolds(kept)
  }

  lemma {:induction false} FoundByPosition(workspaces: seq<Workspace>, i: nat)
    requires i < |workspaces| && DistinctIds(workspaces)
    ensures FindWorkspace(workspaces, Some(workspaces[i].publicId)) == Some(workspaces[i])
  {
    if i > 0 {
      assert workspaces[0].publicId != workspaces[i].publicId;
      FoundByPosition(workspaces[1..], i - 1);
    }
  }

  lemma BuildingSelects(tokens: TokenSet, bootstrap: Bootstrap, mode: Option<Mode>, workspace: Option<string>, refresh: Option<string>, now: int)
    requires SafeBootstrap(bootstrap, now)
    ensures SelectionHolds(RuntimeSession(tokens, bootstrap, mode, workspace, refresh, now).kept)
  {
    var workspaces := bootstrap.workspaces.value;
    var preferred := FindWorkspace(workspaces, workspace);
    if preferred.None? && |workspaces| != 1 && bootstrap.workspacePublicId.Some? {
      var i :| 0 <= i < |workspaces| && Some(workspaces[i].publicId) == bootstrap.workspacePublicId
               && Some(workspaces[i].role) == bootstrap.workspaceRole;
      FoundByPosition(workspaces, i);
    } else if preferred.None? && |workspaces| == 1 {
      FoundByPosition(workspaces, 0);
    }
    hide PublicId, Credential, KnownRoles, AvailableModes, NamedWorkspace;
  }

  lemma BuildingBuilds(tokens: TokenSet, bootstrap: Bootstrap, mode: Option<Mode>, workspace: Option<string>, refresh: Option<string>, now: int)
    requires SafeBootstrap(bootstrap, now) && (refresh.Some? ==> Credential(refresh.value, 32))
    ensures Built(RuntimeSession(tokens, bootstrap, mode, workspace, refresh, now))
  {
    BuildingSelects(tokens, bootstrap, mode, workspace, refresh, now);
    hide PublicId, Credential, KnownRoles, AvailableModes, NamedWorkspace, SelectionHolds, DistinctIds;
  }

  lemma SignInBuilds(input: SignIn)
    requires input.Valid() && CompletedSession(input).Success?
    ensures Built(CompletedSession(input).value)
  {
    hide SafeBootstrap, Built, RuntimeSession, Credential, SessionPublicId;
    BuildingBuilds(input.tokens.value, input.bootstrap.value, input.preferredMode, input.preferredWorkspace,
                   input.tokens.value.refreshCredential, input.now);
  }

  lemma RefreshBuilds(current: Session, input: Renewal)
    requires Built(current) && RefreshedSession(current, input).Success?
    ensures Built(RefreshedSession(current, input).value)
  {
    assert current.kept.refreshCredential.Some? ==> Credential(current.kept.refreshCredential.value, 32);
    hide SafeBootstrap, Built, RuntimeSession, Credential;
    var refresh := if input.tokens.value.refreshCredential.Some? then input.tokens.value.refreshCredential else current.kept.refreshCredential;
    BuildingBuilds(input.tokens.value, input.bootstrap.value, Some(current.kept.selectedMode), current.kept.workspacePublicId, refresh, input.now);
  }

  // ----- selections and refreshes

  datatype Change = ChooseMode(mode: Mode) | ChooseWorkspace(publicId: string) | Refresh(renewal: Renewal)

  /** A change that is refused leaves the session as it was. */
  function Apply(session: Session, change: Change): Session {
    match change
    case ChooseMode(mode) =>
      var state := SelectMode(Authenticated(session), mode);
      if state.Success? && state.value.Authenticated? then state.value.session else session
    case ChooseWorkspace(publicId) =>
      var state := SelectWorkspace(Authenticated(session), publicId);
      if state.Success? && state.value.Authenticated? then state.value.session else session
    case Refresh(renewal) =>
      var refreshed := RefreshedSession(session, renewal);
      if refreshed.Success? then refreshed.value else session
  }

  function ApplyAll(session: Session, changes: seq<Change>): Session
    decreases |changes|
  {
    if changes == [] then session else ApplyAll(Apply(session, changes[0]), changes[1..])
  }

  lemma ModesKnown(roles: seq<Role>, mode: Mode)
    ensures mode in AvailableModes(roles) ==> !mode.UnknownMode?
    ensures CreatorMode in AvailableModes(roles) <==> Creator in roles
    ensures forall role :: role in roles && IsBusiness(role) ==> BusinessMode in AvailableModes(roles)
  {
  }

  lemma ChoosingKeepsBuilt(session: Session, change: Change)
    requires Built(session)
    ensures Built(Apply(session, change))
  {
    if change.Refresh? {
      hide Built, RefreshedSession;
      if RefreshedSession(session, change.renewal).Success? {
        RefreshBuilds(session, change.renewal);
      }
    } else {
      hide PublicId, Credential, KnownRoles;
      if change.ChooseWorkspace? {
        var found := FindWorkspace(session.kept.workspaces, Some(change.publicId));
        if found.Some? {
          var i :| 0 <= i < |session.kept.workspaces| && session.kept.workspaces[i] == found.value;
          ModesKnown(session.kept.roles, BusinessMode);
          assert IsBusiness(session.kept.workspaces[i].role) || !BusinessWorkspaces(session.kept.workspaces);
        }
      }
    }
  }

  lemma {:induction false} ChangesKeepBuilt(session: Session, changes: seq<Change>)
    requires Built(session)
    ensures Built(ApplyAll(session, changes))
    decreases |changes|
  {
    hide Built, Apply;
    if changes != [] {
      ChoosingKeepsBuilt(session, changes[0]);
      ChangesKeepBuilt(Apply(session, changes[0]), changes[1..]);
    }
  }

  // ----- across a restart

  lemma AcceptedExactlyWhenWorkspacesAreBusiness(session: Session)
    requires Built(session)
    ensures IsPersistedSession(Persisted(session)) <==> BusinessWorkspaces(session.kept.workspaces)
  {
    var kept := session.kept;
    ModesKnown(kept.roles, kept.selectedMode);
    hide KnownRoles, AvailableModes;
    if kept.workspacePublicId.Some? {
      var found := FindWorkspace(kept.workspaces, kept.workspacePublicId).value;
      var i :| 0 <= i < |kept.workspaces| && kept.workspaces[i] == found;
      assert NamedWorkspace(kept.workspaces[i], kept.roles);
    }
  }

  /** What a session signed in and changed at will comes back as after a restart: itself, without its access token, until
      it expires; and nothing at all exactly when a workspace carries a role that is no business role. */
  lemma SessionSurvivesExactlyWhen(input: SignIn, changes: seq<Change>, now: int)
    requires input.Valid() && CompletedSession(input).Success?
    ensures var kept := ApplyAll(CompletedSession(input).value, changes).kept;
            var restored := StateFrom(Acceptable(true, Some(Readable(Persisted(ApplyAll(CompletedSession(input).value, changes))))), now);
            && kept.expiresAt.Some?
            && (restored == Authenticated(Session(kept, None, None, Api))
                <==> BusinessWorkspaces(kept.workspaces) && now < kept.expiresAt.value)
            && (restored == SessionExpired <==> BusinessWorkspaces(kept.workspaces) && now >= kept.expiresAt.value)
            && (restored == Anonymous <==> !BusinessWorkspaces(kept.workspaces))
  {
    SignInBuilds(input);
    ChangesKeepBuilt(CompletedSession(input).value, changes);
    var session := ApplyAll(CompletedSession(input).value, changes);
    hide CompletedSession, ApplyAll, KnownRoles, NamedWorkspace, IsPersistedSession, FindWorkspace;
    AcceptedExactlyWhenWorkspacesAreBusiness(session);
  }

  // ----- with the answers that the server sends

  /** The answer of a call that went through the app's adapter, or none. */
  ghost predicate Projected(bootstrap: Option<Bootstrap>) {
    bootstrap.Some? ==> exists value :: bootstrap.value == MobileProjection(value)
  }

  ghost predicate ProjectedRenewals(changes: seq<Change>) {
    forall i :: 0 <= i < |changes| && changes[i].Refresh? ==> Projected(changes[i].renewal.bootstrap)
  }

  predicate BusinessAnswer(bootstrap: Option<Bootstrap>) {
    bootstrap.Some? && bootstrap.value.workspaces.Some? ==> BusinessWorkspaces(bootstrap.value.workspaces.value)
  }

  lemma ProjectionIsBusiness(bootstrap: Option<Bootstrap>)
    requires Projected(bootstrap)
    ensures BusinessAnswer(bootstrap)
  {
  }

  lemma ChangeKeepsBusiness(session: Session, change: Change)
    requires BusinessWorkspaces(session.kept.workspaces) && (change.Refresh? ==> BusinessAnswer(change.renewal.bootstrap))
    ensures BusinessWorkspaces(Apply(session, change).kept.workspaces)
  {
    hide KnownRoles, NamedWorkspace, PublicId, Credential, BusinessWorkspaces, AvailableModes, FindWorkspace;
  }

  lemma {:induction false} ChangesKeepBusiness(session: Session, changes: seq<Change>)
    requires BusinessWorkspaces(session.kept.workspaces) && ProjectedRenewals(changes)
    ensures BusinessWorkspaces(ApplyAll(session, changes).kept.workspaces)
    decreases |changes|
  {
    hide Apply, BusinessWorkspaces, Projected;
    if changes != [] {
      if changes[0].Refresh? {
        ProjectionIsBusiness(changes[0].renewal.bootstrap);
      }
      ChangeKeepsBusiness(session, changes[0]);
      assert forall i :: 0 <= i < |changes[1..]| ==> changes[1..][i] == changes[i + 1];
      ChangesKeepBusiness(Apply(session, changes[0]), changes[1..]);
    }
  }

  /** With the answers that the app's adapter passes on, a session signed in, changed and refreshed at will is always what
      the device accepts, and comes back after a restart as itself, without its access token, until it expires. */
  lemma ProjectedSessionSurvives(input: SignIn, changes: seq<Change>, now: int)
    requires input.Valid() && CompletedSession(input).Success? && Projected(input.bootstrap) && ProjectedRenewals(changes)
    ensures var session := ApplyAll(CompletedSession(input).value, changes);
            var restored := StateFrom(Acceptable(true, Some(Readable(Persisted(session)))), now);
            && session.kept.expiresAt.Some?
            && IsPersistedSession(Persisted(session))
            && restored == if now < session.kept.expiresAt.value then Authenticated(Session(session.kept, None, None, Api)) else SessionExpired
  {
    ProjectionIsBusiness(input.bootstrap);
    SignedInWorkspaces(input);
    SignInBuilds(input);
    hide CompletedSession, ApplyAll, KnownRoles, IsPersistedSession, BusinessWorkspaces, Projected, ProjectedRenewals, StateFrom, Built;
    ChangesKeepBusiness(CompletedSession(input).value, changes);
    ChangesKeepBuilt(CompletedSession(input).value, changes);
    AcceptedExactlyWhenWorkspacesAreBusiness(ApplyAll(CompletedSession(input).value, changes));
    SessionSurvivesExactlyWhen(input, changes, now);
  }

  lemma SignedInWorkspaces(input: SignIn)
    requires input.Valid() && CompletedSession(input).Success?
    ensures input.bootstrap.Some? && input.bootstrap.value.workspaces.Some?
    ensures CompletedSession(input).value.kept.workspaces == input.bootstrap.value.workspaces.value
  {
    hide KnownRoles, NamedWorkspace, PublicId, Credential, AvailableModes, FindWorkspace;
  }

  // ----- without the adapter

  const ZEROS := seq(32, _ => 0)

  const TOKEN := seq(32, _ => 'a')

  /** A creator whose only workspace carries the creator role. */
  const CREATOR_SIGN_IN :=
    SignIn(Some(TokenSet(true, TOKEN, 3600, Some(TOKEN), None)), true, ZEROS,
           Some(Bootstrap(Active, Some(100), Google, [Creator], "ses_" + Hex(ZEROS), "usr_aaaaaaaa",
                          Some([Workspace("Studio", "biz_aaaaaaaa", Creator)]), None, None)),
           None, None, 0)

  /** The sign-in itself accepts a workspace role that the device's own check then refuses, so it can succeed, keep the
      session on the device, and have it forgotten at the next start although it has not expired. No answer that went
      through the app's adapter is like that. */
  lemma SessionCanBeForgotten()
    ensures CREATOR_SIGN_IN.Valid() && CompletedSession(CREATOR_SIGN_IN).Success? && !Projected(CREATOR_SIGN_IN.bootstrap)
    ensures var session := CompletedSession(CREATOR_SIGN_IN).value;
            && session.kept.expiresAt == Some(100)
            && forall now :: StateFrom(Acceptable(true, Some(Readable(Persisted(session)))), now) == Anonymous
  {
    FreshPublicIdIsAccepted(ZEROS);
    assert PublicId("usr_aaaaaaaa", "usr_") && PublicId("biz_aaaaaaaa", "biz_");
    assert SafeBootstrap(CREATOR_SIGN_IN.bootstrap.value, 0);
    assert CompletedSession(CREATOR_SIGN_IN).Success?;
    var session := CompletedSession(CREATOR_SIGN_IN).value;
    hide CompletedSession;
    SessionSurvivesExactlyWhen(CREATOR_SIGN_IN, [], 0);
    hide Projected;
    if Projected(CREATOR_SIGN_IN.bootstrap) {
      ProjectionIsBusiness(CREATOR_SIGN_IN.bootstrap);
      assert false;
    }
  }

  /** The session can be used for what it shows: creator mode always, business mode exactly with a workspace selected, and
      then for that workspace in its role. */
  lemma ApiContextExactlyWhen(input: SignIn, changes: seq<Change>)
    requires input.Valid() && CompletedSession(input).Success?
    ensures var session := ApplyAll(CompletedSession(input).value, changes);
            var kept, context := session.kept, ApiContextFor(session);
            && (context.Success? <==> kept.selectedMode == CreatorMode || (kept.selectedMode == BusinessMode && kept.workspacePublicId.Some?))
            && (kept.selectedMode == BusinessMode && kept.workspacePublicId.Some? ==>
                  && kept.workspaceRole.Some?
                  && context == Success(BusinessContext(kept.workspacePublicId.value, kept.workspaceRole.value)))
  {
    SignInBuilds(input);
    ChangesKeepBuilt(CompletedSession(input).value, changes);
    var session := ApplyAll(CompletedSession(input).value, changes);
    var kept := session.kept;
    ModesKnown(kept.roles, kept.selectedMode);
    if kept.workspacePublicId.Some? {
      var found := FindWorkspace(kept.workspaces, kept.workspacePublicId).value;
      var i :| 0 <= i < |kept.workspaces| && kept.workspaces[i] == found;
      assert NamedWorkspace(kept.workspaces[i], kept.roles);
    }
    hide CompletedSession, ApplyAll, KnownRoles, FindWorkspace, AvailableModes;
  }

  /** A refresh keeps the chosen mode while the account still has it, and the chosen workspace while it is still listed. */
  lemma RefreshKeepsChoices(session: Session, renewal: Renewal)
    requires Built(session) && RefreshedSession(session, renewal).Success?
    ensures var kept, kept' := session.kept, RefreshedSession(session, renewal).value.kept;
            && (kept'.selectedMode == kept.selectedMode <==> kept.selectedMode in AvailableModes(kept'.roles))
            && ((exists i :: 0 <= i < |kept'.workspaces| && Some(kept'.workspaces[i].publicId) == kept.workspacePublicId) ==>
                  kept'.workspacePublicId == kept.workspacePublicId)
            && kept'.sessionPublicId == kept.sessionPublicId
  {
    hide Built, Credential, PublicId, KnownRoles;
  }
}
