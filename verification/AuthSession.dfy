/** The mobile session: choosing a mode and a workspace, keeping the session on the device, and restoring it. */
module AuthSession {
  import opened Wrappers

  // Values that arrive as text may be none of the known ones.
  datatype AccountStatus = Active | DeletionRequested | Disabled | UnknownStatus(text: string)

  datatype Role = BusinessManager | BusinessOwner | Creator | VenueStaff | UnknownRole(text: string)

  datatype Mode = BusinessMode | CreatorMode | VenueStaffMode | UnknownMode(text: string)

  datatype Provider = Apple | Google | Microsoft | PasswordlessEmail | UnknownProvider(text: string)

  datatype Workspace = Workspace(name: string, publicId: string, role: Role)

  /** `expiresAt` is the parsed date, missing when the text is not one. */
  datatype PersistedSession = PersistedSession(version: int, accountStatus: AccountStatus, expiresAt: Option<int>, provider: Provider,
                                               refreshCredential: Option<string>, roles: seq<Role>, selectedMode: Mode,
                                               sessionPublicId: string, userPublicId: string, workspaces: seq<Workspace>,
                                               workspacePublicId: Option<string>, workspaceRole: Option<Role>)

  datatype Source = Api | LocalPreview

  datatype Session = Session(kept: PersistedSession, accessToken: Option<string>, accessTokenExpiresAt: Option<int>, source: Source)

  datatype AuthState =
    | Anonymous
    | Blocked(status: AccountStatus)
    | SessionExpired
    | Authenticated(session: Session)

  datatype Error = NoSuchMode | NoSuchWorkspace | NoCreatorAccess | WorkspaceRequired | WorkspaceRoleRequired | NoVenueAccess

  predicate IsBusiness(role: Role) { role == BusinessOwner || role == BusinessManager }

  function AvailableModes(roles: seq<Role>): seq<Mode> {
    (if Creator in roles then [CreatorMode] else [])
    + (if BusinessOwner in roles || BusinessManager in roles then [BusinessMode] else [])
    + (if VenueStaff in roles then [VenueStaffMode] else [])
  }

  /** The first workspace with a public id. */
  function FindWorkspace(workspaces: seq<Workspace>, publicId: Option<string>): (found: Option<Workspace>)
    ensures found.Some? ==> found.value in workspaces && Some(found.value.publicId) == publicId
    ensures found.None? ==> forall i :: 0 <= i < |workspaces| ==> Some(workspaces[i].publicId) != publicId
  {
    if workspaces == [] then None
    else if Some(workspaces[0].publicId) == publicId then Some(workspaces[0])
    else FindWorkspace(workspaces[1..], publicId)
  }

  // ----- selections

  function SelectMode(state: AuthState, mode: Mode): Result<AuthState, Error> {
    if !state.Authenticated? then Success(state)
    else if mode !in AvailableModes(state.session.kept.roles) then Failure(NoSuchMode)
    else Success(Authenticated(state.session.(kept := state.session.kept.(selectedMode := mode))))
  }

  function SelectWorkspace(state: AuthState, publicId: string): Result<AuthState, Error> {
    if !state.Authenticated? then Success(state)
    else
      var workspace := FindWorkspace(state.session.kept.workspaces, Some(publicId));
      if workspace.None? || workspace.value.role !in state.session.kept.roles then Failure(NoSuchWorkspace)
      else
        Success(Authenticated(state.session.(kept := state.session.kept.(
          selectedMode := BusinessMode, workspacePublicId := Some(workspace.value.publicId), workspaceRole := Some(workspace.value.role)))))
  }

  datatype ApiContext = CreatorContext | BusinessContext(businessPublicId: string, role: Role)

  function ApiContextFor(session: Session): Result<ApiContext, Error> {
    var kept := session.kept;
    match kept.selectedMode
    case CreatorMode => if Creator in kept.roles then Success(CreatorContext) else Failure(NoCreatorAccess)
    case BusinessMode =>
      if kept.workspacePublicId.None? || kept.workspacePublicId.value == "" then Failure(WorkspaceRequired)
      else
        var workspace := FindWorkspace(kept.workspaces, kept.workspacePublicId);
        if workspace.Some? && Some(workspace.value.role) == kept.workspaceRole && workspace.value.role in kept.roles
        then Success(BusinessContext(workspace.value.publicId, workspace.value.role))
        else Failure(WorkspaceRoleRequired)
    case _ => Failure(NoVenueAccess)
  }

  // ----- what may be kept on the device

  predicate PublicId(text: string, prefix: string) {
    && prefix <= text && 8 <= |text| - |prefix| <= 100
    && forall i :: |prefix| <= i < |text| ==> 'a' <= text[i] <= 'z' || '0' <= text[i] <= '9' || text[i] == '_'
  }

  predicate Credential(text: string, shortest: nat) {
    && shortest <= |text| <= 8000
    && forall i :: 0 <= i < |text| ==>
         'A' <= text[i] <= 'Z' || 'a' <= text[i] <= 'z' || '0' <= text[i] <= '9' || text[i] in ['.', '_', '~', '-']
  }

  predicate Distinct<T(==)>(xs: seq<T>) { forall i, j :: 0 <= i < j < |xs| ==> xs[i] != xs[j] }

  predicate DistinctIds(workspaces: seq<Workspace>) {
    forall i, j :: 0 <= i < j < |workspaces| ==> workspaces[i].publicId != workspaces[j].publicId
  }

  predicate KnownRoles(roles: seq<Role>) {
    roles != [] && (forall i :: 0 <= i < |roles| ==> !roles[i].UnknownRole?) && Distinct(roles)
  }

  predicate NamedWorkspace(workspace: Workspace, roles: seq<Role>) {
    0 < |workspace.name| <= 200 && PublicId(workspace.publicId, "biz_") && workspace.role in roles
  }

  predicate IsPersistedSession(p: PersistedSession) {
    && p.version == 1
    && !p.accountStatus.UnknownStatus?
    && p.expiresAt.Some?
    && !p.provider.UnknownProvider?
    && KnownRoles(p.roles)
    && !p.selectedMode.UnknownMode?
    && PublicId(p.sessionPublicId, "ses_")
    && PublicId(p.userPublicId, "usr_")
    && (p.refreshCredential.Some? ==> Credential(p.refreshCredential.value, 16))
    && (p.workspacePublicId.Some? ==> PublicId(p.workspacePublicId.value, "biz_"))
    && (p.workspaceRole.Some? ==> IsBusiness(p.workspaceRole.value) && p.workspaceRole.value in p.roles)
    && (forall i :: 0 <= i < |p.workspaces| ==> NamedWorkspace(p.workspaces[i], p.roles) && IsBusiness(p.workspaces[i].role))
    && DistinctIds(p.workspaces)
    && (p.workspacePublicId.Some? ==>
          var selected := FindWorkspace(p.workspaces, p.workspacePublicId);
          p.workspaceRole == if selected.Some? then Some(selected.value.role) else None)
  }

  function Persisted(session: Session): PersistedSession {
    session.kept.(version := 1)
  }

  // ----- the device's protected store

  /** The stored text: JSON of the session's shape, or anything else. */
  datatype Stored = Readable(value: PersistedSession) | Unreadable

  predicate Accepted(stored: Stored) { stored.Readable? && IsPersistedSession(stored.value) }

  /** `available` is whether the device has a protected store. */
  class NativeSecureSessionStorage {
    const available: bool
    var stored: Option<Stored>

    constructor (available: bool)
      ensures this.available == available && stored == None
    {
      this.available := available;
      stored := None;
    }

    method Clear()
      modifies this
      ensures stored == None
    {
      stored := None;
    }

    /** A stored text that is not an acceptable session is removed. */
    method Load() returns (session: Option<PersistedSession>)
      modifies this
      ensures session == if available && old(stored).Some? && Accepted(old(stored).value) then Some(old(stored).value.value) else None
      ensures stored == if available && old(stored).Some? && !Accepted(old(stored).value) then None else old(stored)
    {
      if !available {
        return None;
      }
      if stored.None? {
        return None;
      }
      if stored.value.Readable? && IsPersistedSession(stored.value.value) {
        return Some(stored.value.value);
      }
      stored := None;
      return None;
    }

    method Save(session: PersistedSession) returns (saved: bool)
      modifies this
      ensures saved == available
      ensures stored == if available then Some(Readable(session)) else old(stored)
    {
      if !available {
        return false;
      }
      stored := Some(Readable(session));
      return true;
    }
  }

  /** The state that a loaded session leads to. */
  function StateFrom(loaded: Option<PersistedSession>, now: int): AuthState {
    if loaded.None? then Anonymous
    else if loaded.value.accountStatus != Active then Blocked(loaded.value.accountStatus)
    else if loaded.value.expiresAt.Some? && loaded.value.expiresAt.value <= now then SessionExpired
    else
      var modes := AvailableModes(loaded.value.roles);
      if modes == [] then Blocked(Disabled)
      else
        var mode := if loaded.value.selectedMode in modes then loaded.value.selectedMode else modes[0];
        Authenticated(Session(loaded.value.(selectedMode := mode), None, None, Api))
  }

  function Acceptable(available: bool, stored: Option<Stored>): Option<PersistedSession> {
    if available && stored.Some? && Accepted(stored.value) then Some(stored.value.value) else None
  }

  /** Restores the session; anything but an authenticated one leaves nothing acceptable behind. */
  method RestoreMobileSession(storage: NativeSecureSessionStorage, now: int) returns (state: AuthState)
    modifies storage
    ensures state == StateFrom(Acceptable(storage.available, old(storage.stored)), now)
    ensures storage.stored == if state.Authenticated? || !storage.available then old(storage.stored) else None
  {
    var session := storage.Load();
    if session.None? {
      return Anonymous;
    }
    if session.value.accountStatus != Active {
      storage.Clear();
      return Blocked(session.value.accountStatus);
    }
    if session.value.expiresAt.Some? && session.value.expiresAt.value <= now {
      storage.Clear();
      return SessionExpired;
    }
    var modes := AvailableModes(session.value.roles);
    if |modes| == 0 {
      storage.Clear();
      return Blocked(Disabled);
    }
    var mode := if session.value.selectedMode in modes then session.value.selectedMode else modes[0];
    return Authenticated(Session(session.value.(selectedMode := mode), None, None, Api));
  }
}
