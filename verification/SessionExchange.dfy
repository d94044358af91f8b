/** Completing and refreshing a sign-in: the checks on what the servers return, and the session built from it. */
module SessionExchange {
  import opened Wrappers
  import opened AuthSession

  datatype TokenSet = TokenSet(bearer: bool, accessToken: string, expiresInSeconds: int, idToken: Option<string>,
                               refreshCredential: Option<string>)

  /** `workspaces` is missing when the server sent something that is no list. */
  datatype Bootstrap = Bootstrap(accountStatus: AccountStatus, expiresAt: Option<int>, provider: Provider, roles: seq<Role>,
                                 sessionPublicId: string, userPublicId: string, workspaces: Option<seq<Workspace>>,
                                 workspacePublicId: Option<string>, workspaceRole: Option<Role>)

  datatype ExchangeError = ExchangeFailed | IdTokenInvalid | RefreshFailed | SessionInvalid

  // ----- comparing secrets

  /** The exclusive or of two code units or lengths, bit by bit. */
  function Xor(a: nat, b: nat): nat {
    if a == 0 && b == 0 then 0 else (if a % 2 != b % 2 then 1 else 0) + 2 * Xor(a / 2, b / 2)
  }

  function Or(a: nat, b: nat): nat {
    if a == 0 && b == 0 then 0 else (if a % 2 == 1 || b % 2 == 1 then 1 else 0) + 2 * Or(a / 2, b / 2)
  }

  lemma {:induction false} XorIsZeroExactlyForEquals(a: nat, b: nat)
    ensures Xor(a, b) == 0 <==> a == b
  {
    if a != 0 || b != 0 {
      XorIsZeroExactlyForEquals(a / 2, b / 2);
    }
  }

  lemma {:induction false} OrIsZeroExactlyForZeros(a: nat, b: nat)
    ensures Or(a, b) == 0 <==> a == 0 && b == 0
  {
    if a != 0 || b != 0 {
      OrIsZeroExactlyForZeros(a / 2, b / 2);
    }
  }

  /** The code unit at an index, and zero past the end. */
  function CodeAt(text: string, index: nat): nat {
    if index < |text| then text[index] as nat else 0
  }

  /** Looks at every position of the longer text whatever it finds, and tells equal texts from all others. */
  method ConstantTimeEqual(left: string, right: string) returns (equal: bool)
    ensures equal <==> left == right
  {
    var length := if |left| >= |right| then |left| else |right|;
    var difference := Xor(|left|, |right|);
    XorIsZeroExactlyForEquals(|left|, |right|);
    for index := 0 to length
      invariant difference == 0 <==> |left| == |right| && forall i :: 0 <= i < index ==> CodeAt(left, i) == CodeAt(right, i)
    {
      XorIsZeroExactlyForEquals(CodeAt(left, index), CodeAt(right, index));
      OrIsZeroExactlyForZeros(difference, Xor(CodeAt(left, index), CodeAt(right, index)));
      difference := Or(difference, Xor(CodeAt(left, index), CodeAt(right, index)));
    }
    equal := difference == 0;
    if |left| == |right| && difference == 0 {
      forall i | 0 <= i < |left| ensures left[i] == right[i] {
        assert CodeAt(left, i) == CodeAt(right, i);
      }
    }
  }

  // ----- the session's own public id

  function HexDigit(n: nat): char
    requires n < 16
  {
    if n < 10 then '0' + n as char else 'a' + (n - 10) as char
  }

  function Hex(bytes: seq<int>): (text: string)
    requires forall i :: 0 <= i < |bytes| ==> 0 <= bytes[i] < 256
    ensures |text| == 2 * |bytes|
    ensures forall i :: 0 <= i < |text| ==> '0' <= text[i] <= '9' || 'a' <= text[i] <= 'f'
  {
    if bytes == [] then "" else [HexDigit(bytes[0] / 16), HexDigit(bytes[0] % 16)] + Hex(bytes[1..])
  }

  function SessionPublicId(bytes: seq<int>): Result<string, ExchangeError>
    requires forall i :: 0 <= i < |bytes| ==> 0 <= bytes[i] < 256
  {
    if |bytes| != 32 then Failure(SessionInvalid) else Success("ses_" + Hex(bytes))
  }

  lemma FreshPublicIdIsAccepted(bytes: seq<int>)
    requires |bytes| == 32 && forall i :: 0 <= i < |bytes| ==> 0 <= bytes[i] < 256
    ensures PublicId("ses_" + Hex(bytes), "ses_")
  {
  }

  // ----- checking what the servers return

  predicate SafeTokenSet(value: TokenSet, requireIdToken: bool) {
    && value.bearer && Credential(value.accessToken, 32) && 60 <= value.expiresInSeconds <= 86400
    && (requireIdToken ==> value.idToken.Some?)
    && (value.idToken.Some? ==> Credential(value.idToken.value, 32))
    && (value.refreshCredential.Some? ==> Credential(value.refreshCredential.value, 32))
  }

  predicate SafeBootstrap(value: Bootstrap, now: int) {
    && value.accountStatus == Active
    && !value.provider.UnknownProvider?
    && KnownRoles(value.roles)
    && value.expiresAt.Some? && value.expiresAt.value > now
    && PublicId(value.sessionPublicId, "ses_")
    && PublicId(value.userPublicId, "usr_")
    && AvailableModes(value.roles) != []
    && value.workspaces.Some?
    && (forall i :: 0 <= i < |value.workspaces.value| ==> NamedWorkspace(value.workspaces.value[i], value.roles))
    && DistinctIds(value.workspaces.value)
    && (value.workspacePublicId.Some? ==> PublicId(value.workspacePublicId.value, "biz_"))
    && (value.workspaceRole.Some? ==> value.workspaceRole.value in value.roles)
    && (value.workspaceRole.Some? ==> value.workspacePublicId.Some?)
    && (BusinessManager in value.roles || BusinessOwner in value.roles ==> value.workspaces.value != [])
    && (value.workspacePublicId.Some? ==>
          exists i :: 0 <= i < |value.workspaces.value|
                   && Some(value.workspaces.value[i].publicId) == value.workspacePublicId
                   && Some(value.workspaces.value[i].role) == value.workspaceRole)
  }

  // ----- building the session

  function ChosenMode(roles: seq<Role>, preferred: Option<Mode>): Mode
    requires AvailableModes(roles) != []
  {
    if preferred.Some? && preferred.value in AvailableModes(roles) then preferred.value else AvailableModes(roles)[0]
  }

  function RuntimeSession(tokens: TokenSet, bootstrap: Bootstrap, preferredMode: Option<Mode>, preferredWorkspace: Option<string>,
                          refreshCredential: Option<string>, now: int): Session
    requires SafeBootstrap(bootstrap, now)
  {
    var workspaces := bootstrap.workspaces.value;
    var preferred := FindWorkspace(workspaces, preferredWorkspace);
    var selected := if preferred.Some? then preferred else if |workspaces| == 1 then Some(workspaces[0]) else None;
    var kept := PersistedSession(1, bootstrap.accountStatus, bootstrap.expiresAt, bootstrap.provider, refreshCredential, bootstrap.roles,
                                 ChosenMode(bootstrap.roles, preferredMode), bootstrap.sessionPublicId, bootstrap.userPublicId, workspaces,
                                 if selected.Some? then Some(selected.value.publicId) else bootstrap.workspacePublicId,
                                 if selected.Some? then Some(selected.value.role) else bootstrap.workspaceRole);
    Session(kept, Some(tokens.accessToken), Some(now + 1000 * tokens.expiresInSeconds), Api)
  }

  /** What the provider, the verifier and the server answered to one sign-in; an answer is missing when the call failed. */
  datatype SignIn = SignIn(tokens: Option<TokenSet>, idTokenHolds: bool, randomBytes: seq<int>, bootstrap: Option<Bootstrap>,
                           preferredMode: Option<Mode>, preferredWorkspace: Option<string>, now: int)
  {
    predicate Valid() { forall i :: 0 <= i < |randomBytes| ==> 0 <= randomBytes[i] < 256 }
  }

  function CompletedSession(input: SignIn): Result<Session, ExchangeError>
    requires input.Valid()
  {
    if input.tokens.None? || !SafeTokenSet(input.tokens.value, true) then Failure(ExchangeFailed)
    else if !input.idTokenHolds then Failure(IdTokenInvalid)
    else
      var requested := SessionPublicId(input.randomBytes);
      if requested.Failure? then Failure(requested.error)
      else if input.bootstrap.None? then Failure(ExchangeFailed)
      else if !SafeBootstrap(input.bootstrap.value, input.now) || input.bootstrap.value.sessionPublicId != requested.value
      then Failure(SessionInvalid)
      else Success(RuntimeSession(input.tokens.value, input.bootstrap.value, input.preferredMode, input.preferredWorkspace,
                                  input.tokens.value.refreshCredential, input.now))
  }

  datatype Renewal = Renewal(tokens: Option<TokenSet>, bootstrap: Option<Bootstrap>, now: int)

  function RefreshedSession(current: Session, input: Renewal): Result<Session, ExchangeError> {
    if current.kept.refreshCredential.None? || current.kept.refreshCredential.value == "" then Failure(RefreshFailed)
    else if input.tokens.None? then Failure(RefreshFailed)
    else if !SafeTokenSet(input.tokens.value, false) then Failure(ExchangeFailed)
    else if input.bootstrap.None? then Failure(RefreshFailed)
    else if !SafeBootstrap(input.bootstrap.value, input.now) || input.bootstrap.value.sessionPublicId != current.kept.sessionPublicId
    then Failure(SessionInvalid)
    else
      var refreshCredential := if input.tokens.value.refreshCredential.Some? then input.tokens.value.refreshCredential
                               else current.kept.refreshCredential;
      Success(RuntimeSession(input.tokens.value, input.bootstrap.value, Some(current.kept.selectedMode), current.kept.workspacePublicId,
                             refreshCredential, input.now))
  }

  method CompleteOidcMobileSession(storage: NativeSecureSessionStorage, input: SignIn) returns (r: Result<Session, ExchangeError>)
    requires input.Valid()
    modifies storage
    ensures r == if CompletedSession(input).Success? && !storage.available then Failure(ExchangeFailed) else CompletedSession(input)
    ensures storage.stored == if r.Success? then Some(Readable(Persisted(r.value))) else old(storage.stored)
  {
    if input.tokens.None? || !SafeTokenSet(input.tokens.value, true) {
      return Failure(ExchangeFailed);
    }
    if !input.idTokenHolds {
      return Failure(IdTokenInvalid);
    }
    var requested := SessionPublicId(input.randomBytes);
    if requested.Failure? {
      return Failure(requested.error);
    }
    if input.bootstrap.None? {
      return Failure(ExchangeFailed);
    }
    var bootstrap := input.bootstrap.value;
    if !SafeBootstrap(bootstrap, input.now) || bootstrap.sessionPublicId != requested.value {
      return Failure(SessionInvalid);
    }
    var session := RuntimeSession(input.tokens.value, bootstrap, input.preferredMode, input.preferredWorkspace,
                                  input.tokens.value.refreshCredential, input.now);
    var saved := storage.Save(Persisted(session));
    if !saved {
      return Failure(ExchangeFailed);
    }
    return Success(session);
  }

  method RefreshOidcMobileSession(storage: NativeSecureSessionStorage, current: Session, input: Renewal)
    returns (r: Result<Session, ExchangeError>)
    modifies storage
    ensures r == if RefreshedSession(current, input).Success? && !storage.available then Failure(RefreshFailed)
                 else RefreshedSession(current, input)
    ensures storage.stored == if r.Success? then Some(Readable(Persisted(r.value))) else old(storage.stored)
  {
    if current.kept.refreshCredential.None? || current.kept.refreshCredential.value == "" {
      return Failure(RefreshFailed);
    }
    if input.tokens.None? {
      return Failure(RefreshFailed);
    }
    if !SafeTokenSet(input.tokens.value, false) {
      return Failure(ExchangeFailed);
    }
    if input.bootstrap.None? {
      return Failure(RefreshFailed);
    }
    var bootstrap := input.bootstrap.value;
    if !SafeBootstrap(bootstrap, input.now) || bootstrap.sessionPublicId != current.kept.sessionPublicId {
      return Failure(SessionInvalid);
    }
    var refreshCredential := current.kept.refreshCredential;
    if input.tokens.value.refreshCredential.Some? {
      refreshCredential := input.tokens.value.refreshCredential;
    }
    var session := RuntimeSession(input.tokens.value, bootstrap, Some(current.kept.selectedMode), current.kept.workspacePublicId,
                                  refreshCredential, input.now);
    var saved := storage.Save(Persisted(session));
    if !saved {
      return Failure(RefreshFailed);
    }
    return Success(session);
  }
}
