/** Starting a sign-in and handling its callback. Times are milliseconds; URLs arrive as their parsed parts. */
module OidcClient {
  import opened Wrappers
  import opened Base64Url

  const LIFETIME := 10 * 60 * 1000

  const CALLBACK_URI := "localmissions://auth/callback"

  datatype Error = ConfigInvalid | CallbackInvalid | StateInvalid | TransactionExpired

  datatype Transaction = Transaction(codeChallenge: string, codeVerifier: string, createdAt: int, expiresAt: int, nonce: string,
                                     redirectUri: string, state: string)

  /** What the random source returned for one request. */
  datatype Randomness = Randomness(verifier: seq<Byte>, state: seq<Byte>, nonce: seq<Byte>)
  {
    predicate Valid() { |verifier| == |state| == |nonce| == 32 }
  }

  /** `sha256` is the digest of a text; only the length of what it returns matters here. */
  function CreateRequest(random: Randomness, sha256: string -> seq<Byte>, redirectUri: string, now: int): Result<Transaction, Error> {
    var codeVerifier, state, nonce := Encode(random.verifier), Encode(random.state), Encode(random.nonce);
    var codeChallenge := Encode(sha256(codeVerifier));
    if !OpaquePattern(codeVerifier) || !OpaquePattern(state) || !OpaquePattern(nonce) || !OpaquePattern(codeChallenge)
    then Failure(ConfigInvalid)
    else Success(Transaction(codeChallenge, codeVerifier, now, now + LIFETIME, nonce, redirectUri, state))
  }

  /** `wellFormed`: scheme, host, path and parameter names are the expected ones. Each parameter has all its values. */
  datatype Callback = Callback(wellFormed: bool, state: seq<string>, error: seq<string>, code: seq<string>)

  datatype Answer = Cancelled | ProviderError | CodeReceived(code: string, nonce: string, verifier: string)

  /** A parameter given once, or not at all; an empty value counts as missing. */
  function OneValue(values: seq<string>): Result<Option<string>, Error> {
    if |values| > 1 then Failure(CallbackInvalid)
    else Success(if values == [] || values[0] == "" then None else Some(values[0]))
  }

  /** The part before the store is asked. */
  function RequestedState(callback: Callback): Result<string, Error> {
    if !callback.wellFormed then Failure(CallbackInvalid)
    else
      var state := OneValue(callback.state);
      if state.Failure? then Failure(state.error)
      else if state.value.None? || !OpaquePattern(state.value.value) then Failure(StateInvalid)
      else Success(state.value.value)
  }

  /** The part after the transaction is consumed. */
  function Judge(callback: Callback, transaction: Transaction, now: int): Result<Answer, Error> {
    if transaction.redirectUri != CALLBACK_URI then Failure(CallbackInvalid)
    else if transaction.expiresAt <= now then Failure(TransactionExpired)
    else
      var error, code := OneValue(callback.error), OneValue(callback.code);
      if error.Failure? || code.Failure? then Failure(CallbackInvalid)
      else if error.value == Some("access_denied") && code.value.None? then Success(Cancelled)
      else if error.value.Some? && code.value.None? then Success(ProviderError)
      else if code.value.None? || error.value.Some? || !(8 <= |code.value.value| <= 4000) then Failure(CallbackInvalid)
      else Success(CodeReceived(code.value.value, transaction.nonce, transaction.codeVerifier))
  }

  /** Consumes the pending transaction and answers; no other consumer runs in between. */
  function HandleCallback(callback: Callback, pending: Option<Transaction>, now: int): (Result<Answer, Error>, Option<Transaction>) {
    var state := RequestedState(callback);
    if state.Failure? then (Failure(state.error), pending)
    else if pending.None? || pending.value.state != state.value then (Failure(StateInvalid), pending)
    else (Judge(callback, pending.value, now), None)
  }

  /** With a source of 32 random bytes and a 32-byte digest, a request is never refused. */
  lemma RequestIsNeverRefused(random: Randomness, sha256: string -> seq<Byte>, redirectUri: string, now: int)
    requires random.Valid() && |sha256(Encode(random.verifier))| == 32
    ensures CreateRequest(random, sha256, redirectUri, now).Success?
  {
    ShapeGuardNeverFires(random.verifier);
    ShapeGuardNeverFires(random.state);
    ShapeGuardNeverFires(random.nonce);
    ShapeGuardNeverFires(sha256(Encode(random.verifier)));
  }

  /** Two requests have the same state, nonce and verifier only when the random source repeated itself. */
  lemma RequestsAreToldApart(x: Randomness, y: Randomness, sha256: string -> seq<Byte>, redirectUri: string, now: int, later: int)
    requires CreateRequest(x, sha256, redirectUri, now).Success? && CreateRequest(y, sha256, redirectUri, later).Success?
    ensures var first, second := CreateRequest(x, sha256, redirectUri, now).value, CreateRequest(y, sha256, redirectUri, later).value;
            && (first.state == second.state <==> x.state == y.state)
            && (first.nonce == second.nonce <==> x.nonce == y.nonce)
            && (first.codeVerifier == second.codeVerifier <==> x.verifier == y.verifier)
  {
    hide OpaquePattern, Encode, Decode;
    DecodeUndoesEncode(x.state);
    DecodeUndoesEncode(y.state);
    DecodeUndoesEncode(x.nonce);
    DecodeUndoesEncode(y.nonce);
    DecodeUndoesEncode(x.verifier);
    DecodeUndoesEncode(y.verifier);
  }

  predicate GivesCode(callback: Callback, code: string) {
    OneValue(callback.error) == Success(None) && OneValue(callback.code) == Success(Some(code)) && 8 <= |code| <= 4000
  }

  lemma StatesAreRequested(callback: Callback, state: string)
    requires callback.wellFormed && callback.state == [state] && OpaquePattern(state)
    ensures RequestedState(callback) == Success(state)
  {
  }

  /** A callback that brings a code back to the request that asked for it, in time, completes it with the request's own
      nonce and verifier; a second callback of that state then finds nothing. */
  lemma CallbackCompletesItsRequest(random: Randomness, sha256: string -> seq<Byte>, now: int, callback: Callback, code: string, later: int)
    requires random.Valid() && |sha256(Encode(random.verifier))| == 32
    requires callback.wellFormed && callback.state == [Encode(random.state)] && GivesCode(callback, code)
    ensures var request := CreateRequest(random, sha256, CALLBACK_URI, now);
            && request.Success?
            && (HandleCallback(callback, Some(request.value), later)
                == if later < now + LIFETIME then (Success(CodeReceived(code, Encode(random.nonce), Encode(random.verifier))), None)
                   else (Failure(TransactionExpired), None))
            && HandleCallback(callback, None, later) == (Failure(StateInvalid), None)
  {
    hide OpaquePattern, Encode;
    RequestIsNeverRefused(random, sha256, CALLBACK_URI, now);
    StatesAreRequested(callback, Encode(random.state));
  }

  /** A code is accepted exactly for a pending, unexpired transaction of the callback's own state; and once the state
      matches, the transaction is spent whatever the answer. */
  lemma CodeNeedsItsTransaction(callback: Callback, pending: Option<Transaction>, now: int)
    ensures var (answer, left) := HandleCallback(callback, pending, now);
            && (answer.Success? && answer.value.CodeReceived? ==>
                  && pending.Some? && callback.state == [pending.value.state] && pending.value.expiresAt > now
                  && answer.value.verifier == pending.value.codeVerifier && answer.value.nonce == pending.value.nonce
                  && GivesCode(callback, answer.value.code))
            && (left == None <==> pending.None? || RequestedState(callback) == Success(pending.value.state))
            && (left.Some? ==> left == pending && answer.Failure?)
  {
    hide OpaquePattern;
  }
}
