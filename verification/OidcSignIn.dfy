/** Callbacks that meet in the transaction store: which of them complete a sign-in, however their steps interleave. */
module OidcSignIn {
  import opened Wrappers
  import opened Base64Url
  import opened OidcClient
  import S = OidcStore

  /** The store, the contents of every transaction saved so far, and the callback behind each of its calls. */
  datatype App = App(store: S.Store, saved: seq<Transaction>, callbacks: seq<Callback>)

  const NEW_APP := App(S.NEW_STORE, [], [])

  datatype Step = StartSignIn(transaction: Transaction) | Receive(callback: Callback) | Proceed(move: S.Op) | ForgetPending

  /** A sign-in saves its transaction, a callback with an acceptable state asks the store for it, and any call may go on. */
  function Perform(app: App, step: Step): App {
    match step
    case StartSignIn(transaction) => app.(store := S.Perform(app.store, S.Save(transaction.state)), saved := app.saved + [transaction])
    case Receive(callback) =>
      var state := RequestedState(callback);
      if state.Failure? then app
      else app.(store := S.Perform(app.store, S.Begin(state.value)), callbacks := app.callbacks + [callback])
    case Proceed(move) => if S.IsMove(move) then app.(store := S.Perform(app.store, move)) else app
    case ForgetPending => app.(store := S.Perform(app.store, S.ClearAll))
  }

  function Run(app: App, steps: seq<Step>): App
    decreases |steps|
  {
    if steps == [] then app else Run(Perform(app, steps[0]), steps[1..])
  }

  /** What the i-th callback answers when its call is done. */
  function AnswerOf(app: App, i: nat, now: int): Result<Answer, Error>
    requires i < |app.callbacks| == |app.store.calls| && app.store.calls[i].phase.Done?
  {
    var result := app.store.calls[i].phase.result;
    if result.None? || result.value.id >= |app.saved| then Failure(StateInvalid)
    else Judge(app.callbacks[i], app.saved[result.value.id], now)
  }

  /** The callback answers a code, with the nonce and the verifier of a saved transaction. */
  predicate Completes(app: App, i: nat, now: int, id: nat) {
    && i < |app.callbacks| == |app.store.calls| && app.store.calls[i].phase.Done? && id < |app.saved|
    && app.store.calls[i].phase.result.Some? && app.store.calls[i].phase.result.value.id == id
    && AnswerOf(app, i, now).Success? && AnswerOf(app, i, now).value.CodeReceived?
  }

  // ----- the store's calls are the callbacks, and its ids the saved transactions

  predicate Named(transaction: Option<S.Transaction>, saved: seq<Transaction>) {
    transaction.Some? ==> transaction.value.id < |saved| && saved[transaction.value.id].state == transaction.value.state
  }

  ghost predicate Matched(app: App) {
    && |app.callbacks| == |app.store.calls| && app.store.saves == |app.saved|
    && (forall i :: 0 <= i < |app.callbacks| ==> RequestedState(app.callbacks[i]) == Success(app.store.calls[i].state))
    && (forall i :: 0 <= i < |app.store.calls| ==> Named(S.Held(app.store.calls[i]), app.saved))
    && Named(app.store.pending, app.saved)
  }

  ghost predicate Holds(app: App) {
    Matched(app) && S.Chained(app.store) && S.InTurn(app.store.calls) && S.TakenOnce(app.store) && S.AsAsked(app.store)
  }

  lemma SavingMatches(app: App, transaction: Transaction)
    requires Matched(app)
    ensures Matched(Perform(app, StartSignIn(transaction)))
  {
    hide RequestedState;
  }

  lemma ReceivingMatches(app: App, callback: Callback)
    requires Matched(app)
    ensures Matched(Perform(app, Receive(callback)))
  {
    hide RequestedState;
  }

  lemma MovingMatches(app: App, move: S.Op)
    requires Matched(app)
    ensures Matched(Perform(app, Proceed(move)))
  {
    hide RequestedState;
  }

  lemma ForgettingMatches(app: App)
    requires Matched(app)
    ensures Matched(Perform(app, ForgetPending))
  {
    hide RequestedState;
  }

  /** What a step does to the store, unless it leaves it alone. */
  function StoreStep(step: Step): S.Op {
    match step
    case StartSignIn(transaction) => S.Save(transaction.state)
    case Receive(callback) => S.Begin(if RequestedState(callback).Success? then RequestedState(callback).value else "")
    case Proceed(move) => move
    case ForgetPending => S.ClearAll
  }

  lemma AskedStaysAsked(s: S.Store, op: S.Op)
    requires S.AsAsked(s)
    ensures S.AsAsked(S.Perform(s, op))
  {
  }

  lemma StepHolds(app: App, step: Step)
    requires Holds(app)
    ensures Holds(Perform(app, step))
  {
    hide Matched, S.Chained, S.InTurn, S.TakenOnce, S.AsAsked, S.Perform, RequestedState;
    S.StepKeepsChain(app.store, StoreStep(step));
    S.StepKeepsTurns(app.store, StoreStep(step));
    S.StepTakesOnce(app.store, StoreStep(step));
    AskedStaysAsked(app.store, StoreStep(step));
    match step
    case StartSignIn(transaction) => SavingMatches(app, transaction);
    case Receive(callback) => ReceivingMatches(app, callback);
    case Proceed(move) => MovingMatches(app, move);
    case ForgetPending => ForgettingMatches(app);
  }

  lemma {:induction false} RunHolds(app: App, steps: seq<Step>)
    requires Holds(app)
    ensures Holds(Run(app, steps))
    decreases |steps|
  {
    hide Holds, Perform;
    if steps != [] {
      StepHolds(app, steps[0]);
      RunHolds(Perform(app, steps[0]), steps[1..]);
    }
  }

  /** However sign-ins, callbacks and their steps interleave, and whenever the answers are given, each saved transaction
      completes at most one sign-in. */
  lemma TransactionCompletesOneSignIn(steps: seq<Step>, i: nat, j: nat, now: int, later: int, id: nat)
    requires Completes(Run(NEW_APP, steps), i, now, id) && Completes(Run(NEW_APP, steps), j, later, id)
    ensures i == j
  {
    RunHolds(NEW_APP, steps);
    hide Run, AnswerOf, Matched, S.Chained, S.InTurn, S.AsAsked;
    var calls := Run(NEW_APP, steps).store.calls;
    assert S.Returned(calls[i]).Some? && S.Returned(calls[j]).Some?;
  }

  /** A callback that completes a sign-in completes the one it was sent for: it carries that transaction's state and a code,
      before the transaction expires, and gets that transaction's nonce and verifier. */
  lemma SignInIsItsOwn(steps: seq<Step>, i: nat, now: int)
    requires var app := Run(NEW_APP, steps);
             && i < |app.callbacks| == |app.store.calls| && app.store.calls[i].phase.Done?
             && AnswerOf(app, i, now).Success? && AnswerOf(app, i, now).value.CodeReceived?
    ensures var app := Run(NEW_APP, steps);
            exists id :: 0 <= id < |app.saved| && Completes(app, i, now, id)
                         && app.callbacks[i].state == [app.saved[id].state] && now < app.saved[id].expiresAt
                         && GivesCode(app.callbacks[i], AnswerOf(app, i, now).value.code)
                         && AnswerOf(app, i, now).value.nonce == app.saved[id].nonce
                         && AnswerOf(app, i, now).value.verifier == app.saved[id].codeVerifier
  {
    RunHolds(NEW_APP, steps);
    hide Run, S.Chained, S.InTurn, S.TakenOnce, OpaquePattern;
    var app := Run(NEW_APP, steps);
    var id := app.store.calls[i].phase.result.value.id;
    assert Named(S.Held(app.store.calls[i]), app.saved);
    assert S.Returned(app.store.calls[i]).value.state == app.store.calls[i].state;
    assert RequestedState(app.callbacks[i]) == Success(app.store.calls[i].state);
    assert Completes(app, i, now, id);
  }
}
