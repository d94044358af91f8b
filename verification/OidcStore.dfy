/** The pending sign-in transaction and the promise chain that serializes its consumers.
    Each function is what one caller does between two awaits; any interleaving of them is a run. */
module OidcStore {
  import opened Wrappers
  import opened Sorting

  /** Every save is told apart from the others, even when it repeats a state. */
  datatype Transaction = Transaction(id: nat, state: string)

  datatype Phase =
    | Waiting
    | Loading
    | Loaded(found: Option<Transaction>)
    | Clearing(taken: Transaction)
    | Finishing(result: Option<Transaction>)
    | Done(result: Option<Transaction>)

  /** A call to consume: the promise it awaits, and the one it leaves as the queue's new tail. */
  datatype Call = Call(state: string, previous: nat, promise: nat, phase: Phase)

  datatype Store = Store(calls: seq<Call>, queue: nat, resolved: set<nat>, pending: Option<Transaction>, saves: nat)

  const NEW_STORE := Store([], 0, {0}, None, 0)

  datatype Op = Begin(state: string) | Enter(i: nat) | Load(i: nat) | Decide(i: nat) | Clear(i: nat) | Throw(i: nat) | Release(i: nat)
              | Save(state: string) | ClearAll

  predicate InPhase(s: Store, i: nat, phase: Phase) { i < |s.calls| && s.calls[i].phase == phase }

  function SetPhase(s: Store, i: nat, phase: Phase): Store
    requires i < |s.calls|
  {
    s.(calls := s.calls[i := s.calls[i].(phase := phase)])
  }

  predicate Enabled(s: Store, op: Op) {
    match op
    case Begin(_) => true
    case Enter(i) => InPhase(s, i, Waiting) && s.calls[i].previous in s.resolved
    case Load(i) => InPhase(s, i, Loading)
    case Decide(i) => i < |s.calls| && s.calls[i].phase.Loaded?
    case Clear(i) => i < |s.calls| && s.calls[i].phase.Clearing?
    case Throw(i) => i < |s.calls| && (s.calls[i].phase.Loading? || s.calls[i].phase.Clearing?)
    case Release(i) => i < |s.calls| && s.calls[i].phase.Finishing?
    case Save(_) => true
    case ClearAll => true
  }

  /** A caller that is not at that point does nothing. */
  function Perform(s: Store, op: Op): Store {
    if !Enabled(s, op) then s
    else
      match op
      case Begin(state) => s.(calls := s.calls + [Call(state, s.queue, |s.calls| + 1, Waiting)], queue := |s.calls| + 1)
      case Enter(i) => SetPhase(s, i, Loading)
      case Load(i) => SetPhase(s, i, Loaded(s.pending))
      case Decide(i) =>
        var found := s.calls[i].phase.found;
        SetPhase(s, i, if found.None? || found.value.state != s.calls[i].state then Finishing(None) else Clearing(found.value))
      case Clear(i) => SetPhase(s, i, Finishing(Some(s.calls[i].phase.taken))).(pending := None)
      case Throw(i) => SetPhase(s, i, Finishing(None))
      case Release(i) => SetPhase(s, i, Done(s.calls[i].phase.result)).(resolved := s.resolved + {s.calls[i].promise})
      case Save(state) => s.(pending := Some(Transaction(s.saves, state)), saves := s.saves + 1)
      case ClearAll => s.(pending := None)
  }

  function Run(s: Store, ops: seq<Op>): Store
    decreases |ops|
  {
    if ops == [] then s else Run(Perform(s, ops[0]), ops[1..])
  }

  /** The memory store: its fields are the queue's tail and the pending transaction, and each await splits consume. */
  class MemoryOidcTransactionStore {
    var queue: nat
    var pending: Option<Transaction>
    var calls: seq<Call>
    var resolved: set<nat>
    var saves: nat

    function Contents(): Store
      reads this
    {
      Store(calls, queue, resolved, pending, saves)
    }

    constructor ()
      ensures Contents() == NEW_STORE
    {
      queue, pending, calls, resolved, saves := 0, None, [], {0}, 0;
    }

    method SaveTransaction(state: string)
      modifies this
      ensures Contents() == Perform(old(Contents()), Save(state))
    {
      pending := Some(Transaction(saves, state));
      saves := saves + 1;
    }

    method ClearPending()
      modifies this
      ensures Contents() == Perform(old(Contents()), ClearAll)
    {
      pending := None;
    }

    /** Up to `await previous`. */
    method Consume(state: string) returns (i: nat)
      modifies this
      ensures Contents() == Perform(old(Contents()), Begin(state))
      ensures i == old(|calls|) && InPhase(Contents(), i, Waiting)
    {
      i := |calls|;
      var previous := queue;
      queue := i + 1;
      calls := calls + [Call(state, previous, i + 1, Waiting)];
    }

    /** From `await previous` to `await this.loadPending()`. */
    method Resume(i: nat)
      requires Enabled(Contents(), Enter(i))
      modifies this
      ensures Contents() == Perform(Perform(old(Contents()), Enter(i)), Load(i))
    {
      var found := pending;
      calls := calls[i := calls[i].(phase := Loading)];
      calls := calls[i := calls[i].(phase := Loaded(found))];
    }

    /** From the loaded value to `await this.clear()`, or to the early return. */
    method TakeOrLeave(i: nat)
      requires Enabled(Contents(), Decide(i))
      modifies this
      ensures Contents() == Perform(Perform(old(Contents()), Decide(i)), Clear(i))
    {
      var found := calls[i].phase.found;
      if found.None? || found.value.state != calls[i].state {
        calls := calls[i := calls[i].(phase := Finishing(None))];
        return;
      }
      calls := calls[i := calls[i].(phase := Clearing(found.value))];
      pending := None;
      calls := calls[i := calls[i].(phase := Finishing(Some(found.value)))];
    }

    /** The `finally` block, and the result. */
    method ReleaseTurn(i: nat) returns (result: Option<Transaction>)
      requires Enabled(Contents(), Release(i))
      modifies this
      ensures Contents() == Perform(old(Contents()), Release(i))
      ensures InPhase(Contents(), i, Done(result))
    {
      result := calls[i].phase.result;
      resolved := resolved + {calls[i].promise};
      calls := calls[i := calls[i].(phase := Done(result))];
    }
  }

  // ----- turns

  predicate Critical(call: Call) { !call.phase.Waiting? && !call.phase.Done? }

  predicate Linked(call: Call, i: nat) { call.previous == i && call.promise == i + 1 }

  /** The chain of promises: call i waits for call i - 1, and a promise is resolved exactly when its call is done. */
  ghost predicate Chained(s: Store) {
    && s.queue == |s.calls|
    && (forall i :: 0 <= i < |s.calls| ==> Linked(s.calls[i], i))
    && (forall p :: p in s.resolved <==> p == 0 || (1 <= p <= |s.calls| && s.calls[p - 1].phase.Done?))
  }

  ghost predicate InTurn(calls: seq<Call>) {
    forall i, j :: 0 <= i < j < |calls| ==> !calls[j].phase.Waiting? ==> calls[i].phase.Done?
  }

  function Returned(call: Call): Option<Transaction> {
    if call.phase.Finishing? || call.phase.Done? then call.phase.result else None
  }

  /** The transaction that the call has loaded, is taking or has returned. */
  function Held(call: Call): Option<Transaction> {
    match call.phase
    case Waiting | Loading => None
    case Loaded(found) => found
    case Clearing(taken) => Some(taken)
    case Finishing(result) => result
    case Done(result) => result
  }

  predicate Older(transaction: Option<Transaction>, saves: nat) { transaction.Some? ==> transaction.value.id < saves }

  predicate Differ(x: Option<Transaction>, y: Option<Transaction>) { x.Some? && y.Some? ==> x.value.id != y.value.id }

  ghost predicate TakenOnce(s: Store) {
    && Older(s.pending, s.saves)
    && (forall i :: 0 <= i < |s.calls| ==> Older(Held(s.calls[i]), s.saves) && Differ(Returned(s.calls[i]), s.pending))
    && (forall i, j :: 0 <= i < j < |s.calls| ==> Differ(Held(s.calls[i]), Held(s.calls[j])))
  }

  lemma OneCritical(s: Store, i: nat, j: nat)
    requires InTurn(s.calls) && i < |s.calls| && j < |s.calls| && Critical(s.calls[i]) && Critical(s.calls[j])
    ensures i == j
  {
  }

  lemma StepKeepsChain(s: Store, op: Op)
    requires Chained(s)
    ensures Chained(Perform(s, op))
  {
    var after := Perform(s, op);
    forall i | 0 <= i < |after.calls| ensures Linked(after.calls[i], i) {
      assert i < |s.calls| ==> Linked(s.calls[i], i);
    }
  }

  lemma StepKeepsTurns(s: Store, op: Op)
    requires Chained(s) && InTurn(s.calls)
    ensures InTurn(Perform(s, op).calls)
  {
    if op.Enter? && Enabled(s, op) {
      assert Linked(s.calls[op.i], op.i);
    }
  }

  /** While call i has its turn, the calls before it are done and the calls after it wait. */
  lemma OthersAreIdle(s: Store, i: nat, j: nat)
    requires InTurn(s.calls) && i < |s.calls| && j < |s.calls| && Critical(s.calls[i]) && i != j
    ensures Held(s.calls[j]) == Returned(s.calls[j])
  {
    if Critical(s.calls[j]) {
      OneCritical(s, i, j);
    }
  }

  lemma LoadTakesOnce(s: Store, i: nat)
    requires InTurn(s.calls) && TakenOnce(s) && Enabled(s, Load(i))
    ensures TakenOnce(Perform(s, Load(i)))
  {
    forall j | 0 <= j < |s.calls| && j != i ensures Differ(Held(s.calls[j]), s.pending) {
      OthersAreIdle(s, i, j);
    }
  }

  lemma ClearTakesOnce(s: Store, i: nat)
    requires TakenOnce(s) && Enabled(s, Clear(i))
    ensures TakenOnce(Perform(s, Clear(i)))
  {
  }

  lemma HoldingNoMoreTakesOnce(s: Store, i: nat, phase: Phase)
    requires TakenOnce(s) && i < |s.calls|
    requires Held(s.calls[i].(phase := phase)) in {None, Held(s.calls[i])}
    requires Returned(s.calls[i].(phase := phase)) in {None, Returned(s.calls[i])}
    ensures TakenOnce(SetPhase(s, i, phase))
  {
  }

  lemma StepTakesOnce(s: Store, op: Op)
    requires InTurn(s.calls) && TakenOnce(s)
    ensures TakenOnce(Perform(s, op))
  {
    if Enabled(s, op) {
      match op
      case Load(i) => LoadTakesOnce(s, i);
      case Clear(i) => ClearTakesOnce(s, i);
      case Enter(i) => HoldingNoMoreTakesOnce(s, i, Loading);
      case Throw(i) => HoldingNoMoreTakesOnce(s, i, Finishing(None));
      case Release(i) => HoldingNoMoreTakesOnce(s, i, Done(s.calls[i].phase.result));
      case _ =>
    }
  }

  lemma {:induction false} RunKeeps(s: Store, ops: seq<Op>)
    requires Chained(s) && InTurn(s.calls) && TakenOnce(s)
    ensures Chained(Run(s, ops)) && InTurn(Run(s, ops).calls) && TakenOnce(Run(s, ops))
    decreases |ops|
  {
    hide Chained, InTurn, TakenOnce, Perform;
    if ops != [] {
      StepKeepsChain(s, ops[0]);
      StepKeepsTurns(s, ops[0]);
      StepTakesOnce(s, ops[0]);
      RunKeeps(Perform(s, ops[0]), ops[1..]);
    }
  }

  /** At most one consumer is between its turn and its release, and turns are taken in the order of the calls. */
  lemma ConsumersTakeTurns(ops: seq<Op>, i: nat, j: nat)
    requires i < j < |Run(NEW_STORE, ops).calls|
    ensures var calls := Run(NEW_STORE, ops).calls;
            && !(Critical(calls[i]) && Critical(calls[j]))
            && (!calls[j].phase.Waiting? ==> calls[i].phase.Done?)
  {
    RunKeeps(NEW_STORE, ops);
  }

  /** A saved transaction is returned by at most one consume, however calls, saves and failures interleave. */
  lemma SavedTransactionIsReturnedOnce(ops: seq<Op>, i: nat, j: nat)
    requires var calls := Run(NEW_STORE, ops).calls;
             && i < |calls| && j < |calls| && Returned(calls[i]).Some? && Returned(calls[j]).Some?
             && Returned(calls[i]).value.id == Returned(calls[j]).value.id
    ensures i == j
  {
    RunKeeps(NEW_STORE, ops);
    hide Chained;
  }

  /** What a consume returns is a saved transaction of the state it was asked for. */
  ghost predicate AsAsked(s: Store) {
    forall i :: 0 <= i < |s.calls| ==>
      && (Returned(s.calls[i]).Some? ==> Returned(s.calls[i]).value.state == s.calls[i].state)
      && (s.calls[i].phase.Clearing? ==> s.calls[i].phase.taken.state == s.calls[i].state)
  }

  lemma {:induction false} ReturnedAsAsked(s: Store, ops: seq<Op>)
    requires AsAsked(s)
    ensures AsAsked(Run(s, ops))
    decreases |ops|
  {
    if ops != [] {
      assert AsAsked(Perform(s, ops[0]));
      hide Perform, AsAsked;
      ReturnedAsAsked(Perform(s, ops[0]), ops[1..]);
    }
  }

  /** As long as some call is not done, some call can move: a failure releases its turn like a success. */
  lemma {:induction false} NobodyIsStuck(s: Store, i: nat) returns (op: Op)
    requires Chained(s) && i < |s.calls| && !s.calls[i].phase.Done?
    ensures Enabled(s, op) && !op.Begin? && !op.Save? && !op.ClearAll? && !op.Throw? && Perform(s, op) != s
  {
    match s.calls[i].phase
    case Waiting =>
      assert Linked(s.calls[i], i);
      if i == 0 || s.calls[i - 1].phase.Done? {
        op := Enter(i);
      } else {
        op := NobodyIsStuck(s, i - 1);
      }
    case Loading => op := Load(i);
    case Loaded(_) => op := Decide(i);
    case Clearing(_) => op := Clear(i);
    case Finishing(_) => op := Release(i);
    case Done(_) => assert false;
  }

  // ----- every call finishes

  /** How many moves a call has left at most. */
  function MovesLeft(call: Call): int {
    match call.phase
    case Waiting => 5
    case Loading => 4
    case Loaded(_) => 3
    case Clearing(_) => 2
    case Finishing(_) => 1
    case Done(_) => 0
  }

  predicate IsMove(op: Op) { !op.Begin? && !op.Save? && !op.ClearAll? }

  ghost predicate AllDone(s: Store) { forall i :: 0 <= i < |s.calls| ==> s.calls[i].phase.Done? }

  lemma {:induction false} MovesAreNotNegative(calls: seq<Call>)
    ensures Sum(calls, MovesLeft) >= 0
  {
    if calls != [] {
      MovesAreNotNegative(calls[1..]);
    }
  }

  lemma MoveSpendsMoves(s: Store, op: Op)
    requires IsMove(op) && Enabled(s, op)
    ensures Sum(Perform(s, op).calls, MovesLeft) < Sum(s.calls, MovesLeft)
  {
    SumOfUpdate(s.calls, op.i, Perform(s, op).calls[op.i], MovesLeft);
  }

  /** Only so many moves can follow one another, failures included, before new calls come. */
  lemma {:induction false} MovesRunOut(s: Store, ops: seq<Op>)
    requires forall k :: 0 <= k < |ops| ==> IsMove(ops[k]) && Enabled(Run(s, ops[..k]), ops[k])
    ensures |ops| <= Sum(s.calls, MovesLeft)
    decreases |ops|
  {
    MovesAreNotNegative(s.calls);
    if ops != [] {
      assert ops[..0] == [] && Run(s, []) == s;
      MoveSpendsMoves(s, ops[0]);
      var rest := ops[1..];
      hide Perform, Enabled, IsMove;
      forall k | 0 <= k < |rest| ensures IsMove(rest[k]) && Enabled(Run(Perform(s, ops[0]), rest[..k]), rest[k]) {
        assert rest[k] == ops[k + 1] && ops[..k + 1][0] == ops[0] && ops[..k + 1][1..] == rest[..k];
      }
      MovesRunOut(Perform(s, ops[0]), rest);
    }
  }

  /** So every call finishes: whatever has happened, moves of the calls alone, without a failure, end them all. */
  lemma {:induction false} EveryCallFinishes(s: Store) returns (ops: seq<Op>)
    requires Chained(s)
    ensures AllDone(Run(s, ops)) && forall op <- ops :: IsMove(op) && !op.Throw?
    decreases Sum(s.calls, MovesLeft)
  {
    if AllDone(s) {
      ops := [];
    } else {
      var i :| 0 <= i < |s.calls| && !s.calls[i].phase.Done?;
      var op := NobodyIsStuck(s, i);
      MoveSpendsMoves(s, op);
      MovesAreNotNegative(Perform(s, op).calls);
      StepKeepsChain(s, op);
      hide Perform, Chained, AllDone, Enabled;
      var rest := EveryCallFinishes(Perform(s, op));
      ops := [op] + rest;
      assert ops[1..] == rest;
    }
  }

  // ----- a save that lands between a consumer's load and its clear is lost

  predicate Quiet(ops: seq<Op>) { forall op <- ops :: !op.Save? && !op.ClearAll? }

  predicate Took(s: Store, i: nat, transaction: Transaction) {
    i < |s.calls| && (s.calls[i].phase == Loaded(Some(transaction)) || s.calls[i].phase == Clearing(transaction))
  }

  /** The transaction was overwritten or cleared since it was loaded. */
  predicate Replaced(s: Store, transaction: Transaction) {
    transaction.id < s.saves && s.pending != Some(transaction)
  }

  lemma QuietStep(s: Store, op: Op, i: nat, transaction: Transaction)
    requires InTurn(s.calls) && Took(s, i, transaction) && Took(Perform(s, op), i, transaction) && transaction.id < s.saves
    ensures s.pending == Some(transaction) && !op.Save? && !op.ClearAll? ==> Perform(s, op).pending == Some(transaction)
    ensures op.Save? || op.ClearAll? || Replaced(s, transaction) ==> Replaced(Perform(s, op), transaction)
    ensures transaction.id < Perform(s, op).saves
  {
    if op.Clear? && Enabled(s, op) {
      OneCritical(s, i, op.i);
    }
  }

  /** A call that has loaded never loads again: phases do not go back. */
  predicate HasLoaded(s: Store, i: nat) { i < |s.calls| && !s.calls[i].phase.Waiting? && !s.calls[i].phase.Loading? }

  lemma TookBefore(s: Store, op: Op, i: nat, transaction: Transaction)
    requires HasLoaded(s, i)
    ensures HasLoaded(Perform(s, op), i) && (Took(Perform(s, op), i, transaction) ==> Took(s, i, transaction))
  {
  }

  lemma {:induction false} StillTaken(s: Store, ops: seq<Op>, i: nat, transaction: Transaction)
    requires HasLoaded(s, i) && Took(Run(s, ops), i, transaction)
    ensures Took(s, i, transaction)
    decreases |ops|
  {
    hide Took, HasLoaded, Perform;
    if ops != [] {
      TookBefore(s, ops[0], i, transaction);
      StillTaken(Perform(s, ops[0]), ops[1..], i, transaction);
    }
  }

  lemma {:induction false} LossIsDecided(s: Store, ops: seq<Op>, i: nat, transaction: Transaction)
    requires Chained(s) && InTurn(s.calls) && HasLoaded(s, i) && Took(s, i, transaction) && transaction.id < s.saves
    requires Took(Run(s, ops), i, transaction)
    ensures s.pending == Some(transaction) && Quiet(ops) ==> Run(s, ops).pending == Some(transaction)
    ensures Replaced(s, transaction) || !Quiet(ops) ==> Replaced(Run(s, ops), transaction)
    decreases |ops|
  {
    hide Took, Chained, InTurn, Perform, HasLoaded;
    if ops != [] {
      TookBefore(s, ops[0], i, transaction);
      StillTaken(Perform(s, ops[0]), ops[1..], i, transaction);
      QuietStep(s, ops[0], i, transaction);
      StepKeepsChain(s, ops[0]);
      StepKeepsTurns(s, ops[0]);
      LossIsDecided(Perform(s, ops[0]), ops[1..], i, transaction);
      assert Quiet(ops) <==> !ops[0].Save? && !ops[0].ClearAll? && Quiet(ops[1..]) by {
        assert ops == [ops[0]] + ops[1..];
      }
    }
  }

  /** A consumer's clear removes just the transaction it loaded exactly when nothing was saved or cleared in between;
      otherwise, whatever is pending by then is lost. */
  lemma ClearLosesExactlyWhen(s: Store, ops: seq<Op>, i: nat, transaction: Transaction)
    requires Chained(s) && InTurn(s.calls) && TakenOnce(s) && InPhase(s, i, Loading) && s.pending == Some(transaction)
    requires InPhase(Run(Perform(s, Load(i)), ops), i, Clearing(transaction))
    ensures Run(Perform(s, Load(i)), ops).pending == Some(transaction) <==> Quiet(ops)
    ensures Perform(Run(Perform(s, Load(i)), ops), Clear(i)).pending == None
  {
    var loaded := Perform(s, Load(i));
    StepKeepsChain(s, Load(i));
    StepKeepsTurns(s, Load(i));
    hide Chained, InTurn, TakenOnce;
    LossIsDecided(loaded, ops, i, transaction);
  }

  // ----- the same from the side of the save

  /** The call has found a transaction of its own state and will clear whatever is pending when it gets there. */
  predicate WillClear(s: Store, i: nat) {
    && i < |s.calls|
    && (s.calls[i].phase.Clearing?
        || (s.calls[i].phase.Loaded? && s.calls[i].phase.found.Some? && s.calls[i].phase.found.value.state == s.calls[i].state))
  }

  /** The transaction is still there to be consumed, or has been returned. */
  ghost predicate Survives(s: Store, transaction: Transaction) {
    s.pending == Some(transaction) || exists i :: 0 <= i < |s.calls| && Returned(s.calls[i]) == Some(transaction)
  }

  /** Only calls that hold the transaction are about to clear it. */
  ghost predicate Safe(s: Store, transaction: Transaction) {
    || (s.pending == Some(transaction) && forall i: nat :: WillClear(s, i) ==> Held(s.calls[i]) == Some(transaction))
    || exists i :: 0 <= i < |s.calls| && Returned(s.calls[i]) == Some(transaction)
  }

  lemma StepStaysSafe(s: Store, op: Op, transaction: Transaction)
    requires Safe(s, transaction) && !op.Save? && !op.ClearAll?
    ensures Safe(Perform(s, op), transaction)
  {
    var after := Perform(s, op);
    if i :| 0 <= i < |s.calls| && Returned(s.calls[i]) == Some(transaction) {
      assert Returned(after.calls[i]) == Some(transaction);
    } else {
      if op.Clear? && Enabled(s, op) {
        assert WillClear(s, op.i);
        assert Returned(after.calls[op.i]) == Some(transaction);
      }
      forall i: nat | WillClear(after, i) && after.pending == Some(transaction) ensures Held(after.calls[i]) == Some(transaction) {
        assert !(op.Load? && op.i == i && Enabled(s, op)) ==> WillClear(s, i);
      }
    }
  }

  lemma {:induction false} RunStaysSafe(s: Store, ops: seq<Op>, transaction: Transaction)
    requires Safe(s, transaction) && Quiet(ops)
    ensures Safe(Run(s, ops), transaction)
    decreases |ops|
  {
    hide Safe, Perform;
    if ops != [] {
      assert ops[0] in ops && forall op <- ops[1..] :: op in ops;
      StepStaysSafe(s, ops[0], transaction);
      RunStaysSafe(Perform(s, ops[0]), ops[1..], transaction);
    }
  }

  lemma ClearDropsOthers(s: Store, i: nat, transaction: Transaction)
    requires i < |s.calls| && s.calls[i].phase.Clearing? && Held(s.calls[i]) != Some(transaction)
    requires forall j :: 0 <= j < |s.calls| ==> Returned(s.calls[j]) != Some(transaction)
    ensures !Survives(Run(s, [Clear(i)]), transaction)
  {
    assert [Clear(i)][1..] == [];
    assert Run(s, [Clear(i)]) == Perform(s, Clear(i));
  }

  lemma DecidingClears(s: Store, i: nat)
    requires WillClear(s, i) && s.calls[i].phase.Loaded?
    ensures Perform(s, Decide(i)) == SetPhase(s, i, Clearing(s.calls[i].phase.found.value))
    ensures Run(s, [Decide(i), Clear(i)]) == Run(Perform(s, Decide(i)), [Clear(i)])
  {
    assert [Decide(i), Clear(i)][1..] == [Clear(i)];
  }

  /** A call that will clear drops what was saved after it had loaded. */
  lemma WillClearDropsTheSave(s: Store, i: nat, transaction: Transaction) returns (ops: seq<Op>)
    requires WillClear(s, i) && forall j :: 0 <= j < |s.calls| ==> Held(s.calls[j]) != Some(transaction)
    ensures Quiet(ops) && !Survives(Run(s, ops), transaction)
  {
    if s.calls[i].phase.Clearing? {
      ops := [Clear(i)];
      ClearDropsOthers(s, i, transaction);
    } else {
      ops := [Decide(i), Clear(i)];
      DecidingClears(s, i);
      ClearDropsOthers(Perform(s, Decide(i)), i, transaction);
    }
  }

  /** A save is sure to be kept, until it is consumed or until something is saved or cleared, exactly when no call is past
      its load of a transaction that it will take. */
  lemma SaveIsKeptExactlyWhen(before: seq<Op>, state: string)
    ensures var s := Run(NEW_STORE, before);
            var saved, transaction := Perform(s, Save(state)), Transaction(s.saves, state);
            (forall ops :: Quiet(ops) ==> Survives(Run(saved, ops), transaction)) <==> !exists i: nat :: WillClear(s, i)
  {
    RunKeeps(NEW_STORE, before);
    hide Chained, InTurn;
    var s := Run(NEW_STORE, before);
    var saved, transaction := Perform(s, Save(state)), Transaction(s.saves, state);
    assert forall i: nat :: WillClear(saved, i) <==> WillClear(s, i);
    if i: nat :| WillClear(s, i) {
      var ops := WillClearDropsTheSave(saved, i, transaction);
    } else {
      assert Safe(saved, transaction);
      forall ops | Quiet(ops) ensures Survives(Run(saved, ops), transaction) {
        RunStaysSafe(saved, ops, transaction);
      }
    }
  }

  lemma FourSteps(s: Store, a: Op, b: Op, c: Op, d: Op)
    ensures Run(s, [a, b, c, d]) == Perform(Perform(Perform(Perform(s, a), b), c), d)
  {
    hide Perform;
    assert [a, b, c, d][1..] == [b, c, d] && [b, c, d][1..] == [c, d] && [c, d][1..] == [d] && [d][1..] == [];
    assert Run(Perform(s, a), [b, c, d]) == Run(Perform(Perform(s, a), b), [c, d]);
    assert Run(Perform(Perform(s, a), b), [c, d]) == Run(Perform(Perform(Perform(s, a), b), c), [d]);
    assert Run(Perform(Perform(Perform(s, a), b), c), [d]) == Run(Perform(Perform(Perform(Perform(s, a), b), c), d), []);
  }

  lemma {:induction false} RunsCompose(s: Store, first: seq<Op>, second: seq<Op>)
    ensures Run(Run(s, first), second) == Run(s, first + second)
    decreases |first|
  {
    hide Perform;
    if first == [] {
      assert first + second == second;
    } else {
      RunsCompose(Perform(s, first[0]), first[1..], second);
      assert (first + second)[0] == first[0] && (first + second)[1..] == first[1..] + second;
    }
  }

  /** A transaction saved while a consumer is about to clear is gone before anyone could consume it. */
  lemma SaveCanBeLost()
    ensures var s := Run(NEW_STORE, [Save("a"), Begin("a"), Enter(0), Load(0), Decide(0), Save("b"), Clear(0), Release(0)]);
            s.saves == 2 && s.pending == None && |s.calls| == 1 && s.calls[0].phase == Done(Some(Transaction(0, "a")))
  {
    FourSteps(NEW_STORE, Save("a"), Begin("a"), Enter(0), Load(0));
    var loaded := Store([Call("a", 0, 1, Loaded(Some(Transaction(0, "a"))))], 1, {0}, Some(Transaction(0, "a")), 1);
    assert Run(NEW_STORE, [Save("a"), Begin("a"), Enter(0), Load(0)]) == loaded;
    FourSteps(loaded, Decide(0), Save("b"), Clear(0), Release(0));
    RunsCompose(NEW_STORE, [Save("a"), Begin("a"), Enter(0), Load(0)], [Decide(0), Save("b"), Clear(0), Release(0)]);
  }
}
