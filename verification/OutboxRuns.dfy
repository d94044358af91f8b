/** What every interleaving of the outbox's workers keeps, under any clock. */
module OutboxRuns {
  import opened Wrappers
  import opened Outbox

  /** A worker that crashes simply takes no further step; its lease lapses and another claim takes the message. */
  datatype Op =
    | Enqueue(enqueue: EnqueueRequest)
    | Claim(claim: ClaimRequest)
    | Complete(complete: CompleteRequest)
    | Fail(fail: FailRequest)
    | Replay(replay: ReplayRequest)

  function Perform(s: Tables, op: Op): Tables {
    match op
    case Enqueue(req) => After(s, EnqueueStep(s, req))
    case Claim(req) => After(s, ClaimStep(s, req))
    case Complete(req) => After(s, CompleteStep(s, req))
    case Fail(req) => After(s, FailStep(s, req))
    case Replay(req) => After(s, ReplayStep(s, req))
  }

  function Run(s: Tables, ops: seq<Op>): Tables
    decreases |ops|
  {
    if ops == [] then s else Run(Perform(s, ops[0]), ops[1..])
  }

  ghost predicate Reachable(s: Tables) {
    exists ops :: s == Run(EMPTY_TABLES, ops)
  }

  // ----- histories

  predicate Follows(later: Change, earlier: Change) {
    && later.from == Some(earlier.to)
    && later.version == earlier.version + 1
    && later.attempts == earlier.attempts + (if later.to == Processing then 1 else 0)
    && match earlier.to
       case Pending => later.to == Processing
       case Processing => true
       case DeadLetter => later.to == Pending
       case Completed => false
  }

  /** An unbroken chain from the message's creation to its current status, version and attempt count. */
  ghost predicate Unbroken(message: Message) {
    var h := message.history;
    && h != [] && h[0] == Change(None, Pending, 1, 0)
    && (forall i :: 0 < i < |h| ==> Follows(h[i], h[i - 1]))
    && h[|h| - 1].to == message.status && h[|h| - 1].version == message.version == |h| && h[|h| - 1].attempts == message.attempts
  }

  predicate LeaseSound(message: Message, minted: nat) {
    && (message.lease.Some? <==> message.status == Processing)
    && (message.lease.Some? ==> message.lease.value.token < minted && message.attempts >= 1)
  }

  ghost predicate MessagesHold(messages: seq<Message>, minted: nat) {
    forall m :: 0 <= m < |messages| ==> Unbroken(messages[m]) && LeaseSound(messages[m], minted)
  }

  /** A delivery belongs to an attempt that its message has made and, if still processing, has already ended. */
  predicate DeliverySound(delivery: Delivery, messages: seq<Message>) {
    && delivery.message < |messages|
    && delivery.attempt <= messages[delivery.message].attempts
    && (messages[delivery.message].status == Processing ==> delivery.attempt < messages[delivery.message].attempts)
  }

  predicate SameAttempt(x: Delivery, y: Delivery) {
    x.message == y.message && x.attempt == y.attempt && x.channel == y.channel
  }

  ghost predicate DeliveriesHold(deliveries: seq<Delivery>, messages: seq<Message>) {
    && (forall i :: 0 <= i < |deliveries| ==> DeliverySound(deliveries[i], messages))
    && (forall i, j :: 0 <= i < j < |deliveries| ==> !SameAttempt(deliveries[i], deliveries[j]))
  }

  ghost predicate Invariant(s: Tables) {
    MessagesHold(s.messages, s.minted) && DeliveriesHold(s.deliveries, s.messages)
  }

  // ----- every step keeps them

  lemma WritingKeepsMessages(messages: seq<Message>, minted: nat, m: nat, message: Message, minted': nat)
    requires MessagesHold(messages, minted) && m < |messages| && minted <= minted'
    requires message.version == messages[m].version + 1 && LeaseSound(message, minted')
    requires Follows(Change(Some(messages[m].status), message.status, message.version, message.attempts),
                     messages[m].history[|messages[m].history| - 1])
    ensures MessagesHold(Write(messages, m, message), minted')
  {
    assert Unbroken(messages[m]);
    var written := Write(messages, m, message);
    forall i | 0 < i < |written[m].history| ensures Follows(written[m].history[i], written[m].history[i - 1]) {
      if i < |messages[m].history| {
        assert Follows(messages[m].history[i], messages[m].history[i - 1]);
      }
    }
    forall other | 0 <= other < |written| ensures Unbroken(written[other]) && LeaseSound(written[other], minted') {
      if other != m {
        assert Unbroken(messages[other]) && LeaseSound(messages[other], minted);
      }
    }
  }

  lemma LastChange(messages: seq<Message>, minted: nat, m: nat)
    requires MessagesHold(messages, minted) && m < |messages|
    ensures messages[m].history != [] && LeaseSound(messages[m], minted)
    ensures var last := messages[m].history[|messages[m].history| - 1];
            last.to == messages[m].status && last.version == messages[m].version && last.attempts == messages[m].attempts
  {
    assert Unbroken(messages[m]);
  }

  lemma MovingOnKeepsDeliveries(deliveries: seq<Delivery>, messages: seq<Message>, m: nat, message: Message)
    requires DeliveriesHold(deliveries, messages) && m < |messages|
    requires message.attempts == messages[m].attempts + if message.status == Processing then 1 else 0
    ensures DeliveriesHold(deliveries, Write(messages, m, message))
  {
    forall i | 0 <= i < |deliveries| ensures DeliverySound(deliveries[i], Write(messages, m, message)) {
      assert DeliverySound(deliveries[i], messages);
    }
  }

  lemma RecordingKeepsDeliveries(deliveries: seq<Delivery>, messages: seq<Message>, m: nat, message: Message, enabled: set<Channel>,
                                 outcome: DeliveryOutcome)
    requires DeliveriesHold(deliveries, messages) && m < |messages| && AttemptsInsert(deliveries, m, messages[m].attempts)
    requires message.attempts == messages[m].attempts && message.status != Processing
    ensures DeliveriesHold(deliveries + Attempts(m, messages[m].attempts, enabled, outcome), Write(messages, m, message))
  {
    MovingOnKeepsDeliveries(deliveries, messages, m, message);
    var added := Attempts(m, messages[m].attempts, enabled, outcome);
    var all := deliveries + added;
    forall i, j | 0 <= i < j < |all| ensures !SameAttempt(all[i], all[j]) {
      if i < |deliveries| <= j {
        assert deliveries[i] in deliveries;
      }
    }
  }

  lemma StepKeepsInvariant(s: Tables, op: Op)
    requires Invariant(s)
    ensures Invariant(Perform(s, op))
  {
    hide Unbroken, NextDue;
    match op
    case Enqueue(req) => EnqueueKeeps(s, req);
    case Claim(req) => ClaimKeeps(s, req);
    case Complete(req) => CompleteKeeps(s, req);
    case Fail(req) => FailKeeps(s, req);
    case Replay(req) => ReplayKeeps(s, req);
  }

  lemma EnqueueKeeps(s: Tables, req: EnqueueRequest)
    requires Invariant(s)
    ensures Invariant(After(s, EnqueueStep(s, req)))
  {
    var after := After(s, EnqueueStep(s, req));
    forall i | 0 <= i < |s.deliveries| ensures DeliverySound(s.deliveries[i], after.messages) {
      assert DeliverySound(s.deliveries[i], s.messages);
    }
    forall m | 0 <= m < |after.messages| ensures Unbroken(after.messages[m]) && LeaseSound(after.messages[m], s.minted) {
      assert m < |s.messages| ==> Unbroken(s.messages[m]);
    }
  }

  lemma ClaimKeeps(s: Tables, req: ClaimRequest)
    requires Invariant(s)
    ensures Invariant(After(s, ClaimStep(s, req)))
  {
    var step := ClaimStep(s, req);
    if step.Commits? && step.value.Some? {
      var m := step.value.value.0;
      LastChange(s.messages, s.minted, m);
      hide MessagesHold, DeliveriesHold;
      var message := s.messages[m].(status := Processing, attempts := s.messages[m].attempts + 1, version := s.messages[m].version + 1,
                                    lease := Some(Lease(s.minted, req.now + req.leaseSeconds)));
      WritingKeepsMessages(s.messages, s.minted, m, message, s.minted + 1);
      MovingOnKeepsDeliveries(s.deliveries, s.messages, m, message);
    }
  }

  lemma CompleteKeeps(s: Tables, req: CompleteRequest)
    requires Invariant(s)
    ensures Invariant(After(s, CompleteStep(s, req)))
  {
    hide MessagesHold, DeliveriesHold, AttemptsInsert;
    var step := CompleteStep(s, req);
    if step.Commits? {
      LastChange(s.messages, s.minted, req.message);
      WritingKeepsMessages(s.messages, s.minted, req.message, step.value, s.minted);
      RecordingKeepsDeliveries(s.deliveries, s.messages, req.message, step.value, req.enabled, NoSend);
    }
  }

  lemma FailKeeps(s: Tables, req: FailRequest)
    requires Invariant(s)
    ensures Invariant(After(s, FailStep(s, req)))
  {
    hide MessagesHold, DeliveriesHold, AttemptsInsert;
    var step := FailStep(s, req);
    if step.Commits? {
      LastChange(s.messages, s.minted, req.message);
      WritingKeepsMessages(s.messages, s.minted, req.message, step.value, s.minted);
      RecordingKeepsDeliveries(s.deliveries, s.messages, req.message, step.value, req.enabled, Failed(req.errorCode));
    }
  }

  lemma ReplayKeeps(s: Tables, req: ReplayRequest)
    requires Invariant(s)
    ensures Invariant(After(s, ReplayStep(s, req)))
  {
    hide MessagesHold, DeliveriesHold;
    var step := ReplayStep(s, req);
    if step.Commits? {
      LastChange(s.messages, s.minted, req.message);
      WritingKeepsMessages(s.messages, s.minted, req.message, step.value, s.minted);
      MovingOnKeepsDeliveries(s.deliveries, s.messages, req.message, step.value);
    }
  }

  lemma {:induction false} RunKeepsInvariant(s: Tables, ops: seq<Op>)
    requires Invariant(s)
    ensures Invariant(Run(s, ops))
    decreases |ops|
  {
    hide Invariant, Perform;
    if ops != [] {
      StepKeepsInvariant(s, ops[0]);
      RunKeepsInvariant(Perform(s, ops[0]), ops[1..]);
    }
  }

  lemma ReachableHolds(s: Tables)
    requires Reachable(s)
    ensures Invariant(s)
  {
    hide Perform;
    var ops :| s == Run(EMPTY_TABLES, ops);
    RunKeepsInvariant(EMPTY_TABLES, ops);
  }

  // ----- deliveries and histories

  /** Every message, attempt and channel has at most one outcome. */
  lemma OneOutcomeEach(s: Tables, i: nat, j: nat)
    requires Reachable(s) && i < |s.deliveries| && j < |s.deliveries| && SameAttempt(s.deliveries[i], s.deliveries[j])
    ensures i == j
  {
    ReachableHolds(s);
    hide MessagesHold;
  }

  /** The unique index on delivery attempts never fires for the holder of a live claim. */
  lemma AttemptIndexNeverFires(s: Tables, m: nat, token: nat)
    requires Reachable(s) && HoldsLease(s, m, token)
    ensures AttemptsInsert(s.deliveries, m, s.messages[m].attempts) && Backoff(s.messages[m].attempts).Some?
  {
    ReachableHolds(s);
    LastChange(s.messages, s.minted, m);
    hide MessagesHold;
    forall delivery <- s.deliveries ensures delivery.message == m ==> delivery.attempt < s.messages[m].attempts {
      var i :| 0 <= i < |s.deliveries| && s.deliveries[i] == delivery;
      assert DeliverySound(s.deliveries[i], s.messages);
    }
  }

  /** Each history is an unbroken chain of allowed changes whose last row is the current status, version and attempt
      count. */
  lemma HistoriesAreUnbroken(s: Tables, m: nat)
    requires Reachable(s) && m < |s.messages|
    ensures Unbroken(s.messages[m])
  {
    hide Unbroken;
    ReachableHolds(s);
  }

  // ----- fencing

  /** A token that is not the message's live lease changes nothing, whatever the clock says. */
  lemma StaleTokenChangesNothing(s: Tables, op: Op, m: nat, token: nat)
    requires !HoldsLease(s, m, token)
    requires || (op.Complete? && op.complete.message == m && op.complete.token == token)
             || (op.Fail? && op.fail.message == m && op.fail.token == token)
    ensures Perform(s, op) == s
  {
  }

  lemma LostTokenStepStaysLost(s: Tables, op: Op, m: nat, token: nat)
    requires token < s.minted && !HoldsLease(s, m, token)
    ensures !HoldsLease(Perform(s, op), m, token) && token < Perform(s, op).minted
  {
  }

  /** Once a minted token has lost its lease it never gets it back, so its worker never changes the message again. */
  lemma {:induction false} LostTokenStaysLost(s: Tables, ops: seq<Op>, m: nat, token: nat)
    requires token < s.minted && !HoldsLease(s, m, token)
    ensures !HoldsLease(Run(s, ops), m, token)
    decreases |ops|
  {
    hide Perform, HoldsLease;
    if ops != [] {
      LostTokenStepStaysLost(s, ops[0], m, token);
      LostTokenStaysLost(Perform(s, ops[0]), ops[1..], m, token);
    }
  }

  lemma StepKeepsCompleted(s: Tables, op: Op, m: nat)
    requires m < |s.messages| && s.messages[m].status == Completed
    ensures m < |Perform(s, op).messages| && Perform(s, op).messages[m] == s.messages[m]
  {
  }

  /** A completed message never changes again; in particular it completes once. */
  lemma {:induction false} CompletedIsFinal(s: Tables, ops: seq<Op>, m: nat)
    requires m < |s.messages| && s.messages[m].status == Completed
    ensures m < |Run(s, ops).messages| && Run(s, ops).messages[m] == s.messages[m]
    decreases |ops|
  {
    hide Perform;
    if ops != [] {
      StepKeepsCompleted(s, ops[0], m);
      CompletedIsFinal(Perform(s, ops[0]), ops[1..], m);
    }
  }

  // ----- attempts and the retry budget

  /** The step reclaims the message from a lapsed lease. */
  predicate Reclaims(s: Tables, op: Op, m: nat) {
    && op.Claim? && m < |s.messages| && s.messages[m].status == Processing
    && ClaimStep(s, op.claim).Commits? && ClaimStep(s, op.claim).value.Some? && ClaimStep(s, op.claim).value.value.0 == m
  }

  /** How often the message is reclaimed along a run. */
  function Lapses(s: Tables, ops: seq<Op>, m: nat): nat
    decreases |ops|
  {
    if ops == [] then 0 else (if Reclaims(s, ops[0], m) then 1 else 0) + Lapses(Perform(s, ops[0]), ops[1..], m)
  }

  predicate WithinBudget(s: Tables, m: nat, lapses: nat) {
    m < |s.messages| ==>
      && s.messages[m].attempts <= s.messages[m].maxAttempts + lapses
      && (s.messages[m].status == Pending ==> s.messages[m].attempts < s.messages[m].maxAttempts + lapses)
  }

  lemma StepWithinBudget(s: Tables, op: Op, m: nat, lapses: nat)
    requires WithinBudget(s, m, lapses)
    ensures WithinBudget(Perform(s, op), m, lapses + if Reclaims(s, op, m) then 1 else 0)
  {
  }

  lemma {:induction false} RunWithinBudget(s: Tables, ops: seq<Op>, m: nat, lapses: nat)
    requires WithinBudget(s, m, lapses)
    ensures WithinBudget(Run(s, ops), m, lapses + Lapses(s, ops, m))
    decreases |ops|
  {
    hide Perform, WithinBudget, Reclaims;
    if ops != [] {
      StepWithinBudget(s, ops[0], m, lapses);
      RunWithinBudget(Perform(s, ops[0]), ops[1..], m, lapses + if Reclaims(s, ops[0], m) then 1 else 0);
    }
  }

  /** Attempts exceed the maximum by no more than the leases that lapsed, so never along a run where none does. */
  lemma AttemptsStayWithinMaximumPlusLapses(ops: seq<Op>, m: nat)
    requires m < |Run(EMPTY_TABLES, ops).messages|
    ensures var message := Run(EMPTY_TABLES, ops).messages[m]; message.attempts <= message.maxAttempts + Lapses(EMPTY_TABLES, ops, m)
  {
    hide Perform;
    RunWithinBudget(EMPTY_TABLES, ops, m, 0);
  }

  /** What is left to do for a message, counting one step for a claim and one for its outcome. */
  function Remaining(message: Message): int {
    match message.status
    case Pending => 2 * (message.maxAttempts - message.attempts)
    case Processing => 2 * (message.maxAttempts - message.attempts) + 1
    case Completed => 0
    case DeadLetter => 0
  }

  /** No lease of the message lapses along the run, and nobody replays it. */
  predicate Undisturbed(s: Tables, ops: seq<Op>, m: nat)
    decreases |ops|
  {
    || ops == []
    || (!Reclaims(s, ops[0], m) && !(ops[0].Replay? && ops[0].replay.message == m) && Undisturbed(Perform(s, ops[0]), ops[1..], m))
  }

  /** How often the message's row is written along a run. */
  function Writes(s: Tables, ops: seq<Op>, m: nat): nat
    requires m < |s.messages|
    decreases |ops|
  {
    if ops == [] then 0
    else
      MessagesStay(s, ops[0], m);
      (if Perform(s, ops[0]).messages[m] != s.messages[m] then 1 else 0) + Writes(Perform(s, ops[0]), ops[1..], m)
  }

  lemma MessagesStay(s: Tables, op: Op, m: nat)
    requires m < |s.messages|
    ensures m < |Perform(s, op).messages|
  {
  }

  lemma EveryWriteIsProgress(s: Tables, op: Op, m: nat)
    requires WithinBudget(s, m, 0) && m < |s.messages| && !Reclaims(s, op, m) && !(op.Replay? && op.replay.message == m)
    ensures m < |Perform(s, op).messages| && WithinBudget(Perform(s, op), m, 0)
    ensures 0 <= Remaining(Perform(s, op).messages[m])
            <= Remaining(s.messages[m]) - if Perform(s, op).messages[m] != s.messages[m] then 1 else 0
  {
    StepWithinBudget(s, op, m, 0);
  }

  lemma {:induction false} BudgetShrinks(s: Tables, ops: seq<Op>, m: nat)
    requires m < |s.messages| && WithinBudget(s, m, 0) && Undisturbed(s, ops, m)
    ensures m < |Run(s, ops).messages|
    ensures 0 <= Remaining(Run(s, ops).messages[m]) <= Remaining(s.messages[m]) - Writes(s, ops, m)
    ensures Remaining(Run(s, ops).messages[m]) == 0 <==> Run(s, ops).messages[m].status in {Completed, DeadLetter}
    decreases |ops|
  {
    hide Perform, Reclaims;
    if ops != [] {
      EveryWriteIsProgress(s, ops[0], m);
      BudgetShrinks(Perform(s, ops[0]), ops[1..], m);
    }
  }

  /** From any state that a run without a lapse of the message's leases reaches, as long as no lease lapses and nobody replays
      the message, it is written only as often as its measure allows; when the measure is used up it is completed or
      dead-lettered. */
  lemma BudgetRunsOut(before: seq<Op>, ops: seq<Op>, m: nat)
    requires m < |Run(EMPTY_TABLES, before).messages| && Lapses(EMPTY_TABLES, before, m) == 0
    requires Undisturbed(Run(EMPTY_TABLES, before), ops, m)
    ensures var s, later := Run(EMPTY_TABLES, before), Run(Run(EMPTY_TABLES, before), ops);
            && m < |later.messages|
            && 0 <= Remaining(later.messages[m]) <= Remaining(s.messages[m]) - Writes(s, ops, m)
            && (Remaining(later.messages[m]) == 0 <==> later.messages[m].status in {Completed, DeadLetter})
  {
    hide Perform, Reclaims;
    RunWithinBudget(EMPTY_TABLES, before, m, 0);
    BudgetShrinks(Run(EMPTY_TABLES, before), ops, m);
  }

  /** A replay leaves at least three more attempts. */
  lemma ReplayRestoresBudget(s: Tables, req: ReplayRequest)
    requires ReplayStep(s, req).Commits?
    ensures var message := ReplayStep(s, req).tables.messages[req.message];
            message.status == Pending && message.maxAttempts - message.attempts >= 3 && Remaining(message) >= 6
  {
  }

  // ----- lapsed leases do exceed the maximum

  function Patient(now: int): Op { Claim(ClaimRequest(true, 15, {}, now)) }

  /** One message, claimed again and again by workers that never report. */
  lemma {:induction false} CrashingWorkers(k: nat) returns (ops: seq<Op>)
    requires k >= 1
    ensures var s := Run(EMPTY_TABLES, ops);
            && |s.messages| == 1 && s.messages[0].attempts == k && s.messages[0].maxAttempts == DEFAULT_MAX_ATTEMPTS
            && s.messages[0].status == Processing && s.messages[0].lease.Some? && s.messages[0].lease.value.until == 15 * k
  {
    if k == 1 {
      ops := [Enqueue(EnqueueRequest("event", true, true, 0)), Patient(0)];
      var first := Perform(EMPTY_TABLES, ops[0]);
      assert NextDue(first.messages, {}, 0) == Some(0);
      assert ops[1..] == [Patient(0)] && [Patient(0)][1..] == [];
      assert Run(EMPTY_TABLES, ops) == Run(first, [Patient(0)]) == Perform(first, Patient(0));
    } else {
      var before := CrashingWorkers(k - 1);
      var s := Run(EMPTY_TABLES, before);
      ops := before + [Patient(15 * (k - 1))];
      RunsThen(EMPTY_TABLES, before, Patient(15 * (k - 1)));
      assert NextDue(s.messages, {}, 15 * (k - 1)) == Some(0);
    }
  }

  lemma {:induction false} RunsThen(s: Tables, ops: seq<Op>, op: Op)
    ensures Run(s, ops + [op]) == Perform(Run(s, ops), op)
    decreases |ops|
  {
    hide Perform;
    if ops == [] {
      assert [op][1..] == [] && [] + [op] == [op];
    } else {
      RunsThen(Perform(s, ops[0]), ops[1..], op);
      assert (ops + [op])[0] == ops[0] && (ops + [op])[1..] == ops[1..] + [op];
    }
  }

  lemma LapsesCanExceedTheMaximum() returns (ops: seq<Op>)
    ensures var s := Run(EMPTY_TABLES, ops); |s.messages| == 1 && s.messages[0].attempts == 6 > s.messages[0].maxAttempts == 5
  {
    ops := CrashingWorkers(6);
  }
}
