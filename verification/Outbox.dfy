/** The notification outbox: workers claim leases, crash, complete, fail with backoff, dead-letter and are replayed.
    Times are seconds of the database clock, which need not advance from one step to the next. */
module Outbox {
  import opened Wrappers

  datatype Status = Pending | Processing | Completed | DeadLetter

  /** Lock tokens are fresh values, numbered as they are minted. */
  datatype Lease = Lease(token: nat, until: int)

  datatype Change = Change(from: Option<Status>, to: Status, version: nat, attempts: nat)

  /** An outbox row with its status history. */
  datatype Message = Message(status: Status, attempts: nat, maxAttempts: nat, availableAt: int, createdAt: int, lease: Option<Lease>,
                             replays: nat, version: nat, history: seq<Change>)

  datatype Channel = Push | Email

  const CHANNELS: seq<Channel> := [Push, Email]

  datatype DeliveryOutcome = NoSend | Suppressed | Failed(errorCode: string)

  datatype Delivery = Delivery(message: nat, attempt: nat, channel: Channel, outcome: DeliveryOutcome)

  /** Messages are numbered as they are enqueued. */
  datatype Tables = Tables(events: map<string, nat>, messages: seq<Message>, deliveries: seq<Delivery>, minted: nat)

  const EMPTY_TABLES := Tables(map[], [], [], 0)

  const DEFAULT_MAX_ATTEMPTS := 5

  datatype Error = EventInvalid | ClaimInvalid | TransitionConflict | AccessDenied | DeadLetterRequired | ConstraintViolated

  datatype Step<+T> = Commits(value: T, tables: Tables) | RollsBack(error: Error)

  function After<T>(before: Tables, step: Step<T>): Tables {
    if step.Commits? then step.tables else before
  }

  function Outcome<T>(step: Step<T>): Result<T, Error> {
    if step.Commits? then Success(step.value) else Failure(step.error)
  }

  /** Writes a message's new row and appends the change to its history. */
  function Write(messages: seq<Message>, m: nat, message: Message): seq<Message>
    requires m < |messages|
  {
    var change := Change(Some(messages[m].status), message.status, message.version, message.attempts);
    messages[m := message.(history := messages[m].history + [change])]
  }

  // ----- enqueue

  /** `key`: recipient, type and deduplication key. `admitted`: the insert trigger, the CHECKs and the index of public ids let
      the row in; `referenced`: the rows it refers to exist, which is looked at last. */
  datatype EnqueueRequest = EnqueueRequest(key: string, admitted: bool, referenced: bool, now: int)

  /** An event that was already enqueued under its deduplication key is returned, not repeated. */
  function EnqueueStep(s: Tables, req: EnqueueRequest): Step<nat> {
    var key, now := req.key, req.now;
    if !req.admitted then RollsBack(EventInvalid)
    else if key in s.events then Commits(s.events[key], s)
    else if !req.referenced then RollsBack(EventInvalid)
    else
      Commits(|s.messages|, s.(events := s.events[key := |s.messages|],
                               messages := s.messages + [Message(Pending, 0, DEFAULT_MAX_ATTEMPTS, now, now, None, 0, 1,
                                                                 [Change(None, Pending, 1, 0)])]))
  }

  // ----- claim

  predicate Due(message: Message, now: int) {
    || (message.status == Pending && message.availableAt <= now)
    || (message.status == Processing && message.lease.Some? && message.lease.value.until <= now)
  }

  predicate Sooner(x: Message, y: Message) {
    x.availableAt < y.availableAt || (x.availableAt == y.availableAt && x.createdAt <= y.createdAt)
  }

  /** The first due message in order of availability and creation that no other transaction holds. */
  function NextDue(messages: seq<Message>, skipped: set<nat>, now: int): (next: Option<nat>)
    ensures next.Some? ==> next.value < |messages| && Due(messages[next.value], now) && next.value !in skipped
    ensures forall m :: 0 <= m < |messages| && m !in skipped && Due(messages[m], now) ==>
              next.Some? && Sooner(messages[next.value], messages[m])
  {
    if messages == [] then None
    else
      var last := |messages| - 1;
      var earlier := NextDue(messages[..last], skipped, now);
      if last in skipped || !Due(messages[last], now) then earlier
      else if earlier.Some? && Sooner(messages[earlier.value], messages[last]) then earlier
      else Some(last)
  }

  /** `knownWorker`: the worker's name is well formed; `skipped` are the messages another transaction holds. */
  datatype ClaimRequest = ClaimRequest(knownWorker: bool, leaseSeconds: int, skipped: set<nat>, now: int)

  function ClaimStep(s: Tables, req: ClaimRequest): Step<Option<(nat, nat)>>
  {
    if !req.knownWorker || !(15 <= req.leaseSeconds <= 300) then RollsBack(ClaimInvalid)
    else
      var next := NextDue(s.messages, req.skipped, req.now);
      if next.None? then Commits(None, s)
      else
        var message := s.messages[next.value];
        var claimed := message.(status := Processing, attempts := message.attempts + 1, lease := Some(Lease(s.minted, req.now + req.leaseSeconds)),
                                version := message.version + 1);
        Commits(Some((next.value, s.minted)), s.(messages := Write(s.messages, next.value, claimed), minted := s.minted + 1))
  }

  // ----- outcomes

  predicate HoldsLease(s: Tables, m: nat, token: nat) {
    && m < |s.messages| && s.messages[m].status == Processing
    && s.messages[m].lease.Some? && s.messages[m].lease.value.token == token
  }

  predicate ActiveClaim(s: Tables, m: nat, token: nat, now: int) {
    HoldsLease(s, m, token) && s.messages[m].lease.value.until > now
  }

  /** One row per external channel; a channel the recipient opted out of is suppressed. */
  function Attempts(m: nat, attempt: nat, enabled: set<Channel>, outcome: DeliveryOutcome): seq<Delivery> {
    [Delivery(m, attempt, Push, if Push in enabled then outcome else Suppressed),
     Delivery(m, attempt, Email, if Email in enabled then outcome else Suppressed)]
  }

  predicate AttemptTaken(deliveries: seq<Delivery>, m: nat, attempt: nat, channel: Channel) {
    exists delivery <- deliveries :: delivery.message == m && delivery.attempt == attempt && delivery.channel == channel
  }

  predicate AttemptsInsert(deliveries: seq<Delivery>, m: nat, attempt: nat) {
    !AttemptTaken(deliveries, m, attempt, Push) && !AttemptTaken(deliveries, m, attempt, Email)
  }

  datatype CompleteRequest = CompleteRequest(message: nat, token: nat, local: bool, enabled: set<Channel>, now: int)

  function CompleteStep(s: Tables, req: CompleteRequest): Step<Message>
  {
    if !req.local then RollsBack(TransitionConflict)
    else if !ActiveClaim(s, req.message, req.token, req.now) then RollsBack(ClaimInvalid)
    else
      var message := s.messages[req.message];
      if !AttemptsInsert(s.deliveries, req.message, message.attempts) then RollsBack(ConstraintViolated)
      else
        var completed := message.(status := Completed, lease := None, version := message.version + 1);
        Commits(completed, s.(messages := Write(s.messages, req.message, completed),
                              deliveries := s.deliveries + Attempts(req.message, message.attempts, req.enabled, NoSend)))
  }

  datatype FailRequest = FailRequest(message: nat, token: nat, errorCode: string, codeAllowed: bool, retryable: bool,
                                     enabled: set<Channel>, now: int)

  const BACKOFF: seq<int> := [60, 300, 1800, 7200, 21600]

  /** The wait before the next try; the table has no entry before the first attempt. */
  function Backoff(attempts: nat): Option<int> {
    if attempts == 0 then None else Some(BACKOFF[if attempts - 1 < 4 then attempts - 1 else 4])
  }

  function FailStep(s: Tables, req: FailRequest): Step<Message>
  {
    if !req.codeAllowed then RollsBack(TransitionConflict)
    else if !ActiveClaim(s, req.message, req.token, req.now) then RollsBack(ClaimInvalid)
    else
      var message := s.messages[req.message];
      var dead := !req.retryable || message.attempts >= message.maxAttempts;
      var backoff := Backoff(message.attempts);
      if !AttemptsInsert(s.deliveries, req.message, message.attempts) || (!dead && backoff.None?) then RollsBack(ConstraintViolated)
      else
        var failed := message.(status := if dead then DeadLetter else Pending, lease := None, version := message.version + 1,
                               availableAt := if dead then message.availableAt else req.now + backoff.value);
        Commits(failed, s.(messages := Write(s.messages, req.message, failed),
                           deliveries := s.deliveries + Attempts(req.message, message.attempts, req.enabled, Failed(req.errorCode))))
  }

  // ----- replay

  datatype ReplayRequest = ReplayRequest(message: nat, isAdministrator: bool, reasonGiven: bool, now: int)

  function Greatest(x: nat, y: nat): nat { if x >= y then x else y }

  function ReplayStep(s: Tables, req: ReplayRequest): Step<Message>
  {
    if !req.reasonGiven then RollsBack(DeadLetterRequired)
    else if !req.isAdministrator then RollsBack(AccessDenied)
    else if req.message >= |s.messages| || s.messages[req.message].status != DeadLetter then RollsBack(DeadLetterRequired)
    else
      var message := s.messages[req.message];
      var replayed := message.(status := Pending, availableAt := req.now, replays := message.replays + 1, version := message.version + 1,
                               maxAttempts := Greatest(message.maxAttempts + 3, message.attempts + 3));
      Commits(replayed, s.(messages := Write(s.messages, req.message, replayed)))
  }

  class NotificationStore {
    var tables: Tables

    constructor ()
      ensures tables == EMPTY_TABLES
    {
      tables := EMPTY_TABLES;
    }

    method EnqueueEvent(req: EnqueueRequest) returns (r: Result<nat, Error>)
      modifies this
      ensures r == Outcome(EnqueueStep(old(tables), req)) && tables == After(old(tables), EnqueueStep(old(tables), req))
    {
      if !req.admitted {
        return Failure(EventInvalid);
      }
      if req.key in tables.events {
        return Success(tables.events[req.key]);
      }
      if !req.referenced {
        return Failure(EventInvalid);
      }
      var m := |tables.messages|;
      var message := Message(Pending, 0, DEFAULT_MAX_ATTEMPTS, req.now, req.now, None, 0, 1, [Change(None, Pending, 1, 0)]);
      tables := tables.(events := tables.events[req.key := m], messages := tables.messages + [message]);
      return Success(m);
    }

    method ClaimNext(req: ClaimRequest) returns (r: Result<Option<(nat, nat)>, Error>)
      modifies this
      ensures r == Outcome(ClaimStep(old(tables), req)) && tables == After(old(tables), ClaimStep(old(tables), req))
    {
      if !req.knownWorker || req.leaseSeconds < 15 || req.leaseSeconds > 300 {
        return Failure(ClaimInvalid);
      }
      var candidate := NextDue(tables.messages, req.skipped, req.now);
      if candidate.None? {
        return Success(None);
      }
      var m, token := candidate.value, tables.minted;
      var message := tables.messages[m];
      message := message.(status := Processing, attempts := message.attempts + 1);
      message := message.(lease := Some(Lease(token, req.now + req.leaseSeconds)), version := message.version + 1);
      tables := tables.(messages := Write(tables.messages, m, message), minted := token + 1);
      return Success(Some((m, token)));
    }

    /** Inserts one delivery attempt per channel; a channel that already has one undoes them all. */
    method InsertAttempts(deliveries: seq<Delivery>, m: nat, attempt: nat, enabled: set<Channel>, outcome: DeliveryOutcome)
      returns (inserted: Option<seq<Delivery>>)
      ensures inserted == if AttemptsInsert(deliveries, m, attempt) then Some(deliveries + Attempts(m, attempt, enabled, outcome)) else None
    {
      var rows := deliveries;
      for i := 0 to |CHANNELS|
        invariant rows == deliveries + Attempts(m, attempt, enabled, outcome)[..i]
        invariant forall k :: 0 <= k < i ==> !AttemptTaken(deliveries, m, attempt, CHANNELS[k])
      {
        var channel := CHANNELS[i];
        if AttemptTaken(rows, m, attempt, channel) {
          assert AttemptTaken(deliveries, m, attempt, channel) by {
            var delivery :| delivery in rows && delivery.message == m && delivery.attempt == attempt && delivery.channel == channel;
            assert delivery in deliveries || delivery in Attempts(m, attempt, enabled, outcome)[..i];
          }
          return None;
        }
        assert AttemptTaken(deliveries, m, attempt, channel) ==> AttemptTaken(rows, m, attempt, channel) by {
          assert forall delivery <- deliveries :: delivery in rows;
        }
        rows := rows + [Delivery(m, attempt, channel, if channel in enabled then outcome else Suppressed)];
      }
      assert CHANNELS[0] == Push && CHANNELS[1] == Email;
      assert Attempts(m, attempt, enabled, outcome)[..2] == Attempts(m, attempt, enabled, outcome);
      return Some(rows);
    }

    method CompleteClaimLocally(req: CompleteRequest) returns (r: Result<Message, Error>)
      modifies this
      ensures r == Outcome(CompleteStep(old(tables), req)) && tables == After(old(tables), CompleteStep(old(tables), req))
    {
      if !req.local {
        return Failure(TransitionConflict);
      }
      if !ActiveClaim(tables, req.message, req.token, req.now) {
        return Failure(ClaimInvalid);
      }
      var message := tables.messages[req.message];
      var deliveries := InsertAttempts(tables.deliveries, req.message, message.attempts, req.enabled, NoSend);
      if deliveries.None? {
        return Failure(ConstraintViolated);
      }
      message := message.(status := Completed, lease := None, version := message.version + 1);
      tables := tables.(messages := Write(tables.messages, req.message, message), deliveries := deliveries.value);
      return Success(message);
    }

    method RecordClaimFailure(req: FailRequest) returns (r: Result<Message, Error>)
      modifies this
      ensures r == Outcome(FailStep(old(tables), req)) && tables == After(old(tables), FailStep(old(tables), req))
    {
      if !req.codeAllowed {
        return Failure(TransitionConflict);
      }
      if !ActiveClaim(tables, req.message, req.token, req.now) {
        return Failure(ClaimInvalid);
      }
      var message := tables.messages[req.message];
      var deliveries := InsertAttempts(tables.deliveries, req.message, message.attempts, req.enabled, Failed(req.errorCode));
      if deliveries.None? {
        return Failure(ConstraintViolated);
      }
      var deadLetter := !req.retryable || message.attempts >= message.maxAttempts;
      var backoff := Backoff(message.attempts);
      if deadLetter {
        message := message.(status := DeadLetter);
      } else {
        if backoff.None? {
          return Failure(ConstraintViolated);
        }
        message := message.(status := Pending, availableAt := req.now + backoff.value);
      }
      message := message.(lease := None, version := message.version + 1);
      tables := tables.(messages := Write(tables.messages, req.message, message), deliveries := deliveries.value);
      return Success(message);
    }

    method ReplayDeadLetter(req: ReplayRequest) returns (r: Result<Message, Error>)
      modifies this
      ensures r == Outcome(ReplayStep(old(tables), req)) && tables == After(old(tables), ReplayStep(old(tables), req))
    {
      if !req.reasonGiven {
        return Failure(DeadLetterRequired);
      }
      if !req.isAdministrator {
        return Failure(AccessDenied);
      }
      if req.message >= |tables.messages| || tables.messages[req.message].status != DeadLetter {
        return Failure(DeadLetterRequired);
      }
      var message := tables.messages[req.message];
      message := message.(status := Pending, availableAt := req.now, replays := message.replays + 1);
      message := message.(maxAttempts := Greatest(message.maxAttempts + 3, message.attempts + 3), version := message.version + 1);
      tables := tables.(messages := Write(tables.messages, req.message, message));
      return Success(message);
    }
  }
}
