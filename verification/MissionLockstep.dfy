/** Slot, reservation, application, assignment, check-in and intent rows move in lockstep. */
module MissionLockstep {
  import opened MarketTables
  import opened Applications
  import opened CheckIns
  import opened Submissions

  function ReservationFor(status: ApplicationStatus): ReservationStatus {
    match status
    case AppSubmitted => ActiveReservation
    case AppWithdrawn => ReleasedReservation
    case AppAccepted | AppCompleted | AppNoPayout => ConvertedReservation
  }

  function SlotFor(status: ApplicationStatus): SlotStatus {
    match status
    case AppSubmitted => Reserved
    case AppAccepted => SlotAccepted
    case AppCompleted => SlotCompleted
    case AppNoPayout => SlotNoPayout
    case AppWithdrawn => Available
  }

  function ApplicationFor(status: AssignmentStatus): ApplicationStatus {
    match status
    case Scheduled | CheckedIn => AppAccepted
    case MissionCompleted => AppCompleted
    case MissionNoPayout => AppNoPayout
  }

  predicate Ended(status: AssignmentStatus) { status == MissionCompleted || status == MissionNoPayout }

  predicate Live(reservation: Reservation) { reservation.status != ReleasedReservation }

  predicate InStep(campaigns: map<Id, Campaign>, contracts: map<Id, seq<Slot>>, application: Application, reservation: Reservation) {
    && IsPublished(campaigns, application.campaignId)
    && reservation.slot.campaignId == application.campaignId
    && SlotExists(contracts, reservation.slot)
    && reservation.status == ReservationFor(application.status)
    && (Live(reservation) ==> SlotAt(contracts, reservation.slot).status == SlotFor(application.status))
  }

  ghost predicate AllInStep(campaigns: map<Id, Campaign>, contracts: map<Id, seq<Slot>>, applications: map<Id, Application>,
                            reservations: map<Id, Reservation>)
  {
    && reservations.Keys == applications.Keys
    && forall a :: a in applications ==> InStep(campaigns, contracts, applications[a], reservations[a])
  }

  ghost predicate OneHolderEach(reservations: map<Id, Reservation>) {
    forall a, b :: a in reservations && b in reservations && Live(reservations[a]) && Live(reservations[b]) ==>
                     reservations[a].slot == reservations[b].slot ==> a == b
  }

  ghost predicate TakenSlotsAreHeld(contracts: map<Id, seq<Slot>>, reservations: map<Id, Reservation>) {
    forall slot :: SlotExists(contracts, slot) && SlotAt(contracts, slot).status != Available ==> SlotHeld(reservations, slot)
  }

  ghost predicate Lockstep(campaigns: map<Id, Campaign>, contracts: map<Id, seq<Slot>>, applications: map<Id, Application>,
                           reservations: map<Id, Reservation>)
  {
    && AllInStep(campaigns, contracts, applications, reservations)
    && OneHolderEach(reservations)
    && TakenSlotsAreHeld(contracts, reservations)
  }

  /** An assignment mirrors its application. */
  predicate Mirrors(assignment: Assignment, application: Application, reservation: Reservation) {
    && assignment.slot == reservation.slot
    && assignment.creatorId == application.creatorId
    && application.status == ApplicationFor(assignment.status)
  }

  ghost predicate Assigned(applications: map<Id, Application>, reservations: map<Id, Reservation>, assignments: map<Id, Assignment>) {
    && (forall a :: a in assignments ==> a in applications && a in reservations && Mirrors(assignments[a], applications[a], reservations[a]))
    && (forall a :: a in applications && applications[a].status in {AppCompleted, AppNoPayout} ==> a in assignments)
  }

  ghost predicate IntentsFollow(assignments: map<Id, Assignment>, intents: map<Id, Intent>) {
    && (forall a :: a in intents <==> a in assignments && Ended(assignments[a].status))
    && (forall a :: a in intents ==>
          intents[a].action == if assignments[a].status == MissionCompleted then CreatorPayableFull else SlotRefundFull)
  }

  ghost predicate CheckInsFollow(assignments: map<Id, Assignment>, checkIns: map<Id, Id>, challenges: map<Id, Challenge>) {
    && (forall a :: a in checkIns <==> a in assignments && assignments[a].status != Scheduled)
    && (forall a :: a in checkIns ==> checkIns[a] in challenges && challenges[checkIns[a]].status == ChallengeConsumed)
  }

  ghost predicate MissionsHold(t: Tables) {
    && Lockstep(t.campaigns, t.contracts, t.applications, t.reservations)
    && Assigned(t.applications, t.reservations, t.assignments)
    && IntentsFollow(t.assignments, t.intents)
    && CheckInsFollow(t.assignments, t.checkIns, t.challenges)
  }

  // ----- the updates that keep the rows in step

  lemma MoveSlotChangesOneSlot(contracts: map<Id, seq<Slot>>, slot: SlotRef, from: SlotStatus, to: SlotStatus)
    requires SlotIs(contracts, slot, from)
    ensures forall other :: SlotExists(MoveSlot(contracts, slot, from, to), other) <==> SlotExists(contracts, other)
    ensures forall other :: SlotExists(contracts, other) ==>
              SlotAt(MoveSlot(contracts, slot, from, to), other)
              == if other == slot then SlotAt(contracts, slot).(status := to, version := SlotAt(contracts, slot).version + 1)
                 else SlotAt(contracts, other)
  {
  }

  /** The slots other than one keep their holders when only that slot's holder changes. */
  lemma OtherSlotsStayHeld(contracts: map<Id, seq<Slot>>, reservations: map<Id, Reservation>, slot: SlotRef, from: SlotStatus,
                           to: SlotStatus, a: Id, reservation: Reservation)
    requires TakenSlotsAreHeld(contracts, reservations) && SlotIs(contracts, slot, from)
    requires reservation.slot == slot && (a in reservations ==> reservations[a].slot == slot)
    requires to == Available || Live(reservation)
    ensures TakenSlotsAreHeld(MoveSlot(contracts, slot, from, to), reservations[a := reservation])
  {
    MoveSlotChangesOneSlot(contracts, slot, from, to);
    var contracts', reservations' := MoveSlot(contracts, slot, from, to), reservations[a := reservation];
    forall other | SlotExists(contracts', other) && SlotAt(contracts', other).status != Available
      ensures SlotHeld(reservations', other)
    {
      if other == slot {
        assert reservations'[a].slot == other;
      } else {
        var b :| b in reservations && reservations[b].slot == other && reservations[b].status != ReleasedReservation;
        assert reservations'[b] == reservations[b];
      }
    }
  }

  lemma OthersStayInStep(campaigns: map<Id, Campaign>, contracts: map<Id, seq<Slot>>, applications: map<Id, Application>,
                         reservations: map<Id, Reservation>, a: Id, application: Application, reservation: Reservation,
                         from: SlotStatus, to: SlotStatus)
    requires AllInStep(campaigns, contracts, applications, reservations) && SlotIs(contracts, reservation.slot, from)
    requires forall b :: b in reservations && Live(reservations[b]) && reservations[b].slot == reservation.slot ==> b == a
    requires IsPublished(campaigns, application.campaignId) && reservation.slot.campaignId == application.campaignId
    requires reservation.status == ReservationFor(application.status) && to == SlotFor(application.status)
    ensures AllInStep(campaigns, MoveSlot(contracts, reservation.slot, from, to), applications[a := application],
                      reservations[a := reservation])
  {
    MoveSlotChangesOneSlot(contracts, reservation.slot, from, to);
  }

  lemma ReservingKeepsLockstep(campaigns: map<Id, Campaign>, contracts: map<Id, seq<Slot>>, applications: map<Id, Application>,
                               reservations: map<Id, Reservation>, a: Id, application: Application, slot: SlotRef)
    requires Lockstep(campaigns, contracts, applications, reservations)
    requires a !in applications && application.status == AppSubmitted && IsPublished(campaigns, application.campaignId)
    requires slot.campaignId == application.campaignId && SlotIs(contracts, slot, Available) && !SlotHeld(reservations, slot)
    ensures Lockstep(campaigns, MoveSlot(contracts, slot, Available, Reserved), applications[a := application],
                     reservations[a := Reservation(slot, ActiveReservation)])
  {
    assert OneHolderEach(reservations[a := Reservation(slot, ActiveReservation)]);
    OtherSlotsStayHeld(contracts, reservations, slot, Available, Reserved, a, Reservation(slot, ActiveReservation));
    OthersStayInStep(campaigns, contracts, applications, reservations, a, application, Reservation(slot, ActiveReservation),
                     Available, Reserved);
    hide InStep, OneHolderEach, TakenSlotsAreHeld;
  }

  /** The application, its reservation and its slot move to the rows that belong to the new status. */
  lemma MovingTogetherKeepsLockstep(campaigns: map<Id, Campaign>, contracts: map<Id, seq<Slot>>, applications: map<Id, Application>,
                                    reservations: map<Id, Reservation>, a: Id, to: ApplicationStatus)
    requires Lockstep(campaigns, contracts, applications, reservations)
    requires a in applications && applications[a].status != AppWithdrawn
    ensures var from, slot := applications[a].status, reservations[a].slot;
            Lockstep(campaigns, MoveSlot(contracts, slot, SlotFor(from), SlotFor(to)), MoveApplication(applications, a, to),
                     reservations[a := reservations[a].(status := ReservationFor(to))])
  {
    var from, slot := applications[a].status, reservations[a].slot;
    assert InStep(campaigns, contracts, applications[a], reservations[a]);
    var reservation := reservations[a].(status := ReservationFor(to));
    assert OneHolderEach(reservations[a := reservation]);
    OtherSlotsStayHeld(contracts, reservations, slot, SlotFor(from), SlotFor(to), a, reservation);
    OthersStayInStep(campaigns, contracts, applications, reservations, a, MoveApplication(applications, a, to)[a], reservation,
                     SlotFor(from), SlotFor(to));
    hide InStep, OneHolderEach, TakenSlotsAreHeld;
  }

  // ----- each step keeps them

  lemma ReservingKeepsAssigned(applications: map<Id, Application>, reservations: map<Id, Reservation>, assignments: map<Id, Assignment>,
                               a: Id, application: Application, reservation: Reservation)
    requires Assigned(applications, reservations, assignments) && a !in applications && application.status == AppSubmitted
    ensures Assigned(applications[a := application], reservations[a := reservation], assignments)
  {
  }

  lemma ApplyKeepsMissions(t: Tables, req: ApplyRequest)
    requires MissionsHold(t)
    ensures MissionsHold(TablesAfter(t, ApplyStep(t, req)))
  {
    var step := ApplyStep(t, req);
    if step.Committed? && step.tables.applications != t.applications {
      hide Lockstep, Assigned, IntentsFollow, CheckInsFollow;
      var slot := SlotRef(req.campaignId, OpenSlot(t, req).value);
      ReservingKeepsAssigned(t.applications, t.reservations, t.assignments, req.publicId,
                             Application(req.campaignId, req.creatorId, AppSubmitted, 1), Reservation(slot, ActiveReservation));
      ReservingKeepsLockstep(t.campaigns, t.contracts, t.applications, t.reservations, req.publicId,
                             Application(req.campaignId, req.creatorId, AppSubmitted, 1), slot);
    }
  }

  lemma LeavingKeepsAssigned(applications: map<Id, Application>, reservations: map<Id, Reservation>, assignments: map<Id, Assignment>,
                             a: Id, to: ApplicationStatus)
    requires Assigned(applications, reservations, assignments) && a in applications && a in reservations
    requires applications[a].status == AppSubmitted && to in {AppAccepted, AppWithdrawn}
    ensures Assigned(MoveApplication(applications, a, to), reservations[a := reservations[a].(status := ReservationFor(to))], assignments)
  {
  }

  lemma LeaveKeepsMissions(t: Tables, a: Id, to: ApplicationStatus)
    requires MissionsHold(t) && Joins(t, a) && to in {AppAccepted, AppWithdrawn}
    ensures MissionsHold(TablesAfter(t, Leave(t, a, to, ReservationFor(to), SlotFor(to))))
  {
    if t.applications[a].status == AppSubmitted {
      assert InStep(t.campaigns, t.contracts, t.applications[a], t.reservations[a]);
      LeavingKeepsAssigned(t.applications, t.reservations, t.assignments, a, to);
      MovingTogetherKeepsLockstep(t.campaigns, t.contracts, t.applications, t.reservations, a, to);
      hide Lockstep, Assigned, IntentsFollow, CheckInsFollow;
    }
  }

  lemma SchedulingKeepsAssigned(applications: map<Id, Application>, reservations: map<Id, Reservation>,
                                assignments: map<Id, Assignment>, a: Id, assignment: Assignment)
    requires Assigned(applications, reservations, assignments)
    requires a in applications && a in reservations && Mirrors(assignment, applications[a], reservations[a])
    ensures Assigned(applications, reservations, assignments[a := assignment])
  {
  }

  lemma SchedulingKeepsIntents(assignments: map<Id, Assignment>, intents: map<Id, Intent>, a: Id, assignment: Assignment)
    requires IntentsFollow(assignments, intents)
    requires (a in assignments ==> !Ended(assignments[a].status)) && !Ended(assignment.status)
    ensures IntentsFollow(assignments[a := assignment], intents)
  {
  }

  lemma SchedulingKeepsCheckIns(assignments: map<Id, Assignment>, checkIns: map<Id, Id>, challenges: map<Id, Challenge>,
                                a: Id, assignment: Assignment)
    requires CheckInsFollow(assignments, checkIns, challenges) && a !in checkIns && assignment.status == Scheduled
    ensures CheckInsFollow(assignments[a := assignment], checkIns, challenges)
  {
  }

  lemma ScheduleKeepsMissions(t: Tables, req: ScheduleRequest)
    requires MissionsHold(t)
    ensures MissionsHold(TablesAfter(t, ScheduleStep(t, req)))
  {
    hide Lockstep, Assigned, IntentsFollow;
    var step := ScheduleStep(t, req);
    if step.Committed? {
      assert req.applicationId !in t.checkIns;
      hide CheckInsFollow;
      SchedulingKeepsAssigned(t.applications, t.reservations, t.assignments, req.applicationId, step.value);
      SchedulingKeepsIntents(t.assignments, t.intents, req.applicationId, step.value);
      SchedulingKeepsCheckIns(t.assignments, t.checkIns, t.challenges, req.applicationId, step.value);
    }
  }

  lemma IssuingKeepsCheckIns(assignments: map<Id, Assignment>, checkIns: map<Id, Id>, challenges: map<Id, Challenge>, a: Id,
                             publicId: Id, challenge: Challenge)
    requires CheckInsFollow(assignments, checkIns, challenges) && publicId !in challenges
    ensures CheckInsFollow(assignments, checkIns, RevokeActive(challenges, a)[publicId := challenge])
  {
  }

  lemma IssueKeepsMissions(t: Tables, req: IssueRequest)
    requires MissionsHold(t)
    ensures MissionsHold(TablesAfter(t, IssueStep(t, req)))
  {
    hide Lockstep, Assigned, IntentsFollow, CheckInsFollow;
    if IssueStep(t, req).Committed? {
      IssuingKeepsCheckIns(t.assignments, t.checkIns, t.challenges, req.applicationId, req.publicId,
                           Challenge(req.applicationId, req.token, ChallengeActive, req.expiresAt));
    }
  }

  lemma CheckingInKeepsAssigned(applications: map<Id, Application>, reservations: map<Id, Reservation>, assignments: map<Id, Assignment>, a: Id)
    requires Assigned(applications, reservations, assignments) && a in assignments && assignments[a].status == Scheduled
    ensures Assigned(applications, reservations, MoveAssignment(assignments, a, CheckedIn))
  {
  }

  lemma CheckingInKeepsCheckIns(assignments: map<Id, Assignment>, checkIns: map<Id, Id>, challenges: map<Id, Challenge>, a: Id, id: Id)
    requires CheckInsFollow(assignments, checkIns, challenges) && a in assignments && id in challenges
    ensures CheckInsFollow(MoveAssignment(assignments, a, CheckedIn), checkIns[a := id],
                           challenges[id := challenges[id].(status := ChallengeConsumed)])
  {
  }

  lemma ConsumeKeepsMissions(t: Tables, req: ConsumeRequest)
    requires MissionsHold(t)
    ensures MissionsHold(TablesAfter(t, ConsumeStep(t, req)))
  {
    hide Lockstep, Assigned, IntentsFollow, CheckInsFollow;
    if ConsumeStep(t, req).Committed? {
      var a := t.challenges[req.challengeId].applicationId;
      CheckingInKeepsAssigned(t.applications, t.reservations, t.assignments, a);
      CheckingInKeepsCheckIns(t.assignments, t.checkIns, t.challenges, a, req.challengeId);
      SchedulingKeepsIntents(t.assignments, t.intents, a, MoveAssignment(t.assignments, a, CheckedIn)[a]);
    }
  }

  lemma EndingKeepsAssigned(applications: map<Id, Application>, reservations: map<Id, Reservation>, assignments: map<Id, Assignment>,
                            a: Id, to: AssignmentStatus)
    requires Assigned(applications, reservations, assignments) && a in assignments && Ended(to)
    ensures Assigned(MoveApplication(applications, a, ApplicationFor(to)), reservations, MoveAssignment(assignments, a, to))
  {
  }

  lemma EndingKeepsIntents(assignments: map<Id, Assignment>, intents: map<Id, Intent>, a: Id, to: AssignmentStatus, intent: Intent)
    requires IntentsFollow(assignments, intents) && a in assignments && Ended(to)
    requires intent.action == if to == MissionCompleted then CreatorPayableFull else SlotRefundFull
    ensures IntentsFollow(MoveAssignment(assignments, a, to), intents[a := intent])
  {
  }

  lemma ReadyHoldsItsSlot(t: Tables, a: Id)
    requires Lockstep(t.campaigns, t.contracts, t.applications, t.reservations)
    requires Assigned(t.applications, t.reservations, t.assignments) && ReadyToEnd(t, a)
    ensures a in t.applications && a in t.reservations && t.applications[a].status == AppAccepted
    ensures t.reservations[a] == Reservation(t.assignments[a].slot, ConvertedReservation)
  {
    assert Mirrors(t.assignments[a], t.applications[a], t.reservations[a]);
    assert InStep(t.campaigns, t.contracts, t.applications[a], t.reservations[a]);
    hide OneHolderEach, TakenSlotsAreHeld;
  }

  lemma EndingKeepsLockstep(t: Tables, a: Id, to: AssignmentStatus)
    requires Lockstep(t.campaigns, t.contracts, t.applications, t.reservations)
    requires Assigned(t.applications, t.reservations, t.assignments) && ReadyToEnd(t, a) && Ended(to)
    ensures Lockstep(t.campaigns, MoveSlot(t.contracts, t.assignments[a].slot, SlotAccepted, SlotFor(ApplicationFor(to))),
                     MoveApplication(t.applications, a, ApplicationFor(to)), t.reservations)
  {
    hide Lockstep, Assigned, MoveSlot, MoveApplication;
    ReadyHoldsItsSlot(t, a);
    MovingTogetherKeepsLockstep(t.campaigns, t.contracts, t.applications, t.reservations, a, ApplicationFor(to));
    assert t.reservations[a := t.reservations[a].(status := ReservationFor(ApplicationFor(to)))] == t.reservations;
  }

  lemma EndingKeepsCheckIns(assignments: map<Id, Assignment>, checkIns: map<Id, Id>, challenges: map<Id, Challenge>, a: Id, to: AssignmentStatus)
    requires CheckInsFollow(assignments, checkIns, challenges) && a in assignments && assignments[a].status == CheckedIn && Ended(to)
    ensures CheckInsFollow(MoveAssignment(assignments, a, to), checkIns, challenges)
  {
  }

  lemma EndingKeepsMissions(t: Tables, a: Id, publicId: Id, action: IntentAction)
    requires MissionsHold(t) && ReadyToEnd(t, a)
    ensures MissionsHold(EndMission(t, a, publicId, action))
  {
    hide Lockstep, Assigned, IntentsFollow, CheckInsFollow;
    var to := if action.CreatorPayableFull? then MissionCompleted else MissionNoPayout;
    EndingKeepsLockstep(t, a, to);
    EndingKeepsAssigned(t.applications, t.reservations, t.assignments, a, to);
    EndingKeepsIntents(t.assignments, t.intents, a, to, Intent("fin_" + publicId, action, PendingLedger, 1));
    EndingKeepsCheckIns(t.assignments, t.checkIns, t.challenges, a, to);
  }

  // ----- what the lockstep means for the unchecked updates and the redundant guards

  /** Accepting or withdrawing a submitted application finds its reservation active and its slot reserved,
      so neither unchecked update misses, and no other application holds the slot. */
  lemma UncheckedUpdatesHitTheirRow(t: Tables, a: Id)
    requires MissionsHold(t) && Joins(t, a) && t.applications[a].status == AppSubmitted
    ensures t.reservations[a].status == ActiveReservation
    ensures SlotIs(t.contracts, t.reservations[a].slot, Reserved)
    ensures forall b :: b in t.reservations && Live(t.reservations[b]) && t.reservations[b].slot == t.reservations[a].slot ==> b == a
  {
  }
}
