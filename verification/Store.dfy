/**
  The store as it runs: methods that read its tables row by row and change them
  with one commit each. Every method is proved to do exactly what the function
  of the same operation in `StoreModel` says, state and error alike, so the
  results proved about runs of those functions are results about these methods;
  and to leave what `StoreEffects` spells out field by field, or nothing changed.
*/
module StoreTables {
  import opened Options
  import opened StorePaths
  import opened StoreModel
  import opened StoreInvariant
  import opened StorePreservation
  import opened StoreEffects
  import opened StoreScans
  import opened StoreTransitions

  class Store {
    /** Every table; a commit replaces it whole. */
    var database: State

    ghost predicate Valid()
      reads this
    {
      Inv(database)
    }

    constructor ()
      ensures database == EMPTY
    {
      database := EMPTY;
    }

    // ---- identifiers -----------------------------------------------------

    method AllocateEventLogPosition() returns (error: Option<StoreError>, position: nat)
      modifies this
      ensures var spec := AllocatePosition(old(database)); database == spec.state && error == ErrorOf(spec)
      ensures error.None? ==> position == old(database).allocation.nextPosition && position in database.history.reserved
      ensures if error.None? then ReservationLeft(old(database), database, position) else database == old(database)
    {
      hide ReservationLeft;
      ReservationEffect(database);
      var allocation := database.allocation;
      position := allocation.nextPosition;
      if !CanTake(position) { return Some(IdentifierSpaceExhausted), position; }
      database := Commit(database, {AllocationRow}).(
        allocation := allocation.(nextPosition := position + 1),
        history := database.history.(reserved := database.history.reserved + {position}));
      error := None;
    }

    // ---- beginning a transition ------------------------------------------

    method BeginAdmissionTransition(identity: RequestIdentity, cursor: DeployJob)
      returns (error: Option<StoreError>, deployment: nat)
      modifies this
      ensures var spec := BeginAdmission(old(database), identity, cursor);
              database == spec.state && error == ErrorOf(spec)
      ensures deployment == old(database).allocation.nextDeployment
      ensures error.Some? ==> database == old(database)
      ensures error.None? && old(Valid()) ==> AdmissionLeft(old(database), database, identity, cursor)
    {
      hide Inv, AdmissionLeft;
      if Valid() { AdmissionEffect(database, identity, cursor); }
      var allocation := database.allocation;
      deployment := allocation.nextDeployment;
      var generation, position := allocation.nextGeneration, allocation.nextPosition;
      if !FreshJob(cursor) { return Some(UncanonicalClosure), deployment; }
      var record := DeploymentRecord(generation, identity, None, Submitted, None, None);
      var intent := NewIntent(record, Submitted, position, None);
      if cursor.phase != JobSubmitted || cursor.cluster != identity.cluster || cursor.node != identity.node {
        return Some(CursorMismatch), deployment;
      }
      if !CanTake(deployment) || !CanTake(generation) || !CanTake(position) {
        return Some(IdentifierSpaceExhausted), deployment;
      }
      var key := IntentKey(deployment, 0);
      if deployment in database.records || deployment in database.jobs || key in database.intents {
        return Some(RowConflict), deployment;
      }
      database := WithIntent(database, key, intent,
          {AllocationRow, RecordRow(deployment), JobRow(deployment), IntentRow(key)}).(
        allocation := Allocation(deployment + 1, generation + 1, position + 1),
        records := database.records[deployment := record],
        jobs := database.jobs[deployment := cursor.(generation := generation)]);
      error := None;
    }

    method BeginRejectedDeploymentRequest(identity: RequestIdentity, terminal: DeploymentTerminal)
      returns (error: Option<StoreError>, deployment: nat)
      modifies this
      ensures var spec := BeginRejection(old(database), identity, terminal);
              database == spec.state && error == ErrorOf(spec)
      ensures deployment == old(database).allocation.nextDeployment
      ensures error.Some? ==> database == old(database)
      ensures error.None? && old(Valid()) ==> RejectionLeft(old(database), database, identity, terminal)
    {
      hide Inv, RejectionLeft;
      if Valid() { RejectionEffect(database, identity, terminal); }
      var allocation := database.allocation;
      deployment := allocation.nextDeployment;
      var generation, position := allocation.nextGeneration, allocation.nextPosition;
      var lifecycle := LifecycleOf(terminal);
      var record := DeploymentRecord(generation, identity, None, lifecycle, None, Some(terminal));
      var intent := NewIntent(record, lifecycle, position, Some(terminal));
      if !CanTake(deployment) || !CanTake(generation) || !CanTake(position) {
        return Some(IdentifierSpaceExhausted), deployment;
      }
      var key := IntentKey(deployment, 0);
      if deployment in database.records || key in database.intents { return Some(RowConflict), deployment; }
      database := WithIntent(database, key, intent, {AllocationRow, RecordRow(deployment), IntentRow(key)}).(
        allocation := Allocation(deployment + 1, generation + 1, position + 1),
        records := database.records[deployment := record]);
      error := None;
    }

    /** Read every intent of a deployment: whether one is unacknowledged, and the next ordinal. */
    method ScanIntents(deployment: nat) returns (pending: bool, ordinal: nat)
      ensures pending <==> EarlierPending(database.intents, deployment)
      ensures ordinal == Above(OrdinalsOf(database.intents, deployment))
    {
      pending, ordinal := false, 0;
      var intents := database.intents;
      var rest := intents.Keys;
      ghost var seen: set<IntentKey> := {};
      while rest != {}
        invariant rest + seen == intents.Keys
        invariant pending <==> exists key :: key in seen && key.deployment == deployment && Unacknowledged(intents[key])
        invariant forall key :: key in seen && key.deployment == deployment ==> key.ordinal < ordinal
        invariant ordinal > 0 ==> IntentKey(deployment, ordinal - 1) in seen
      {
        var key :| key in rest;
        rest, seen := rest - {key}, seen + {key};
        if key.deployment == deployment {
          if Unacknowledged(intents[key]) { pending := true; }
          if key.ordinal >= ordinal { ordinal := key.ordinal + 1; }
        }
      }
      NextOrdinalFound(intents, deployment, ordinal);
    }

    method BeginTerminalTransition(deployment: nat, terminal: DeploymentTerminal)
      returns (error: Option<StoreError>, ordinal: nat)
      modifies this
      ensures var spec := BeginTerminal(old(database), deployment, terminal);
              database == spec.state && error == ErrorOf(spec)
      ensures error.None? ==> ordinal == Above(OrdinalsOf(old(database).intents, deployment))
      ensures if error.None? then TerminalLeft(old(database), database, deployment, ordinal, terminal) else database == old(database)
    {
      hide TerminalLeft;
      TerminalEffect(database, deployment, terminal);
      ordinal := 0;
      var lifecycle := LifecycleOf(terminal);
      if deployment !in database.records { return Some(MissingRecord), ordinal; }
      var record := database.records[deployment];
      if record.terminal.Some? { return Some(AlreadyTerminal), ordinal; }
      var pending;
      pending, ordinal := ScanIntents(deployment);
      if pending { return Some(EarlierUnacknowledged), ordinal; }
      var position := database.allocation.nextPosition;
      if ordinal > MAX_U64 || !CanTake(position) { return Some(IdentifierSpaceExhausted), ordinal; }
      record := record.(lifecycle := lifecycle, terminal := Some(terminal), terminalMarker := None);
      var key := IntentKey(deployment, ordinal);
      var touched := {AllocationRow, RecordRow(deployment), IntentRow(key)};
      var jobs := database.jobs;
      if deployment in jobs {
        jobs := jobs[deployment := jobs[deployment].(phase := JobPhaseOf(terminal), stage := FinishDeployment)];
        touched := touched + {JobRow(deployment)};
      }
      assert touched == {AllocationRow, RecordRow(deployment), IntentRow(key)}
                        + (if deployment in jobs then {JobRow(deployment)} else {});
      database := WithIntent(database, key, NewIntent(record, lifecycle, position, Some(terminal)), touched).(
        allocation := database.allocation.(nextPosition := position + 1),
        records := database.records[deployment := record],
        jobs := jobs);
      error := None;
    }

    method BeginDeploymentPhaseTransition(deployment: nat, lifecycle: DeploymentPhase,
                                          jobDeployment: nat, job: DeployJob, event: PhaseEvent)
      returns (error: Option<StoreError>, ordinal: nat)
      modifies this
      ensures var spec := BeginPhase(old(database), deployment, lifecycle, jobDeployment, job, event);
              database == spec.state && error == ErrorOf(spec)
      ensures error.None? ==> ordinal == Above(OrdinalsOf(old(database).intents, deployment))
      ensures if error.None? then PhaseLeft(old(database), database, deployment, ordinal, lifecycle, job, event)
              else database == old(database)
    {
      hide PhaseLeft;
      PhaseEffect(database, deployment, lifecycle, jobDeployment, job, event);
      ordinal := 0;
      if TerminalLifecycle(lifecycle) { return Some(TerminalPhase), ordinal; }
      if !FreshJob(job) { return Some(UncanonicalClosure), ordinal; }
      if jobDeployment != deployment { return Some(CursorMismatch), ordinal; }
      if event.deployment != deployment { return Some(EventMismatch), ordinal; }
      if deployment !in database.records { return Some(MissingRecord), ordinal; }
      var record := database.records[deployment];
      if deployment !in database.jobs { return Some(MissingJob), ordinal; }
      if record.generation != event.generation || record.identity.cluster != event.cluster
         || record.identity.node != event.node
      {
        return Some(EventMismatch), ordinal;
      }
      var pending;
      pending, ordinal := ScanIntents(deployment);
      if pending { return Some(EarlierUnacknowledged), ordinal; }
      if event.position in database.events { return Some(PositionOccupied), ordinal; }
      if ordinal > MAX_U64 { return Some(IdentifierSpaceExhausted), ordinal; }
      var key := IntentKey(deployment, ordinal);
      record := record.(lifecycle := lifecycle, terminal := None, terminalMarker := None);
      var intent := Intent(event.generation, event.cluster, event.node, event.phase, event.position,
                           event.revision, None, None, Pending);
      database := WithIntent(database, key, intent, {RecordRow(deployment), JobRow(deployment), IntentRow(key)}).(
        records := database.records[deployment := record],
        jobs := database.jobs[deployment := job]);
      error := None;
    }

    // ---- driving an intent to its acknowledgement ------------------------

    /** Read the commit log for the commits that name both the intent and its record. */
    method ScanSourceCommits(key: IntentKey) returns (candidates: set<nat>)
      ensures candidates == SourceCommits(database.log, key)
    {
      var log := database.log;
      candidates := {};
      var rest := log.Keys;
      while rest != {}
        invariant rest <= log.Keys
        invariant candidates == set c | c in log && c !in rest && CreatesIntent(log[c], key)
      {
        var c :| c in rest;
        rest := rest - {c};
        if CreatesIntent(log[c], key) { candidates := candidates + {c}; }
      }
    }

    method BindTransitionIntent(key: IntentKey) returns (error: Option<StoreError>)
      modifies this
      ensures var spec := Bind(old(database), key); database == spec.state && error == ErrorOf(spec)
      ensures error.Some? ==> database == old(database)
      ensures error.None? && database != old(database) ==> BindLeft(old(database), database, key)
      ensures error.None? && database == old(database) ==> key in database.intents && database.intents[key].marker.Some?
    {
      hide BindLeft;
      BindEffect(database, key);
      if key !in database.intents { return Some(MissingIntent); }
      var intent := database.intents[key];
      if IsBound(intent) { return None; }
      var candidates := ScanSourceCommits(key);
      if candidates == {} { return Some(NoSourceCommit); }
      var marker :| marker in candidates;
      if candidates != {marker} { MoreThanOne(database, key, marker); return Some(ManySourceCommits); }
      OnlySource(database, key, marker);
      var event := EventAt(key, intent, marker);
      var delivery := OutboxKey(key.deployment, marker);
      if delivery in database.outbox {
        return Some(if database.outbox[delivery].event != event then PayloadMismatch else AlreadyBound);
      }
      var touched := {IntentRow(key), OutboxRowName(delivery)};
      var records := database.records;
      if MarksRecord(intent) {
        if key.deployment !in records { return Some(MissingRecord); }
        var record := records[key.deployment];
        if intent.terminal.Some? && record.terminal != intent.terminal { return Some(TerminalDisagrees); }
        records := records[key.deployment := MarkedRecord(record, intent, marker)];
        touched := touched + {RecordRow(key.deployment)};
      }
      assert touched == {IntentRow(key), OutboxRowName(delivery)}
                        + (if MarksRecord(intent) then {RecordRow(key.deployment)} else {});
      database := Commit(database, touched).(
        intents := database.intents[key := intent.(marker := Some(marker), state := Bound)],
        outbox := database.outbox[delivery := OutboxRow(event, Undelivered, 0)],
        records := records);
      error := None;
    }

    method DispatchTransitionIntent(key: IntentKey) returns (error: Option<StoreError>)
      modifies this
      ensures var spec := Dispatch(old(database), key); database == spec.state && error == ErrorOf(spec)
      ensures if error.None? then DispatchLeft(old(database), database, key) else database == old(database)
    {
      hide DispatchLeft;
      DispatchEffect(database, key);
      if key !in database.intents { return Some(MissingIntent); }
      var intent := database.intents[key];
      if !IsBound(intent) { return Some(Unbound); }
      var delivery := DeliveryKey(key, intent);
      if delivery !in database.outbox { return Some(MissingOutbox); }
      var row := database.outbox[delivery];
      if row.event != EventOf(key, intent) { return Some(PayloadMismatch); }
      if row.delivery == Delivered { return None; }
      if row.delivery == Undelivered {
        if !CanTake(row.retries) { return Some(IdentifierSpaceExhausted); }
        row := row.(delivery := Dispatched, retries := row.retries + 1);
        database := Commit(database, {OutboxRowName(delivery)}).(outbox := database.outbox[delivery := row]);
      }
      error := None;
    }

    method AppendTransitionIntentJournal(key: IntentKey) returns (error: Option<StoreError>)
      modifies this
      ensures var spec := Append(old(database), key); database == spec.state && error == ErrorOf(spec)
      ensures if error.None? then AppendLeft(old(database), database, key) else database == old(database)
    {
      hide AppendLeft;
      AppendEffect(database, key);
      if key !in database.intents { return Some(MissingIntent); }
      var intent := database.intents[key];
      if !IsBound(intent) { return Some(Unbound); }
      var entry := Deployment(EventOf(key, intent));
      if intent.position in database.events {
        if database.events[intent.position] != entry { return Some(JournalMismatch); }
      } else {
        database := Commit(database, {EventRow(intent.position), IntentRow(key)}).(
          events := database.events[intent.position := entry],
          intents := database.intents[key := intent.(state := Appended)]);
        return None;
      }
      if intent.state != Appended {
        database := Commit(database, {IntentRow(key)}).(
          intents := database.intents[key := intent.(state := Appended)]);
      }
      error := None;
    }

    method AcknowledgeTransitionIntent(key: IntentKey) returns (error: Option<StoreError>)
      modifies this
      ensures var spec := Acknowledge(old(database), key); database == spec.state && error == ErrorOf(spec)
      ensures if error.None? then AcknowledgeLeft(old(database), database, key) else database == old(database)
    {
      hide AcknowledgeLeft;
      AcknowledgeEffect(database, key);
      if key !in database.intents { return Some(MissingIntent); }
      var intent := database.intents[key];
      if !IsBound(intent) { return Some(Unbound); }
      var event := EventOf(key, intent);
      if intent.position !in database.events || database.events[intent.position] != Deployment(event) {
        return Some(JournalAbsent);
      }
      var delivery := DeliveryKey(key, intent);
      if delivery !in database.outbox { return Some(MissingOutbox); }
      var row := database.outbox[delivery];
      if row.event != event { return Some(PayloadMismatch); }
      if intent.state == Acknowledged && row.delivery == Delivered { return None; }
      var touched := {OutboxRowName(delivery), IntentRow(key)};
      var jobs := database.jobs;
      if intent.terminal.Some? && key.deployment in jobs {
        jobs := jobs - {key.deployment};
        touched := touched + {JobRow(key.deployment)};
      }
      assert touched == {OutboxRowName(delivery), IntentRow(key)}
                        + (if intent.terminal.Some? && key.deployment in database.jobs then {JobRow(key.deployment)} else {});
      database := Commit(database, touched).(
        outbox := database.outbox[delivery := row.(delivery := Delivered)],
        intents := database.intents[key := intent.(state := Acknowledged)],
        jobs := jobs);
      error := None;
    }

    method CompletePendingTransitionIntent(key: IntentKey) returns (error: Option<StoreError>)
      modifies this
      ensures var spec := Complete(old(database), key); database == spec.state && error == ErrorOf(spec)
    {
      hide Bind, Dispatch, Append, Acknowledge;
      error := BindTransitionIntent(key);
      if error.Some? { return; }
      error := DispatchTransitionIntent(key);
      if error.Some? { return; }
      error := AppendTransitionIntentJournal(key);
      if error.Some? { return; }
      error := AcknowledgeTransitionIntent(key);
    }

    // ---- whole transitions -----------------------------------------------

    /**
      Admit a deployment and deliver its first transition. In a valid store the
      delivery cannot fail, so it is refused only where the admission itself is.
    */
    method AllocateDeploymentRecord(identity: RequestIdentity, cursor: DeployJob)
      returns (error: Option<StoreError>, deployment: nat)
      requires Valid()
      modifies this
      ensures Valid()
      ensures error == ErrorOf(BeginAdmission(old(database), identity, cursor))
      ensures error.Some? ==> database == old(database)
      ensures error.None? ==>
                && deployment == old(database).allocation.nextDeployment
                && FullyAdmitted(database, deployment, old(database).allocation.nextGeneration, identity, cursor)
                && Apart(old(database), database, deployment)
    {
      hide Inv, BeginAdmission, Complete, FullyAdmitted, Apart;
      ghost var before := database;
      StepKeeps(before, Admit(identity, cursor));
      error, deployment := BeginAdmissionTransition(identity, cursor);
      if error.Some? { RefusalUnchanged(before, Admit(identity, cursor)); return; }
      AdmissionDelivers(before, identity, cursor);
      AdmissionStaysApart(before, identity, cursor);
      error := CompletePendingTransitionIntent(IntentKey(deployment, 0));
    }

    /** End a deployment and deliver its terminal transition, likewise. */
    method TerminalizeDeployment(deployment: nat, terminal: DeploymentTerminal)
      returns (error: Option<StoreError>)
      requires Valid()
      modifies this
      ensures Valid()
      ensures error == ErrorOf(BeginTerminal(old(database), deployment, terminal))
      ensures error.Some? ==> database == old(database)
      ensures error.None? ==>
                && FullyTerminal(old(database), database, deployment, terminal)
                && Apart(old(database), database, deployment)
                && old(database).allocation.nextPosition <= database.allocation.nextPosition
    {
      hide Inv, BeginTerminal, Complete, FullyTerminal, Apart;
      ghost var before := database;
      StepKeeps(before, Terminate(deployment, terminal));
      var ordinal;
      error, ordinal := BeginTerminalTransition(deployment, terminal);
      if error.Some? { RefusalUnchanged(before, Terminate(deployment, terminal)); return; }
      TerminalDelivers(before, deployment, terminal);
      TerminalStaysApart(before, deployment, terminal);
      EndingCounts(before, deployment, terminal);
      error := CompletePendingTransitionIntent(IntentKey(deployment, ordinal));
    }

    // ---- opening ---------------------------------------------------------

    method RequeueDispatchedOutbox()
      modifies this
      ensures database == Requeue(old(database))
      ensures RequeueLeft(old(database), database)
    {
      hide RequeueLeft;
      RequeueEffect(database);
      var outbox := database.outbox;
      var flying: set<OutboxKey> := set o | o in outbox && outbox[o].delivery == Dispatched;
      if flying == {} { return; }
      var touched: set<RowName> := {};
      var rest := flying;
      while rest != {}
        invariant rest <= flying && outbox.Keys == old(database).outbox.Keys
        invariant touched == set o | o in flying && o !in rest :: OutboxRowName(o)
        invariant forall o :: o in outbox ==>
          outbox[o] == if o in flying - rest then old(database).outbox[o].(delivery := Undelivered)
                       else old(database).outbox[o]
      {
        var o :| o in rest;
        rest := rest - {o};
        outbox := outbox[o := outbox[o].(delivery := Undelivered)];
        touched := touched + {OutboxRowName(o)};
      }
      assert touched == set o | o in flying :: OutboxRowName(o);
      assert outbox == Requeue(old(database)).outbox;
      database := Commit(database, touched).(outbox := outbox);
    }

    /** Complete the listed intents that the listing shows unacknowledged. */
    method ReconcilePendingTransitionIntents(keys: seq<IntentKey>) returns (error: Option<StoreError>)
      modifies this
      ensures var spec := CompleteAll(old(database), old(database).intents, keys);
              database == spec.state && error == ErrorOf(spec)
    {
      hide Complete;
      var listed := database.intents;
      error := None;
      var i := 0;
      while i < |keys|
        invariant i <= |keys| && listed == old(database).intents
        invariant CompleteAll(old(database), listed, keys) == CompleteAll(database, listed, keys[i..])
        invariant error.None?
      {
        assert keys[i..][0] == keys[i] && keys[i..][1..] == keys[i + 1..];
        if keys[i] !in listed || Unacknowledged(listed[keys[i]]) {
          error := CompletePendingTransitionIntent(keys[i]);
          if error.Some? { return; }
        }
        i := i + 1;
      }
      assert keys[i..] == [];
    }

    /** Rebuild missing deliveries from the journal, or refuse when two payloads claim one key. */
    method ReconcileDeploymentOutbox() returns (error: Option<StoreError>)
      modifies this
      ensures var spec := ReconcileOutbox(old(database)); database == spec.state && error == ErrorOf(spec)
      ensures if error.None? then ReconciliationLeft(old(database), database) else database == old(database)
    {
      hide ReconciliationLeft;
      ReconciliationEffect(database);
      var additions;
      error, additions := ScanJournal();
      if error.Some? { return; }
      AdditionsComplete(database, additions);
      if additions == map[] { return; }
      AdditionsAre(database, additions);
      database := Commit(database, set o | o in additions :: OutboxRowName(o)).(
        outbox := database.outbox + additions);
    }

    /** Read the journal for the deliveries it lacks, stopping at the first conflict. */
    method ScanJournal() returns (error: Option<StoreError>, additions: map<OutboxKey, OutboxRow>)
      ensures error == if OutboxConflict(database) then Some(PayloadMismatch) else None
      ensures error.None? ==> AdditionsSoFar(database, database.events.Keys, additions)
    {
      hide OutboxConflict, AdditionsSoFar;
      var events, outbox := database.events, database.outbox;
      additions := map[];
      var rest := events.Keys;
      NothingGathered(database);
      while rest != {}
        invariant rest <= events.Keys
        invariant AdditionsSoFar(database, events.Keys - rest, additions)
      {
        var p :| p in rest;
        ghost var read := events.Keys - rest;
        rest := rest - {p};
        assert events.Keys - rest == read + {p};
        if events[p].Deployment? {
          var event := events[p].event;
          var key := KeyOf(event);
          var claimed := if key in outbox then Some(outbox[key].event)
                         else if key in additions then Some(additions[key].event) else None;
          if claimed.Some? && claimed.value != event {
            ConflictFound(database, read, additions, p);
            return Some(PayloadMismatch), additions;
          }
          AdditionsStep(database, read, additions, p);
          if claimed.None? { additions := additions[key := OutboxRow(event, Undelivered, 0)]; }
        } else {
          AdditionsSkip(database, read, additions, p);
        }
      }
      assert events.Keys - rest == events.Keys;
      AdditionsComplete(database, additions);
      error := None;
    }

    /** Recover at open: requeue, complete what is pending, rebuild the outbox. */
    method Reopen(keys: seq<IntentKey>) returns (error: Option<StoreError>)
      modifies this
      ensures var spec := Open(old(database), keys); database == spec.state && error == ErrorOf(spec)
    {
      hide CompleteAll, ReconcileOutbox, Requeue;
      RequeueDispatchedOutbox();
      error := ReconcilePendingTransitionIntents(keys);
      if error.Some? { return; }
      error := ReconcileDeploymentOutbox();
    }

    // ---- history ---------------------------------------------------------

    method AppendEventLogEntry(position: nat, entry: LoggedEvent) returns (error: Option<StoreError>)
      modifies this
      ensures var spec := AppendEntry(old(database), position, entry);
              database == spec.state && error == ErrorOf(spec)
      ensures if error.None? then EntryLeft(old(database), database, position, entry) else database == old(database)
    {
      hide EntryLeft;
      EntryEffect(database, position, entry);
      if entry.Deployment? { return Some(DeploymentEntryRefused); }
      var allocation := database.allocation;
      var touched := {EventRow(position)};
      if position >= allocation.nextPosition {
        if !CanTake(position) { return Some(IdentifierSpaceExhausted); }
        allocation := allocation.(nextPosition := position + 1);
        touched := touched + {AllocationRow};
      }
      if position in database.events { return Some(RowConflict); }
      assert touched == {EventRow(position)}
                        + (if position >= database.allocation.nextPosition then {AllocationRow} else {});
      database := Commit(database, touched).(
        events := database.events[position := entry],
        allocation := allocation,
        history := database.history.(reserved := database.history.reserved - {position}));
      error := None;
    }

    /** Retract the oldest events with their containers and acknowledged deliveries. */
    method CompactEventHistory(retention: nat) returns (retired: nat)
      modifies this
      ensures database == Compact(old(database), retention).state
      ensures retired == |RetiredPositions(old(database), retention)|
      ensures CompactionLeft(old(database), database)
    {
      hide Newest, Ascending, Members, CompactionLeft;
      CompactionEffect(database, retention);
      var events := database.events;
      var sorted := SortedPositions(events.Keys);
      retired := if |sorted| > retention then |sorted| - retention else 0;
      OldestAreRetired(sorted, events.Keys, retention);
      OldestCount(sorted, retired);
      var oldest := set i | 0 <= i < retired :: sorted[i];
      if retired == 0 { assert oldest == {}; return; }
      assert sorted[0] in oldest;
      var aged := AgedContainers(oldest);
      var delivered := AgedDeliveries(oldest);
      var touched := (set p | p in oldest :: EventRow(p)) + (set p | p in aged :: ContainerRow(p))
                     + (set o | o in delivered :: OutboxRowName(o));
      database := Commit(database, touched).(
        events := events - oldest, containers := database.containers - aged, outbox := database.outbox - delivered);
    }

    method AgedContainers(oldest: set<nat>) returns (aged: set<nat>)
      ensures aged == database.containers.Keys * oldest
    {
      var containers := database.containers;
      aged := {};
      var rest := containers.Keys;
      while rest != {}
        invariant rest <= containers.Keys
        invariant aged == set p | p in containers && p !in rest && p in oldest
      {
        var p :| p in rest;
        rest := rest - {p};
        if p in oldest { aged := aged + {p}; }
      }
    }

    /** Only an acknowledged delivery ages out; any other is still the recovery payload. */
    method AgedDeliveries(oldest: set<nat>) returns (delivered: set<OutboxKey>)
      ensures delivered == set o | o in database.outbox && RetiredDelivery(database.outbox[o], oldest)
    {
      var outbox := database.outbox;
      delivered := {};
      var rest := outbox.Keys;
      while rest != {}
        invariant rest <= outbox.Keys
        invariant delivered == set o | o in outbox && o !in rest && RetiredDelivery(outbox[o], oldest)
      {
        var o :| o in rest;
        rest := rest - {o};
        if RetiredDelivery(outbox[o], oldest) { delivered := delivered + {o}; }
      }
    }

    // ---- generations and roots -------------------------------------------

    /** Make a generation live, demoting the current ones it supersedes and their roots. */
    method RecordActivationOf(identifier: nat, generation: LiveGeneration, rootIdentifier: nat, root: GcRoot)
      returns (error: Option<StoreError>)
      modifies this
      ensures var spec := RecordActivation(old(database), identifier, generation, rootIdentifier, root);
              database == spec.state && error == ErrorOf(spec)
      ensures if error.None? then ActivationLeft(old(database), database, identifier, generation, rootIdentifier, root)
              else database == old(database)
    {
      hide IsCanonicalItemRoot, ActivationLeft;
      ActivationEffect(database, identifier, generation, rootIdentifier, root);
      if !CanonicalClosure(generation.closure) || !CanonicalClosure(root.closure) { return Some(UncanonicalClosure); }
      if !CanTake(generation.deployment) || !CanTake(identifier) { return Some(IdentifierSpaceExhausted); }
      if identifier in database.live || rootIdentifier in database.roots { return Some(RowConflict); }
      var allocation := database.allocation;
      var prior := ScanPriorCurrent(generation);
      var live, demotedLive := DemoteLive(prior);
      var roots, demotedRoots := DemoteRoots(prior);
      assert database.live.Keys * prior == prior;
      database := Commit(database,
          {LiveRow(identifier), RootRow(rootIdentifier), AllocationRow} + demotedLive + demotedRoots).(
        live := live[identifier := generation],
        roots := roots[rootIdentifier := root],
        allocation := allocation.(nextDeployment := Max(allocation.nextDeployment, generation.deployment + 1),
                                  nextGeneration := Max(allocation.nextGeneration, identifier + 1)));
      error := None;
    }

    method ScanPriorCurrent(generation: LiveGeneration) returns (prior: set<nat>)
      ensures prior == PriorCurrent(database.live, generation)
    {
      var live := database.live;
      prior := {};
      if generation.slot != Current { return; }
      var rest := live.Keys;
      while rest != {}
        invariant rest <= live.Keys
        invariant prior == set g | g in live && g !in rest && Supersedes(generation, live[g])
      {
        var g :| g in rest;
        rest := rest - {g};
        if Supersedes(generation, live[g]) { prior := prior + {g}; }
      }
    }

    method DemoteLive(prior: set<nat>) returns (demoted: map<nat, LiveGeneration>, touched: set<RowName>)
      ensures demoted == map g | g in database.live ::
                           if g in prior then database.live[g].(slot := Recent) else database.live[g]
      ensures touched == set g | g in database.live.Keys * prior :: LiveRow(g)
    {
      var live := database.live;
      demoted, touched := live, {};
      var rest := live.Keys;
      while rest != {}
        invariant rest <= live.Keys && demoted.Keys == live.Keys
        invariant forall g :: g in live ==>
          demoted[g] == if g in prior && g !in rest then live[g].(slot := Recent) else live[g]
        invariant touched == set g | g in live.Keys * prior && g !in rest :: LiveRow(g)
      {
        var g :| g in rest;
        rest := rest - {g};
        if g in prior { demoted, touched := demoted[g := live[g].(slot := Recent)], touched + {LiveRow(g)}; }
      }
    }

    method DemoteRoots(prior: set<nat>) returns (demoted: map<nat, GcRoot>, touched: set<RowName>)
      ensures demoted == map g | g in database.roots ::
                           if g in prior then database.roots[g].(slot := Recent) else database.roots[g]
      ensures touched == set g | g in database.roots.Keys * prior :: RootRow(g)
    {
      var roots := database.roots;
      demoted, touched := roots, {};
      var rest := roots.Keys;
      while rest != {}
        invariant rest <= roots.Keys && demoted.Keys == roots.Keys
        invariant forall g :: g in roots ==>
          demoted[g] == if g in prior && g !in rest then roots[g].(slot := Recent) else roots[g]
        invariant touched == set g | g in roots.Keys * prior && g !in rest :: RootRow(g)
      {
        var g :| g in rest;
        rest := rest - {g};
        if g in prior { demoted, touched := demoted[g := roots[g].(slot := Recent)], touched + {RootRow(g)}; }
      }
    }

    // ---- records and jobs between transitions ----------------------------

    method UpsertDeployJob(deployment: nat, job: DeployJob) returns (error: Option<StoreError>)
      modifies this
      ensures var spec := UpsertJob(old(database), deployment, job); database == spec.state && error == ErrorOf(spec)
      ensures if error.None? then UpsertLeft(old(database), database, deployment, job) else database == old(database)
    {
      hide UpsertLeft;
      UpsertEffect(database, deployment, job);
      if !FreshJob(job) { return Some(UncanonicalClosure); }
      database := Commit(database, {JobRow(deployment)}).(jobs := database.jobs[deployment := job]);
      error := None;
    }

    method RetractDeployJob(deployment: nat)
      modifies this
      ensures database == RetractJob(old(database), deployment).state
      ensures RetractionLeft(old(database), database, deployment)
    {
      hide RetractionLeft;
      RetractionEffect(database, deployment);
      if deployment in database.jobs {
        database := Commit(database, {JobRow(deployment)}).(jobs := database.jobs - {deployment});
      }
    }

    method RecordResolvedSourceOf(deployment: nat, revision: string, jobDeployment: nat, job: DeployJob)
      returns (error: Option<StoreError>)
      modifies this
      ensures var spec := RecordResolvedSource(old(database), deployment, revision, jobDeployment, job);
              database == spec.state && error == ErrorOf(spec)
      ensures if error.None? then ResolutionLeft(old(database), database, deployment, revision, job) else database == old(database)
    {
      hide ResolutionLeft;
      ResolutionEffect(database, deployment, revision, jobDeployment, job);
      if !FreshJob(job) { return Some(UncanonicalClosure); }
      if deployment !in database.records { return Some(MissingRecord); }
      if jobDeployment != deployment { return Some(CursorMismatch); }
      if deployment !in database.jobs { return Some(RowConflict); }
      var record := database.records[deployment];
      record := record.(identity := record.identity.(revision := Some(revision)));
      database := Commit(database, {RecordRow(deployment), JobRow(deployment)}).(
        records := database.records[deployment := record],
        jobs := database.jobs[deployment := job]);
      error := None;
    }
  }
}
