/** What never changes back, over any run of any callers with crashes, reopenings and compactions. */
module StoreHistory {
  import opened Options
  import opened StoreModel
  import opened StoreInvariant
  import opened StoreGroups
  import opened StorePreservation

  /** A transition keeps its payload; a marker once bound and an acknowledgement once made stay. */
  predicate IntentEvolves(intent: Intent, intent': Intent) {
    && intent' == intent.(marker := intent'.marker, state := intent'.state)
    && (IsBound(intent) ==> intent'.marker == intent.marker)
    && (intent.state == Acknowledged ==> intent'.state == Acknowledged)
  }

  /** A terminal record keeps its terminal, its lifecycle and its terminal marker. */
  predicate RecordEvolves(record: DeploymentRecord, record': DeploymentRecord) {
    && record'.generation == record.generation
    && (record.terminal.Some? ==> record'.terminal == record.terminal && record'.lifecycle == record.lifecycle)
    && (record.terminal.Some? && record.terminalMarker.Some? ==> record'.terminalMarker == record.terminalMarker)
    && (record.admissionMarker.Some? ==> record'.admissionMarker.Some?)
  }

  predicate Counts(allocation: Allocation, allocation': Allocation) {
    && allocation.nextDeployment <= allocation'.nextDeployment
    && allocation.nextGeneration <= allocation'.nextGeneration
    && allocation.nextPosition <= allocation'.nextPosition
  }

  ghost predicate IntentsEvolve(intents: map<IntentKey, Intent>, intents': map<IntentKey, Intent>) {
    forall key :: key in intents ==> key in intents' && IntentEvolves(intents[key], intents'[key])
  }

  ghost predicate RecordsEvolve(records: map<nat, DeploymentRecord>, records': map<nat, DeploymentRecord>) {
    forall d :: d in records ==> d in records' && RecordEvolves(records[d], records'[d])
  }

  /** An acknowledged event that has left the journal does not come back. */
  ghost predicate NotJournalledAgain(intents: map<IntentKey, Intent>, events: map<nat, LoggedEvent>,
                                     events': map<nat, LoggedEvent>) {
    forall key :: key in intents && intents[key].state == Acknowledged && intents[key].position !in events ==>
      intents[key].position !in events'
  }

  ghost predicate Evolves(s: State, s': State) {
    && Counts(s.allocation, s'.allocation) && s.sequence <= s'.sequence
    && IntentsEvolve(s.intents, s'.intents)
    && RecordsEvolve(s.records, s'.records)
    && NotJournalledAgain(s.intents, s.events, s'.events)
  }

  lemma EvolvesSame(s: State)
    ensures Evolves(s, s)
  {
  }

  lemma EvolvesTwice(s: State, s': State, s'': State)
    requires Evolves(s, s') && Evolves(s', s'')
    ensures Evolves(s, s'')
  {
    forall key | key in s.intents && s.intents[key].state == Acknowledged && s.intents[key].position !in s.events
      ensures s.intents[key].position !in s''.events
    {
      assert IntentEvolves(s.intents[key], s'.intents[key]);
    }
  }

  /** Steps that leave intents and records alone and journal nothing at an owned position. */
  lemma QuietEvolves(s: State, s': State)
    requires s'.intents == s.intents && s'.records == s.records
    requires Counts(s.allocation, s'.allocation) && s.sequence <= s'.sequence
    requires forall key :: key in s.intents && s.intents[key].position in s'.events ==> s.intents[key].position in s.events
    ensures Evolves(s, s')
  {
  }

  /** Steps that write one intent and at most the record of its deployment. */
  lemma RowEvolves(s: State, s': State, key: IntentKey)
    requires key in s'.intents && s'.intents == s.intents[key := s'.intents[key]]
    requires key in s.intents ==> IntentEvolves(s.intents[key], s'.intents[key])
    requires s'.records == s.records
      || (key.deployment in s'.records && s'.records == s.records[key.deployment := s'.records[key.deployment]]
          && (key.deployment in s.records ==> RecordEvolves(s.records[key.deployment], s'.records[key.deployment])))
    requires Counts(s.allocation, s'.allocation) && s.sequence <= s'.sequence
    requires NotJournalledAgain(s.intents, s.events, s'.events)
    ensures Evolves(s, s')
  {
    hide NotJournalledAgain;
  }

  lemma IntentEvolvesAlone(s: State, s': State, key: IntentKey)
    requires key in s.intents && key in s'.intents && s'.intents == s.intents[key := s'.intents[key]]
    requires IntentEvolves(s.intents[key], s'.intents[key])
    requires s'.records == s.records && s'.allocation == s.allocation && s.sequence <= s'.sequence
    requires NotJournalledAgain(s.intents, s.events, s'.events)
    ensures Evolves(s, s')
  {
    hide NotJournalledAgain;
  }

  lemma SameJournal(intents: map<IntentKey, Intent>, events: map<nat, LoggedEvent>)
    ensures NotJournalledAgain(intents, events, events)
  {
  }

  lemma NotOwned(s: State, p: nat)
    requires Inv(s) && (p !in s.history.owners || p >= s.allocation.nextPosition)
    ensures forall key :: key in s.intents ==> s.intents[key].position != p
  {
    hide Sequenced, Born, Marked, Logged, Carried, Awaited, Covered, Ending, BelowHighWater, OneCurrent, CanonicalRows;
  }

  lemma OwnedOnce(s: State)
    requires Inv(s)
    ensures forall key, other :: key in s.intents && other in s.intents && s.intents[key].position == s.intents[other].position
              ==> key == other
  {
    hide Sequenced, Born, Marked, Logged, Carried, Awaited, Covered, Ending, BelowHighWater, OneCurrent, CanonicalRows;
  }

  lemma BindEvolves(s: State, key: IntentKey)
    requires Inv(s)
    ensures Evolves(s, Bind(s, key).state)
  {
    hide Inv, EndsWell, KnownDelivery;
    if key in s.intents && !IsBound(s.intents[key]) {
      IntentFacts(s, key);
      SourcesFact(s, key);
      UnboundUnmarked(s, key);
    }
  }

  /** A record is given each of its markers once. */
  lemma UnboundUnmarked(s: State, key: IntentKey)
    requires Inv(s) && key in s.intents && !IsBound(s.intents[key])
    ensures key.deployment in s.records
    ensures s.intents[key].terminal.Some? ==> s.records[key.deployment].terminalMarker.None?
  {
    hide Inv;
    IntentFacts(s, key);
  }

  lemma AppendEvolves(s: State, key: IntentKey)
    requires Inv(s) && (key in s.intents ==> Unacknowledged(s.intents[key]))
    ensures Evolves(s, Append(s, key).state)
  {
    hide Inv, Evolves, NotJournalledAgain, IntentsEvolve, RecordsEvolve;
    EvolvesSame(s);
    if key in s.intents && IsBound(s.intents[key]) {
      var s' := Append(s, key).state;
      if s.intents[key].position !in s.events {
        assert s'.events.Keys == s.events.Keys + {s.intents[key].position};
        OwnJournal(s, key, s'.events);
        IntentEvolvesAlone(s, s', key);
      } else if Append(s, key).Done? && s.intents[key].state != Appended {
        SameJournal(s.intents, s.events);
        IntentEvolvesAlone(s, s', key);
      }
    }
  }

  lemma OwnJournal(s: State, key: IntentKey, events: map<nat, LoggedEvent>)
    requires Inv(s) && key in s.intents && Unacknowledged(s.intents[key])
    requires events.Keys <= s.events.Keys + {s.intents[key].position}
    ensures NotJournalledAgain(s.intents, s.events, events)
  {
    hide Inv;
    OwnedOnce(s);
  }

  lemma AcknowledgeEvolves(s: State, key: IntentKey)
    requires Inv(s)
    ensures Evolves(s, Acknowledge(s, key).state)
  {
    hide Inv, Evolves, NotJournalledAgain, IntentsEvolve, RecordsEvolve;
    var s' := Acknowledge(s, key).state;
    if s' == s {
      EvolvesSame(s);
    } else {
      SameJournal(s.intents, s.events);
      IntentEvolvesAlone(s, s', key);
    }
  }

  lemma AdmitEvolves(s: State, identity: RequestIdentity, job: DeployJob)
    requires Inv(s)
    ensures Evolves(s, BeginAdmission(s, identity, job).state)
  {
    hide Inv, Evolves, NotJournalledAgain, IntentsEvolve, RecordsEvolve;
    var s' := BeginAdmission(s, identity, job).state;
    if s' == s {
      EvolvesSame(s);
    } else {
      NewDeployment(s);
      SameJournal(s.intents, s.events);
      RowEvolves(s, s', IntentKey(s.allocation.nextDeployment, 0));
    }
  }

  lemma RejectEvolves(s: State, identity: RequestIdentity, terminal: DeploymentTerminal)
    requires Inv(s)
    ensures Evolves(s, BeginRejection(s, identity, terminal).state)
  {
    hide Inv, Evolves, NotJournalledAgain, IntentsEvolve, RecordsEvolve;
    var s' := BeginRejection(s, identity, terminal).state;
    if s' == s {
      EvolvesSame(s);
    } else {
      NewDeployment(s);
      SameJournal(s.intents, s.events);
      RowEvolves(s, s', IntentKey(s.allocation.nextDeployment, 0));
    }
  }

  lemma NextIsNew(s: State, d: nat)
    ensures IntentKey(d, Above(OrdinalsOf(s.intents, d))) !in s.intents
  {
    var next := Above(OrdinalsOf(s.intents, d));
    assert next !in OrdinalsOf(s.intents, d);
  }

  lemma TerminateEvolves(s: State, d: nat, terminal: DeploymentTerminal)
    ensures Evolves(s, BeginTerminal(s, d, terminal).state)
  {
    hide Inv, Evolves, NotJournalledAgain, IntentsEvolve, RecordsEvolve;
    var s' := BeginTerminal(s, d, terminal).state;
    if s' == s {
      EvolvesSame(s);
    } else {
      NextIsNew(s, d);
      SameJournal(s.intents, s.events);
      RowEvolves(s, s', IntentKey(d, Above(OrdinalsOf(s.intents, d))));
    }
  }

  lemma AdvanceEvolves(s: State, d: nat, lifecycle: DeploymentPhase, jd: nat, job: DeployJob, event: PhaseEvent)
    requires Inv(s)
    ensures Evolves(s, BeginPhase(s, d, lifecycle, jd, job, event).state)
  {
    hide Inv, Evolves, NotJournalledAgain, IntentsEvolve, RecordsEvolve;
    var s' := BeginPhase(s, d, lifecycle, jd, job, event).state;
    if s' == s {
      EvolvesSame(s);
    } else {
      NextIsNew(s, d);
      if s.records[d].terminal.Some? { TerminalRefusesPhase(s, d); }
      SameJournal(s.intents, s.events);
      RowEvolves(s, s', IntentKey(d, Above(OrdinalsOf(s.intents, d))));
    }
  }

  lemma StepEvolves(s: State, step: Step)
    requires Inv(s) && Disciplined(s, step)
    ensures Evolves(s, Attempt(s, step).state)
  {
    hide Inv, Evolves, NotJournalledAgain, IntentsEvolve, RecordsEvolve;
    match step
    case Admit(identity, job) => AdmitEvolves(s, identity, job);
    case Reject(identity, terminal) => RejectEvolves(s, identity, terminal);
    case Terminate(d, terminal) => TerminateEvolves(s, d, terminal);
    case Advance(d, lifecycle, jd, job, event) => AdvanceEvolves(s, d, lifecycle, jd, job, event);
    case BindStep(key) => BindEvolves(s, key);
    case AppendStep(key) => AppendEvolves(s, key);
    case AcknowledgeStep(key) => AcknowledgeEvolves(s, key);
    case _ => OtherStepEvolves(s, step);
  }

  lemma OtherStepEvolves(s: State, step: Step)
    requires Inv(s) && Disciplined(s, step)
    requires !step.Admit? && !step.Reject? && !step.Terminate? && !step.Advance?
             && !step.BindStep? && !step.AppendStep? && !step.AcknowledgeStep?
    ensures Evolves(s, Attempt(s, step).state)
  {
    hide Inv, Evolves, NotJournalledAgain, IntentsEvolve, RecordsEvolve;
    match step
    case ReviseStep(d, revision) => ReviseEvolves(s, d, revision);
    case ResolveStep(d, revision, jd, job) => ResolveEvolves(s, d, revision, jd, job);
    case AppendOther(p, entry) => OtherEvolves(s, p, entry);
    case ContainerStep(cp, c, p, entry) => ContainerEvolves(s, cp, c, p, entry);
    case ReconcileStep => ReconcileChangesNothing(s); EvolvesSame(s);
    case _ => QuietStepEvolves(s, step);
  }

  lemma OtherEvolves(s: State, p: nat, entry: LoggedEvent)
    requires Inv(s) && Disciplined(s, AppendOther(p, entry))
    ensures Evolves(s, AppendEntry(s, p, entry).state)
  {
    hide Inv, Evolves;
    if AppendEntry(s, p, entry).Refused? {
      EvolvesSame(s);
    } else {
      NotOwned(s, p);
      QuietEvolves(s, AppendEntry(s, p, entry).state);
    }
  }

  lemma ContainerEvolves(s: State, cp: nat, c: ContainerRecord, p: nat, entry: LoggedEvent)
    requires Inv(s) && Disciplined(s, ContainerStep(cp, c, p, entry))
    ensures Evolves(s, RecordContainer(s, cp, c, p, entry).state)
  {
    hide Inv, Evolves;
    if RecordContainer(s, cp, c, p, entry).Refused? {
      EvolvesSame(s);
    } else {
      NotOwned(s, p);
      QuietEvolves(s, RecordContainer(s, cp, c, p, entry).state);
    }
  }

  predicate QuietStep(step: Step) {
    step.DispatchStep? || step.Reserve? || step.CompactStep? || step.TruncateStep? || step.UpsertStep?
    || step.RetractStep? || step.ActivateStep? || step.MutateRootStep? || step.RetractRootStep? || step.RequeueStep?
  }

  lemma QuietStepEvolves(s: State, step: Step)
    requires QuietStep(step)
    ensures Evolves(s, Attempt(s, step).state)
  {
    hide Evolves, Counts, Attempt;
    QuietStepLeaves(s, step);
    QuietEvolves(s, Attempt(s, step).state);
  }

  ghost predicate Leaves(s: State, s': State) {
    && s'.intents == s.intents && s'.records == s.records && s'.events.Keys <= s.events.Keys
    && (forall p :: p in s'.events && p in s.events ==> s'.events[p] == s.events[p])
    && Counts(s.allocation, s'.allocation) && s.sequence <= s'.sequence
    && s'.history.counts == s.history.counts
  }

  lemma QuietStepLeaves(s: State, step: Step)
    requires QuietStep(step)
    ensures Leaves(s, Attempt(s, step).state)
  {
    hide Leaves;
    match step
    case DispatchStep(key) => assert Leaves(s, Dispatch(s, key).state) by { LeavesDispatch(s, key); }
    case Reserve => LeavesReserve(s);
    case CompactStep(retention) => LeavesCompact(s, retention);
    case TruncateStep(kept) => LeavesTruncate(s, kept);
    case UpsertStep(d, job) => LeavesUpsert(s, d, job);
    case RetractStep(d) => LeavesRetract(s, d);
    case ActivateStep(g, generation, r, root) => LeavesActivate(s, g, generation, r, root);
    case MutateRootStep(g, root) => LeavesMutate(s, g, root);
    case RetractRootStep(g) => LeavesRetractRoot(s, g);
    case RequeueStep => LeavesRequeue(s);
  }

  lemma LeavesDispatch(s: State, key: IntentKey)
    ensures Leaves(s, Dispatch(s, key).state)
  {
    if Dispatch(s, key).state == s {
    } else {
      assert Dispatch(s, key).state.intents == s.intents;
    }
  }

  lemma LeavesReserve(s: State) ensures Leaves(s, AllocatePosition(s).state) {}
  lemma LeavesCompact(s: State, retention: nat)
    ensures Leaves(s, Compact(s, retention).state)
  {
    hide RetiredPositions, RetiredDelivery;
    if Compact(s, retention).state != s {}
  }

  lemma LeavesTruncate(s: State, kept: set<nat>) ensures Leaves(s, TruncateLog(s, kept)) {}
  lemma LeavesUpsert(s: State, d: nat, job: DeployJob) ensures Leaves(s, UpsertJob(s, d, job).state) {}
  lemma LeavesRetract(s: State, d: nat) ensures Leaves(s, RetractJob(s, d).state) {}
  lemma LeavesActivate(s: State, g: nat, generation: LiveGeneration, r: nat, root: GcRoot)
    ensures Leaves(s, RecordActivation(s, g, generation, r, root).state) {}
  lemma LeavesMutate(s: State, g: nat, root: GcRoot) ensures Leaves(s, MutateRoot(s, g, root).state) {}
  lemma LeavesRetractRoot(s: State, g: nat) ensures Leaves(s, RetractRoot(s, g).state) {}
  lemma LeavesRequeue(s: State) ensures Leaves(s, Requeue(s)) {}

  lemma RevisionEvolves(s: State, s': State, d: nat)
    requires s'.intents == s.intents && s'.events == s.events && s'.allocation == s.allocation && s.sequence <= s'.sequence
    requires d in s.records && d in s'.records
    requires s'.records == s.records[d := s.records[d].(identity := s'.records[d].identity)]
    ensures Evolves(s, s')
  {
  }

  lemma ReviseEvolves(s: State, d: nat, revision: string)
    ensures Evolves(s, SetRevision(s, d, revision).state)
  {
    hide Evolves;
    if SetRevision(s, d, revision).Refused? {
      EvolvesSame(s);
    } else {
      RevisionEvolves(s, SetRevision(s, d, revision).state, d);
    }
  }

  lemma ResolveEvolves(s: State, d: nat, revision: string, jd: nat, job: DeployJob)
    ensures Evolves(s, RecordResolvedSource(s, d, revision, jd, job).state)
  {
    hide Evolves;
    if RecordResolvedSource(s, d, revision, jd, job).Refused? {
      EvolvesSame(s);
    } else {
      RevisionEvolves(s, RecordResolvedSource(s, d, revision, jd, job).state, d);
    }
  }

  lemma {:induction false} RunEvolves(s: State, steps: seq<Step>)
    requires Inv(s) && DisciplinedRun(s, steps)
    ensures Inv(Run(s, steps)) && Evolves(s, Run(s, steps))
    decreases |steps|
  {
    hide Inv, Evolves, Attempt, Disciplined;
    if steps == [] {
      EvolvesSame(s);
    } else {
      StepKeeps(s, steps[0]);
      StepEvolves(s, steps[0]);
      RunEvolves(Attempt(s, steps[0]).state, steps[1..]);
      EvolvesTwice(s, Attempt(s, steps[0]).state, Run(s, steps));
    }
  }

  // ---- the main results --------------------------------------------------

  /**
    A terminal is absorbing: although beginning a phase resets the terminal
    fields, no later run of a reachable store changes a terminal or its
    lifecycle, and a terminal record has a pending last transition or no job.
  */
  lemma TerminalIsAbsorbing(history: seq<Step>, later: seq<Step>, d: nat)
    requires DisciplinedRun(EMPTY, history) && DisciplinedRun(Run(EMPTY, history), later)
    requires d in Run(EMPTY, history).records && Run(EMPTY, history).records[d].terminal.Some?
    ensures var s, s' := Run(EMPTY, history), Run(Run(EMPTY, history), later);
            && d in s'.records && s'.records[d].terminal == s.records[d].terminal
            && s'.records[d].lifecycle == LifecycleOf(s.records[d].terminal.value)
            && (d !in s'.jobs || EarlierPending(s'.intents, d))
  {
    hide Inv, Run, DisciplinedRun, EndsWell;
    ReachableHolds(history);
    var s := Run(EMPTY, history);
    RunEvolves(s, later);
    var s' := Run(s, later);
    EndedRecord(s', d);
    if d in s'.jobs { TerminalRefusesPhase(s', d); }
  }

  lemma EndedRecord(s: State, d: nat)
    requires Inv(s) && d in s.records && s.records[d].terminal.Some?
    ensures s.records[d].lifecycle == LifecycleOf(s.records[d].terminal.value)
  {
    hide Sequenced, Born, Marked, Logged, Positioned, Carried, Awaited, Covered, BelowHighWater, OneCurrent, CanonicalRows;
  }

  /**
    Exactly-once journalling: a position owned by an intent holds nothing or
    exactly that intent's event, so appending is never refused as a mismatch;
    and once the intent is acknowledged and its event has been compacted away,
    no later run journals anything at that position.
  */
  lemma JournalledExactlyOnce(history: seq<Step>, later: seq<Step>, key: IntentKey)
    requires DisciplinedRun(EMPTY, history) && DisciplinedRun(Run(EMPTY, history), later)
    requires key in Run(EMPTY, history).intents
    ensures var s, s' := Run(EMPTY, history), Run(Run(EMPTY, history), later);
            var p := s.intents[key].position;
            && key in s'.intents && s'.intents[key].position == p
            && (p in s'.events ==> IsBound(s'.intents[key]) && s'.events[p] == Deployment(EventOf(key, s'.intents[key])))
            && Append(s', key) != Refused(s', JournalMismatch)
            && (s.intents[key].state == Acknowledged && p !in s.events ==> p !in s'.events)
  {
    hide Inv, Run, DisciplinedRun, EndsWell, KnownDelivery;
    ReachableHolds(history);
    var s := Run(EMPTY, history);
    RunEvolves(s, later);
    IntentFacts(Run(s, later), key);
  }

  /**
    Own-commit markers: an intent that is bound carries the commit that created
    it, for good; one that is not has that commit as its only candidate. Markers
    of different intents differ, and grow with the ordinal within a deployment.
  */
  lemma MarkersAreOwnCommits(history: seq<Step>, later: seq<Step>, key: IntentKey, other: IntentKey)
    requires DisciplinedRun(EMPTY, history) && DisciplinedRun(Run(EMPTY, history), later)
    requires key in Run(EMPTY, history).intents && other in Run(EMPTY, history).intents && key != other
    ensures var s, s' := Run(EMPTY, history), Run(Run(EMPTY, history), later);
            && key in s'.intents && other in s'.intents
            && (IsBound(s.intents[key]) ==> s'.intents[key].marker == s.intents[key].marker)
            && key in s'.history.births && other in s'.history.births
            && (!IsBound(s'.intents[key]) ==> SourceCommits(s'.log, key) <= {s'.history.births[key]})
            && (IsBound(s'.intents[key]) ==> s'.intents[key].marker == Some(s'.history.births[key]))
            && s'.history.births[key] != s'.history.births[other]
            && (Precedes(key, other) ==> s'.history.births[key] < s'.history.births[other])
  {
    hide Inv, Run, DisciplinedRun, EndsWell, KnownDelivery;
    ReachableHolds(history);
    var s := Run(EMPTY, history);
    RunEvolves(s, later);
    var s' := Run(s, later);
    IntentFacts(s', key);
    IntentFacts(s', other);
    if !IsBound(s'.intents[key]) { SourcesFact(s', key); }
    BornInOrder(s', key, other);
  }

  lemma BornInOrder(s: State, key: IntentKey, other: IntentKey)
    requires Inv(s) && key in s.intents && other in s.intents
    ensures key in s.history.births && other in s.history.births
    ensures Precedes(key, other) ==> s.history.births[key] < s.history.births[other]
  {
    hide Sequenced, Marked, Logged, Positioned, Carried, Awaited, Covered, Ending, BelowHighWater, OneCurrent, CanonicalRows;
  }

  /** A step that was issued a deployment, a generation and a position. */
  ghost predicate Issues(s: State, step: Step) {
    (step.Admit? || step.Reject?) && Attempt(s, step).Done?
  }

  /** A step that was issued a position: an admission, a rejection, a terminal or a reservation. */
  ghost predicate IssuesPosition(s: State, step: Step) {
    (step.Admit? || step.Reject? || step.Terminate? || step.Reserve?) && Attempt(s, step).Done?
  }

  /** The next deployment and generation occur in no table. */
  ghost predicate IdentifiersUnused(s: State) {
    && s.allocation.nextDeployment !in s.records && s.allocation.nextDeployment !in s.jobs
    && s.allocation.nextGeneration !in s.live && s.allocation.nextGeneration !in s.roots
    && (forall d :: d in s.records ==> s.records[d].generation != s.allocation.nextGeneration)
  }

  /** The next position occurs in no event, intent or reservation. */
  ghost predicate PositionUnused(s: State) {
    && s.allocation.nextPosition !in s.events && s.allocation.nextPosition !in s.history.reserved
    && (forall key :: key in s.intents ==> s.intents[key].position != s.allocation.nextPosition)
  }

  /**
    Identifiers are issued once: between two steps of any run that are issued
    some, whatever happens in between, what is issued strictly grows, and each
    is unused in every table, intent and reservation when issued.
  */
  lemma IdentifiersIssuedOnce(history: seq<Step>, first: Step, between: seq<Step>, second: Step)
    requires DisciplinedRun(EMPTY, history) && Disciplined(Run(EMPTY, history), first)
    requires var s := Run(EMPTY, history); var s1 := Attempt(s, first).state;
             IssuesPosition(s, first) && DisciplinedRun(s1, between) && IssuesPosition(Run(s1, between), second)
    ensures var s := Run(EMPTY, history); var s2 := Run(Attempt(s, first).state, between);
            && s.allocation.nextPosition < s2.allocation.nextPosition && PositionUnused(s2)
            && IdentifiersUnused(s2)
            && (Issues(s, first) ==>
                  s.allocation.nextDeployment < s2.allocation.nextDeployment
                  && s.allocation.nextGeneration < s2.allocation.nextGeneration)
  {
    hide Inv, Run, DisciplinedRun, Evolves, Disciplined, Attempt, IdentifiersUnused, PositionUnused;
    ReachableHolds(history);
    var s := Run(EMPTY, history);
    StepKeeps(s, first);
    IssuedGrows(s, first);
    var s1 := Attempt(s, first).state;
    RunEvolves(s1, between);
    RunKeeps(s1, between);
    var s2 := Run(s1, between);
    EvolvesCounts(s1, s2);
    NothingAtNext(s2);
  }

  lemma IssuedGrows(s: State, step: Step)
    requires IssuesPosition(s, step)
    ensures Attempt(s, step).state.allocation.nextPosition == s.allocation.nextPosition + 1
    ensures Issues(s, step) ==>
              Attempt(s, step).state.allocation.nextDeployment == s.allocation.nextDeployment + 1
              && Attempt(s, step).state.allocation.nextGeneration == s.allocation.nextGeneration + 1
  {
    hide FreshJob;
  }

  lemma NothingAtNext(s: State)
    requires Inv(s)
    ensures IdentifiersUnused(s) && PositionUnused(s)
  {
    hide Inv;
    NewDeployment(s);
    UnusedAbove(s);
    NotOwned(s, s.allocation.nextPosition);
  }

  lemma EvolvesCounts(s: State, s': State)
    requires Evolves(s, s')
    ensures Counts(s.allocation, s'.allocation)
  {
  }

  lemma UnusedAbove(s: State)
    requires Inv(s)
    ensures s.allocation.nextGeneration !in s.live && s.allocation.nextGeneration !in s.roots
    ensures forall d :: d in s.records ==> s.records[d].generation != s.allocation.nextGeneration
    ensures s.allocation.nextPosition !in s.events && s.allocation.nextPosition !in s.history.reserved
  {
    hide Sequenced, Born, Marked, Logged, Carried, Awaited, Covered, Ending, OneCurrent, CanonicalRows;
  }

  /**
    Per-deployment sequencing: the ordinals of a deployment are exactly 0..n-1,
    and an unacknowledged transition is the last one.
  */
  lemma OrdinalsAreContiguous(history: seq<Step>, d: nat) returns (n: nat)
    requires DisciplinedRun(EMPTY, history) && d in Run(EMPTY, history).records
    ensures var s := Run(EMPTY, history);
            && n >= 1
            && (forall o: nat :: IntentKey(d, o) in s.intents <==> o < n)
            && (forall o: nat :: IntentKey(d, o) in s.intents && Unacknowledged(s.intents[IntentKey(d, o)]) ==> o == n - 1)
  {
    hide Inv, Run, DisciplinedRun;
    ReachableHolds(history);
    ContiguousAt(Run(EMPTY, history), d);
    n := Run(EMPTY, history).history.counts[d];
  }

  lemma ContiguousAt(s: State, d: nat)
    requires Inv(s) && d in s.records
    ensures d in s.history.counts && s.history.counts[d] >= 1
    ensures forall o: nat :: IntentKey(d, o) in s.intents <==> o < s.history.counts[d]
    ensures forall o: nat :: IntentKey(d, o) in s.intents && Unacknowledged(s.intents[IntentKey(d, o)]) ==>
              o == s.history.counts[d] - 1
  {
    hide Born, Marked, Logged, Positioned, Carried, Awaited, Covered, Ending, BelowHighWater, OneCurrent, CanonicalRows;
  }
}
