/**
  Two transitions holding one journal position. Beginning a phase lets it
  happen, because the position of a transition not yet journalled is still
  empty. Nothing here assumes the store to be sound: it no longer is.
*/
module StoreShared {
  import opened Options
  import opened StoreModel
  import opened StoreInvariant
  import opened StorePreservation
  import opened StoreHistory
  import opened StoreScans
  import opened StoreTransitions
  import opened StoreWitness

  /** The journal keeps its entries and the intents their positions. */
  ghost predicate JournalKept(s: State, s': State) {
    && (forall p :: p in s.events ==> p in s'.events && s'.events[p] == s.events[p])
    && s'.intents.Keys == s.intents.Keys
    && (forall key :: key in s.intents ==> s'.intents[key].position == s.intents[key].position)
  }

  /** The intent's position holds an event of its own deployment. */
  ghost predicate JournalledOwn(s: State, key: IntentKey) {
    && key in s.intents && s.intents[key].position in s.events
    && s.events[s.intents[key].position].Deployment?
    && s.events[s.intents[key].position].event.deployment == key.deployment
  }

  lemma BindJournal(s: State, key: IntentKey)
    ensures JournalKept(s, Bind(s, key).state)
  {
    if Bind(s, key).state != s {}
  }

  lemma DispatchJournal(s: State, key: IntentKey)
    ensures JournalKept(s, Dispatch(s, key).state)
  {
    if Dispatch(s, key).state != s {}
  }

  lemma AppendJournal(s: State, key: IntentKey)
    ensures JournalKept(s, Append(s, key).state)
    ensures Append(s, key).Done? ==> JournalledOwn(Append(s, key).state, key)
  {
    if Append(s, key).Done? {
      if Append(s, key).state != s {}
    }
  }

  lemma AcknowledgeJournal(s: State, key: IntentKey)
    ensures JournalKept(s, Acknowledge(s, key).state)
  {
    if Acknowledge(s, key).state != s {}
  }

  lemma KeptTwice(a: State, b: State, c: State)
    requires JournalKept(a, b) && JournalKept(b, c)
    ensures JournalKept(a, c)
  {
  }

  lemma OwnKept(s: State, s': State, key: IntentKey)
    requires JournalKept(s, s') && JournalledOwn(s, key)
    ensures JournalledOwn(s', key)
  {
  }

  lemma CompleteJournal(s: State, key: IntentKey)
    ensures JournalKept(s, Complete(s, key).state)
    ensures Complete(s, key).Done? ==> JournalledOwn(Complete(s, key).state, key)
  {
    hide Bind, Dispatch, Append, Acknowledge, JournalKept, JournalledOwn;
    BindJournal(s, key);
    var s1 := Bind(s, key).state;
    DispatchJournal(s1, key);
    var s2 := Dispatch(s1, key).state;
    KeptTwice(s, s1, s2);
    AppendJournal(s2, key);
    var s3 := Append(s2, key).state;
    KeptTwice(s, s2, s3);
    AcknowledgeJournal(s3, key);
    var s4 := Acknowledge(s3, key).state;
    KeptTwice(s, s3, s4);
    if Append(s2, key).Done? { OwnKept(s3, s4, key); }
  }

  lemma {:induction false} CompleteAllJournal(s: State, snapshot: map<IntentKey, Intent>, keys: seq<IntentKey>)
    ensures JournalKept(s, CompleteAll(s, snapshot, keys).state)
    ensures CompleteAll(s, snapshot, keys).Done? ==>
              forall key :: key in keys && key in snapshot && Unacknowledged(snapshot[key]) ==>
                JournalledOwn(CompleteAll(s, snapshot, keys).state, key)
    decreases |keys|
  {
    hide Complete, JournalKept, JournalledOwn;
    if keys == [] {
      SameJournal(s);
    } else if keys[0] in snapshot && !Unacknowledged(snapshot[keys[0]]) {
      CompleteAllJournal(s, snapshot, keys[1..]);
    } else {
      CompleteJournal(s, keys[0]);
      if Complete(s, keys[0]).Done? {
        var s' := Complete(s, keys[0]).state;
        var end := CompleteAll(s', snapshot, keys[1..]).state;
        CompleteAllJournal(s', snapshot, keys[1..]);
        KeptTwice(s, s', end);
        OwnKept(s', end, keys[0]);
      }
    }
  }

  lemma SameJournal(s: State)
    ensures JournalKept(s, s)
  {
  }

  lemma RequeueJournal(s: State)
    ensures JournalKept(s, Requeue(s)) && Requeue(s).intents == s.intents
  {
    if Requeue(s) != s {}
  }

  /**
    With two pending transitions of different deployments at one position, no
    opening succeeds, whatever order the engine lists the intents in and
    whatever else is in the store.
  */
  lemma SharedPositionNeverOpens(s: State, first: IntentKey, second: IntentKey, keys: seq<IntentKey>)
    requires first in s.intents && second in s.intents && first.deployment != second.deployment
    requires Unacknowledged(s.intents[first]) && Unacknowledged(s.intents[second])
    requires s.intents[first].position == s.intents[second].position && Lists(keys, s)
    ensures Open(s, keys).Refused?
  {
    hide CompleteAll, ReconcileOutbox, Requeue;
    var r := Requeue(s);
    RequeueJournal(s);
    CompleteAllJournal(r, r.intents, keys);
    var c := CompleteAll(r, r.intents, keys);
    if c.Done? { NotBothOwn(c.state, first, second); }
  }

  lemma NotBothOwn(s: State, first: IntentKey, second: IntentKey)
    requires first in s.intents && second in s.intents && first.deployment != second.deployment
    requires s.intents[first].position == s.intents[second].position
    ensures !(JournalledOwn(s, first) && JournalledOwn(s, second))
  {
  }

  /** So an accepted phase at the position of another deployment's pending transition strands the store. */
  lemma OwnedPhaseStrands(s: State, d: nat, lifecycle: DeploymentPhase, job: DeployJob, event: PhaseEvent,
                          owner: IntentKey, keys: seq<IntentKey>)
    requires Inv(s) && BeginPhase(s, d, lifecycle, d, job, event).Done?
    requires owner in s.intents && Unacknowledged(s.intents[owner]) && s.intents[owner].position == event.position
    requires Lists(keys, BeginPhase(s, d, lifecycle, d, job, event).state)
    ensures Open(BeginPhase(s, d, lifecycle, d, job, event).state, keys).Refused?
  {
    hide Inv, Open, Lists;
    var t := BeginPhase(s, d, lifecycle, d, job, event).state;
    var key := IntentKey(d, Above(OrdinalsOf(s.intents, d)));
    NextFresh(s, d);
    SharedPositionNeverOpens(t, owner, key, keys);
  }

  lemma NextFresh(s: State, d: nat)
    ensures IntentKey(d, Above(OrdinalsOf(s.intents, d))) !in s.intents
  {
    assert forall key :: key in s.intents && key.deployment == d ==> key.ordinal in OrdinalsOf(s.intents, d);
  }

  // ---- how long the second is refused ------------------------------------

  /** A bound intent whose event has not been journalled, whatever its position holds. */
  ghost predicate LeftOut(s: State, key: IntentKey) {
    && key in s.intents && IsBound(s.intents[key])
    && (s.intents[key].position in s.events ==>
          s.events[s.intents[key].position] != Deployment(EventOf(key, s.intents[key])))
  }

  /** Any step but journalling the intent itself, or another of its deployment in its place. */
  predicate Spares(step: Step, key: IntentKey) {
    match step
    case AppendStep(other) => other.deployment != key.deployment
    case ContainerStep(_, _, _, entry) => entry.Container?
    case _ => true
  }

  /** The intent keeps its payload, and no event of its deployment appears in the journal. */
  ghost predicate StillLeftOut(s: State, s': State, key: IntentKey) {
    && key in s.intents && key in s'.intents && s'.intents[key] == s.intents[key]
    && forall p :: p in s'.events && Journalled(s', p) && s'.events[p].event.deployment == key.deployment ==>
         p in s.events && s'.events[p] == s.events[p]
  }

  lemma LeftOutStays(s: State, s': State, key: IntentKey)
    requires LeftOut(s, key) && StillLeftOut(s, s', key)
    ensures LeftOut(s', key)
  {
  }

  lemma SparedBegin(s: State, step: Step, key: IntentKey)
    requires LeftOut(s, key)
    requires step.Admit? || step.Reject? || step.Terminate? || step.Advance?
    ensures StillLeftOut(s, Attempt(s, step).state, key)
  {
    hide FreshJob;
    match step
    case Admit(identity, job) => if BeginAdmission(s, identity, job).Done? {}
    case Reject(identity, terminal) => if BeginRejection(s, identity, terminal).Done? {}
    case Terminate(d, terminal) => SparedTerminate(s, d, terminal, key);
    case Advance(d, lifecycle, jd, job, event) => SparedAdvance(s, d, lifecycle, jd, job, event, key);
  }

  lemma SparedTerminate(s: State, d: nat, terminal: DeploymentTerminal, key: IntentKey)
    requires LeftOut(s, key)
    ensures StillLeftOut(s, BeginTerminal(s, d, terminal).state, key)
  {
    NextFresh(s, d);
    if BeginTerminal(s, d, terminal).Done? {}
  }

  lemma SparedAdvance(s: State, d: nat, lifecycle: DeploymentPhase, jd: nat, job: DeployJob, event: PhaseEvent, key: IntentKey)
    requires LeftOut(s, key)
    ensures StillLeftOut(s, BeginPhase(s, d, lifecycle, jd, job, event).state, key)
  {
    hide FreshJob;
    NextFresh(s, d);
    if BeginPhase(s, d, lifecycle, jd, job, event).Done? {}
  }

  lemma SparedBind(s: State, other: IntentKey, key: IntentKey)
    requires LeftOut(s, key)
    ensures StillLeftOut(s, Bind(s, other).state, key)
  {
    if Bind(s, other).state != s {}
  }

  lemma SparedAppend(s: State, other: IntentKey, key: IntentKey)
    requires LeftOut(s, key) && other.deployment != key.deployment
    ensures StillLeftOut(s, Append(s, other).state, key)
  {
    if Append(s, other).state != s {}
  }

  lemma SparedAcknowledge(s: State, other: IntentKey, key: IntentKey)
    requires LeftOut(s, key)
    ensures StillLeftOut(s, Acknowledge(s, other).state, key)
  {
    if Acknowledge(s, other).state != s {}
  }

  lemma SparedOther(s: State, step: Step, key: IntentKey)
    requires LeftOut(s, key) && Spares(step, key)
    requires step.AppendOther? || step.ContainerStep? || step.ReviseStep? || step.ResolveStep? || step.ReconcileStep?
    ensures StillLeftOut(s, Attempt(s, step).state, key)
  {
    hide FreshJob, OutboxConflict;
    var s' := Attempt(s, step).state;
    if s' != s {}
  }

  lemma SparedStep(s: State, step: Step, key: IntentKey)
    requires LeftOut(s, key) && Spares(step, key)
    ensures LeftOut(Attempt(s, step).state, key)
  {
    hide LeftOut, StillLeftOut, Attempt;
    if QuietStep(step) {
      QuietStepLeaves(s, step);
      LeavesLeftOut(s, Attempt(s, step).state, key);
    } else {
      AttemptIs(s, step);
      match step {
        case BindStep(other) => SparedBind(s, other, key);
        case AppendStep(other) => SparedAppend(s, other, key);
        case AcknowledgeStep(other) => SparedAcknowledge(s, other, key);
        case Admit(_, _) => SparedBegin(s, step, key);
        case Reject(_, _) => SparedBegin(s, step, key);
        case Terminate(_, _) => SparedBegin(s, step, key);
        case Advance(_, _, _, _, _) => SparedBegin(s, step, key);
        case _ => SparedOther(s, step, key);
      }
      LeftOutStays(s, Attempt(s, step).state, key);
    }
  }

  lemma AttemptIs(s: State, step: Step)
    ensures step.BindStep? ==> Attempt(s, step) == Bind(s, step.key)
    ensures step.AppendStep? ==> Attempt(s, step) == Append(s, step.key)
    ensures step.AcknowledgeStep? ==> Attempt(s, step) == Acknowledge(s, step.key)
  {
  }

  lemma LeavesLeftOut(s: State, s': State, key: IntentKey)
    requires LeftOut(s, key) && Leaves(s, s')
    ensures LeftOut(s', key)
  {
  }

  ghost predicate SparingRun(steps: seq<Step>, key: IntentKey) {
    forall i :: 0 <= i < |steps| ==> Spares(steps[i], key)
  }

  lemma {:induction false} SparedRun(s: State, steps: seq<Step>, key: IntentKey)
    requires LeftOut(s, key) && SparingRun(steps, key)
    ensures LeftOut(Run(s, steps), key)
    decreases |steps|
  {
    hide LeftOut, Attempt, Spares;
    if steps != [] {
      SparedStep(s, steps[0], key);
      SparedRun(Attempt(s, steps[0]).state, steps[1..], key);
    }
  }

  /**
    Of two transitions at one position, once one is journalled the other is
    refused exactly while the position is occupied: through any run, until a
    compaction retires the event that took its place.
  */
  lemma SecondRefusedExactly(s: State, first: IntentKey, second: IntentKey, later: seq<Step>)
    requires first in s.intents && second in s.intents && first.deployment != second.deployment
    requires IsBound(s.intents[first]) && IsBound(s.intents[second])
    requires s.intents[first].position == s.intents[second].position && s.intents[second].position !in s.events
    requires Append(s, first).Done? && SparingRun(later, second)
    ensures var here := Append(s, first).state; var u := Run(here, later);
            && s.intents[second].position in here.events
            && second in u.intents
            && (Append(u, second).Done? <==> u.intents[second].position !in u.events)
            && (Append(u, second).Refused? <==> Append(u, second) == Refused(u, JournalMismatch))
  {
    hide Run, Spares;
    SparedAppend(s, first, second);
    LeftOutStays(s, Append(s, first).state, second);
    SparedRun(Append(s, first).state, later, second);
  }

  // ---- the run -----------------------------------------------------------

  /** A phase of the first deployment at the position of the second one's pending admission. */
  function TakenPhase(identity: RequestIdentity): PhaseEvent {
    PhaseEvent(1, 1, identity.cluster, identity.node, Building, 1, 0, identity.revision, None)
  }

  function PhaseIntent(identity: RequestIdentity): Intent {
    Intent(1, identity.cluster, identity.node, Building, 1, identity.revision, None, None, Pending)
  }

  ghost function Shared(identity: RequestIdentity, cursor: DeployJob): State {
    Attempt(Waiting2(identity, cursor), Advance(1, Building, 1, cursor, TakenPhase(identity))).state
  }

  lemma PhaseAccepted(s: State, identity: RequestIdentity, cursor: DeployJob)
    requires FreshJob(cursor) && s.intents.Keys == {FIRST, SECOND} && s.intents[FIRST].state == Acknowledged
    requires 1 in s.records && s.records[1] == RecordOf(identity, 1, Some(1)) && 1 in s.jobs && 1 !in s.events
    ensures var t := BeginPhase(s, 1, Building, 1, cursor, TakenPhase(identity));
            && t.Done? && t.state.intents == s.intents[THIRD := PhaseIntent(identity)]
            && t.state.log == s.log[s.sequence + 1 := {RecordRow(1), JobRow(1), IntentRow(THIRD)}]
            && t.state.outbox == s.outbox && t.state.events == s.events
            && t.state.records.Keys == s.records.Keys && t.state.sequence == s.sequence + 1
  {
    hide FreshJob;
    NextOrdinalFound(s.intents, 1, 1);
    assert !EarlierPending(s.intents, 1);
    assert s.records[1 := s.records[1].(lifecycle := Building)].Keys == s.records.Keys;
  }

  /** The pending admission is delivered and takes the position. */
  lemma SecondDelivered(s: State, identity: RequestIdentity)
    requires SECOND in s.intents && s.intents[SECOND] == IntentFor(identity, 2, 1, None, Pending)
    requires SourceCommits(s.log, SECOND) == {6} && OutboxKey(2, 6) !in s.outbox && 1 !in s.events
    requires 2 in s.records
    ensures Complete(s, SECOND).Done?
  {
    OnlySource(s, SECOND, 6);
    var b := Bind(s, SECOND).state;
    assert b.outbox[OutboxKey(2, 6)] == OutboxRow(EventAt(SECOND, s.intents[SECOND], 6), Undelivered, 0);
    var d := Dispatch(b, SECOND).state;
    assert CanTake(0) && Dispatch(b, SECOND).Done? && d.intents == b.intents && d.events == s.events;
    var a := Append(d, SECOND).state;
    assert a.events[1] == Deployment(EventOf(SECOND, b.intents[SECOND]));
  }

  /** A pending phase whose position is taken is bound and dispatched, and then refused. */
  lemma ThirdRefused(s: State, identity: RequestIdentity)
    requires THIRD in s.intents && s.intents[THIRD] == PhaseIntent(identity)
    requires SourceCommits(s.log, THIRD) == {7} && OutboxKey(1, 7) !in s.outbox
    requires 1 in s.events && (s.events[1].Deployment? ==> s.events[1].event.deployment == 2)
    ensures Complete(s, THIRD).Refused? && Complete(s, THIRD).error == JournalMismatch
  {
    OnlySource(s, THIRD, 7);
    var b := Bind(s, THIRD).state;
    assert b.outbox[OutboxKey(1, 7)] == OutboxRow(EventAt(THIRD, s.intents[THIRD], 7), Undelivered, 0);
    var d := Dispatch(b, THIRD).state;
    assert CanTake(0) && Dispatch(b, THIRD).Done? && d.intents == b.intents && d.events == s.events;
  }

  // A delivery step of one intent adds no source commit to another and no delivery to another deployment.

  ghost predicate SourcesKept(s: State, s': State, key: IntentKey, other: IntentKey) {
    && (forall c :: c in s'.log ==> c <= s'.sequence)
    && SourceCommits(s'.log, other) == SourceCommits(s.log, other)
    && (forall o: OutboxKey :: o in s'.outbox && o.deployment != key.deployment ==> o in s.outbox)
  }

  predicate LogBelow(s: State) {
    forall c :: c in s.log ==> c <= s.sequence
  }

  lemma CommitSources(s: State, touched: set<RowName>, other: IntentKey)
    requires LogBelow(s) && IntentRow(other) !in touched
    ensures LogBelow(Commit(s, touched)) && SourceCommits(Commit(s, touched).log, other) == SourceCommits(s.log, other)
  {
    var c := Commit(s, touched);
    assert forall n :: n in s.log ==> n in c.log && c.log[n] == s.log[n];
  }

  lemma BindSources(s: State, key: IntentKey, other: IntentKey)
    requires LogBelow(s) && other != key
    ensures SourcesKept(s, Bind(s, key).state, key, other)
  {
    hide SourceCommits;
    var s' := Bind(s, key).state;
    if s' != s {
      var touched := s'.log[s'.sequence];
      CommitSources(s, touched, other);
      assert s'.log == Commit(s, touched).log;
    }
  }

  lemma DispatchSources(s: State, key: IntentKey, other: IntentKey)
    requires LogBelow(s) && other != key
    ensures SourcesKept(s, Dispatch(s, key).state, key, other)
  {
    hide SourceCommits;
    var s' := Dispatch(s, key).state;
    if s' != s {
      var touched := s'.log[s'.sequence];
      CommitSources(s, touched, other);
      assert s'.log == Commit(s, touched).log;
    }
  }

  lemma AppendSources(s: State, key: IntentKey, other: IntentKey)
    requires LogBelow(s) && other != key
    ensures SourcesKept(s, Append(s, key).state, key, other)
  {
    hide SourceCommits, Append;
    if Append(s, key).state != s {
      AppendLogs(s, key);
      CommitSources(s, {EventRow(s.intents[key].position), IntentRow(key)}, other);
      CommitSources(s, {IntentRow(key)}, other);
    }
  }

  lemma AppendLogs(s: State, key: IntentKey)
    requires Append(s, key).state != s
    ensures key in s.intents
    ensures var s' := Append(s, key).state;
            || LogsOne(s, s', {EventRow(s.intents[key].position), IntentRow(key)})
            || LogsOne(s, s', {IntentRow(key)})
  {
    hide Append, LogsOne;
    AppendNamed(s, key);
    if s.intents[key].position in s.events { AppendOccupied(s, key); } else { AppendVacant(s, key); }
  }

  lemma AppendNamed(s: State, key: IntentKey)
    requires Append(s, key).state != s
    ensures key in s.intents && IsBound(s.intents[key])
  {
  }

  lemma AppendVacant(s: State, key: IntentKey)
    requires key in s.intents && IsBound(s.intents[key]) && s.intents[key].position !in s.events
    ensures LogsOne(s, Append(s, key).state, {EventRow(s.intents[key].position), IntentRow(key)})
  {
    hide EventOf;
  }

  lemma AppendOccupied(s: State, key: IntentKey)
    requires key in s.intents && IsBound(s.intents[key]) && s.intents[key].position in s.events
    requires Append(s, key).state != s
    ensures LogsOne(s, Append(s, key).state, {IntentRow(key)})
  {
    hide EventOf;
  }

  /** One commit touched these rows and no delivery. */
  ghost predicate LogsOne(s: State, s': State, touched: set<RowName>) {
    s'.sequence == s.sequence + 1 && s'.outbox == s.outbox && s'.log == Commit(s, touched).log
  }

  lemma AcknowledgeSources(s: State, key: IntentKey, other: IntentKey)
    requires LogBelow(s) && other != key
    ensures SourcesKept(s, Acknowledge(s, key).state, key, other)
  {
    hide SourceCommits;
    var s' := Acknowledge(s, key).state;
    if s' != s {
      var touched := s'.log[s'.sequence];
      CommitSources(s, touched, other);
      assert s'.log == Commit(s, touched).log;
    }
  }

  lemma CompleteSources(s: State, key: IntentKey, other: IntentKey)
    requires LogBelow(s) && other != key
    ensures SourcesKept(s, Complete(s, key).state, key, other)
  {
    hide SourceCommits, Bind, Dispatch, Append, Acknowledge;
    BindSources(s, key, other);
    var s1 := Bind(s, key).state;
    DispatchSources(s1, key, other);
    var s2 := Dispatch(s1, key).state;
    AppendSources(s2, key, other);
    var s3 := Append(s2, key).state;
    AcknowledgeSources(s3, key, other);
  }

  /** What the opening finds in the store of the run. */
  lemma SharedFacts(identity: RequestIdentity, cursor: DeployJob)
    requires Admissible(identity, cursor)
    ensures var s, t := Waiting2(identity, cursor), Shared(identity, cursor);
            && s.history.owners[1] == SECOND && Unacknowledged(s.intents[SECOND])
            && BeginPhase(s, 1, Building, 1, cursor, TakenPhase(identity)).Done?
            && t.intents == map[FIRST := IntentFor(identity, 1, 0, Some(1), Acknowledged),
                                SECOND := IntentFor(identity, 2, 1, None, Pending), THIRD := PhaseIntent(identity)]
            && t.outbox.Keys == {OutboxKey(1, 1)} && t.outbox[OutboxKey(1, 1)].delivery == Delivered
            && 1 !in t.events && 2 in t.records && LogBelow(t)
            && SourceCommits(t.log, SECOND) == {6} && SourceCommits(t.log, THIRD) == {7}
  {
    hide FreshJob, BeginPhase, SourceCommits, FirstEvent, Waiting2;
    var s := Waiting2(identity, cursor);
    WaitingFacts(identity, cursor);
    PhaseAccepted(s, identity, cursor);
    PreludeSources(s.log);
    assert s.intents[THIRD := PhaseIntent(identity)]
        == map[FIRST := IntentFor(identity, 1, 0, Some(1), Acknowledged),
               SECOND := IntentFor(identity, 2, 1, None, Pending), THIRD := PhaseIntent(identity)];
  }

  ghost predicate WaitsForSecond(s: State, identity: RequestIdentity) {
    && s.history.owners.Keys == {0, 1} && s.history.owners[1] == SECOND && s.sequence == 6
    && s.intents == map[FIRST := IntentFor(identity, 1, 0, Some(1), Acknowledged),
                        SECOND := IntentFor(identity, 2, 1, None, Pending)]
    && s.outbox.Keys == {OutboxKey(1, 1)} && s.outbox[OutboxKey(1, 1)].delivery == Delivered
    && s.records.Keys == {1, 2} && s.records[1] == RecordOf(identity, 1, Some(1)) && 1 in s.jobs
    && 1 !in s.events
  }

  lemma WaitingFacts(identity: RequestIdentity, cursor: DeployJob)
    ensures WaitsForSecond(Waiting2(identity, cursor), identity)
    ensures var log := Waiting2(identity, cursor).log;
            && log.Keys == {1, 2, 3, 4, 5, 6} && log[6] == {AllocationRow, RecordRow(2), JobRow(2), IntentRow(SECOND)}
            && (forall c :: 1 <= c <= 5 ==> c in log && RecordRow(2) !in log[c] && IntentRow(THIRD) !in log[c])
  {
    WaitingRows(identity, cursor);
    WaitingLog(identity, cursor);
  }

  lemma WaitingRows(identity: RequestIdentity, cursor: DeployJob)
    ensures WaitsForSecond(Waiting2(identity, cursor), identity)
  {
    hide FirstEvent;
  }

  lemma WaitingLog(identity: RequestIdentity, cursor: DeployJob)
    ensures var log := Waiting2(identity, cursor).log;
            && log.Keys == {1, 2, 3, 4, 5, 6} && log[6] == {AllocationRow, RecordRow(2), JobRow(2), IntentRow(SECOND)}
            && (forall c :: 1 <= c <= 5 ==> c in log && RecordRow(2) !in log[c] && IntentRow(THIRD) !in log[c])
  {
    hide FirstEvent, IntentFor, RecordOf;
    var log := Waiting2(identity, cursor).log;
    forall c | 1 <= c <= 5 ensures c in log && RecordRow(2) !in log[c] && IntentRow(THIRD) !in log[c] {
      assert c == 1 || c == 2 || c == 3 || c == 4 || c == 5;
    }
  }

  /** In the log of the run, each pending transition is named with its record by its own commit alone. */
  lemma PreludeSources(log: map<nat, set<RowName>>)
    requires log.Keys == {1, 2, 3, 4, 5, 6} && log[6] == {AllocationRow, RecordRow(2), JobRow(2), IntentRow(SECOND)}
    requires forall c :: 1 <= c <= 5 ==> c in log && RecordRow(2) !in log[c] && IntentRow(THIRD) !in log[c]
    ensures var now := log[7 := {RecordRow(1), JobRow(1), IntentRow(THIRD)}];
            SourceCommits(now, SECOND) == {6} && SourceCommits(now, THIRD) == {7}
  {
  }

  /**
    From a fresh store: one deployment admitted and delivered, another admitted
    and pending, and then a phase of the first at the second's position, which is
    accepted because the position is still empty. The next opening is refused.
  */
  lemma SharedPositionStrands(identity: RequestIdentity, cursor: DeployJob)
    requires Admissible(identity, cursor)
    ensures var phase := Advance(1, Building, 1, cursor, TakenPhase(identity));
            var before := Run(EMPTY, Prelude(identity, cursor));
            var s := Run(EMPTY, Prelude(identity, cursor) + [phase]);
            && DisciplinedRun(EMPTY, Prelude(identity, cursor))
            && Attempt(before, phase).Done?
            && 1 in before.history.owners && before.history.owners[1] == SECOND
            && Lists([FIRST, SECOND, THIRD], s)
            && Open(s, [FIRST, SECOND, THIRD]).Refused? && Open(s, [FIRST, SECOND, THIRD]).error == JournalMismatch
  {
    hide Run, DisciplinedRun, FreshJob, BeginPhase, Open, Lists;
    var phase := Advance(1, Building, 1, cursor, TakenPhase(identity));
    PreludeRuns(identity, cursor);
    SharedFacts(identity, cursor);
    RunOn(EMPTY, Prelude(identity, cursor), phase);
    SharedOpen(Shared(identity, cursor), identity);
  }

  lemma {:induction false} RunOn(s: State, steps: seq<Step>, step: Step)
    ensures Run(s, steps + [step]) == Attempt(Run(s, steps), step).state
    decreases |steps|
  {
    hide Attempt;
    if steps == [] {
      assert steps + [step] == [step] && [step][1..] == [];
      assert Run(Attempt(s, step).state, []) == Attempt(s, step).state;
    } else {
      assert (steps + [step])[1..] == steps[1..] + [step] && (steps + [step])[0] == steps[0];
      RunOn(Attempt(s, steps[0]).state, steps[1..], step);
    }
  }

  lemma ThirdMeetsSecond(t: State, identity: RequestIdentity)
    requires t.intents == map[FIRST := IntentFor(identity, 1, 0, Some(1), Acknowledged),
                              SECOND := IntentFor(identity, 2, 1, None, Pending), THIRD := PhaseIntent(identity)]
    requires t.outbox.Keys == {OutboxKey(1, 1)} && 1 !in t.events && 2 in t.records && LogBelow(t)
    requires SourceCommits(t.log, SECOND) == {6} && SourceCommits(t.log, THIRD) == {7}
    ensures Complete(t, SECOND).Done?
    ensures Complete(Complete(t, SECOND).state, THIRD).Refused?
    ensures Complete(Complete(t, SECOND).state, THIRD).error == JournalMismatch
  {
    hide Complete, SourceCommits;
    SecondDelivered(t, identity);
    CompleteSources(t, SECOND, THIRD);
    CompleteApart(t, SECOND);
    CompleteJournal(t, SECOND);
    ThirdRefused(Complete(t, SECOND).state, identity);
  }

  lemma SharedOpen(t: State, identity: RequestIdentity)
    requires t.intents == map[FIRST := IntentFor(identity, 1, 0, Some(1), Acknowledged),
                              SECOND := IntentFor(identity, 2, 1, None, Pending), THIRD := PhaseIntent(identity)]
    requires t.outbox.Keys == {OutboxKey(1, 1)} && t.outbox[OutboxKey(1, 1)].delivery == Delivered
    requires 1 !in t.events && 2 in t.records && LogBelow(t)
    requires SourceCommits(t.log, SECOND) == {6} && SourceCommits(t.log, THIRD) == {7}
    ensures Lists([FIRST, SECOND, THIRD], t)
    ensures Open(t, [FIRST, SECOND, THIRD]).Refused? && Open(t, [FIRST, SECOND, THIRD]).error == JournalMismatch
  {
    hide Complete, SourceCommits;
    assert Requeue(t) == t;
    ThirdMeetsSecond(t, identity);
    var u := Complete(t, SECOND).state;
    assert [FIRST, SECOND, THIRD][1..] == [SECOND, THIRD] && [SECOND, THIRD][1..] == [THIRD];
    assert CompleteAll(u, t.intents, [THIRD]) == Complete(u, THIRD);
    assert CompleteAll(t, t.intents, [SECOND, THIRD]) == CompleteAll(u, t.intents, [THIRD]);
    assert CompleteAll(t, t.intents, [FIRST, SECOND, THIRD]) == CompleteAll(t, t.intents, [SECOND, THIRD]);
  }
}
