/** What the journal, the deliveries, the transitions and the records of every reachable store say of each other. */
module StorePayloads {
  import opened Options
  import opened StoreModel
  import opened StoreInvariant
  import opened StorePreservation
  import opened StoreEffects

  /** A transition names its deployment's generation, cluster and node, and its phase tells its terminal. */
  ghost predicate Faithful(key: IntentKey, intent: Intent, records: map<nat, DeploymentRecord>) {
    key.deployment in records && Names(intent, records[key.deployment]) && Tells(intent.phase, intent.terminal)
  }

  ghost predicate Telling(s: State) {
    && (forall key :: key in s.intents ==> Faithful(key, s.intents[key], s.records))
    && (forall d :: d in s.records ==> Tells(s.records[d].lifecycle, s.records[d].terminal))
  }

  /** The record is the same deployment of the same place. */
  ghost predicate SamePlace(record: DeploymentRecord, record': DeploymentRecord) {
    && record'.generation == record.generation && record'.identity.environment == record.identity.environment
    && record'.identity.cluster == record.identity.cluster && record'.identity.node == record.identity.node
  }

  ghost predicate PlacesKept(s: State, s': State) {
    forall d :: d in s.records ==> d in s'.records && SamePlace(s.records[d], s'.records[d])
  }

  // ---- one step ----------------------------------------------------------

  /** One record written, of the same place or new, with one transition begun or moved. */
  lemma OneRecordTells(s: State, s': State, d: nat)
    requires Telling(s) && s'.records - {d} == s.records - {d}
    requires d in s.records ==> d in s'.records && SamePlace(s.records[d], s'.records[d])
    requires d in s'.records ==> Tells(s'.records[d].lifecycle, s'.records[d].terminal)
    ensures PlacesKept(s, s')
    ensures forall e :: e in s'.records ==> Tells(s'.records[e].lifecycle, s'.records[e].terminal)
    ensures forall key :: key in s.intents ==> Faithful(key, s.intents[key], s'.records)
  {
    forall e | e in s.records ensures e in s'.records && SamePlace(s.records[e], s'.records[e]) {
      if e != d { assert e in s.records - {d}; }
    }
    forall e | e in s'.records ensures Tells(s'.records[e].lifecycle, s'.records[e].terminal) {
      if e != d { assert e in s'.records - {d}; }
    }
  }

  /** One transition begun or moved, about what its record says. */
  lemma OneIntentTells(s: State, s': State, key: IntentKey)
    requires forall other :: other in s.intents ==> Faithful(other, s.intents[other], s'.records)
    requires s'.intents - {key} == s.intents - {key}
    requires key in s'.intents ==> Faithful(key, s'.intents[key], s'.records)
    ensures forall other :: other in s'.intents ==> Faithful(other, s'.intents[other], s'.records)
  {
    hide Faithful;
    forall other | other in s'.intents ensures Faithful(other, s'.intents[other], s'.records) {
      if other != key { assert other in s'.intents - {key}; }
    }
  }

  lemma BegunTells(s: State, s': State, key: IntentKey, phase: DeploymentPhase, position: nat, revision: Option<string>,
                   terminal: Option<DeploymentTerminal>)
    requires Telling(s) && Begins(s, s', key, phase, position, revision, terminal) && Tells(phase, terminal)
    requires s'.records - {key.deployment} == s.records - {key.deployment}
    requires key.deployment in s.records ==> SamePlace(s.records[key.deployment], s'.records[key.deployment])
    requires Tells(s'.records[key.deployment].lifecycle, s'.records[key.deployment].terminal)
    ensures Telling(s') && PlacesKept(s, s')
  {
    hide Tells, SamePlace;
    OneRecordTells(s, s', key.deployment);
    assert key !in s.intents && s.intents - {key} == s.intents;
    OneIntentTells(s, s', key);
  }

  lemma MovedTells(s: State, s': State, key: IntentKey, marker: Option<nat>, state: IntentState)
    requires Telling(s) && Moves(s, s', key, marker, state)
    requires s'.records - {key.deployment} == s.records - {key.deployment}
    requires key.deployment in s.records ==>
               key.deployment in s'.records && SamePlace(s.records[key.deployment], s'.records[key.deployment])
               && s'.records[key.deployment].lifecycle == s.records[key.deployment].lifecycle
               && s'.records[key.deployment].terminal == s.records[key.deployment].terminal
    ensures Telling(s') && PlacesKept(s, s')
  {
    assert Faithful(key, s.intents[key], s.records);
    OneRecordTells(s, s', key.deployment);
    OneIntentTells(s, s', key);
  }

  lemma TransitionTells(s: State, s': State, step: Step)
    requires Telling(s) && IsTransition(step) && Left(s, s', step) && Disciplined(s, step)
    ensures Telling(s') && PlacesKept(s, s')
  {
    hide Above, OrdinalsOf, Begins, Telling, PlacesKept, Moves, Carries, Logs;
    match step
    case Admit(identity, _) =>
      var d := s.allocation.nextDeployment;
      BegunTells(s, s', IntentKey(d, 0), Submitted, s.allocation.nextPosition, identity.revision, None);
    case Reject(identity, terminal) =>
      var d := s.allocation.nextDeployment;
      BegunTells(s, s', IntentKey(d, 0), s'.records[d].lifecycle, s.allocation.nextPosition, identity.revision, Some(terminal));
    case Terminate(d, terminal) =>
      BegunTells(s, s', IntentKey(d, Above(OrdinalsOf(s.intents, d))), s'.records[d].lifecycle, s.allocation.nextPosition,
                 s'.records[d].identity.revision, Some(terminal));
    case Advance(d, _, _, _, event) =>
      BegunTells(s, s', IntentKey(d, Above(OrdinalsOf(s.intents, d))), event.phase, event.position, event.revision, None);
    case BindStep(key) =>
      if s' == s { PlacesSame(s, s'); }
      else {
        var marker :| BoundAt(s, s', key, marker);
        MovedTells(s, s', key, Some(marker), Bound);
      }
    case DispatchStep(_) => PlacesSame(s, s');
    case AppendStep(key) => MovedTells(s, s', key, s.intents[key].marker, Appended);
    case AcknowledgeStep(key) => MovedTells(s, s', key, s.intents[key].marker, Acknowledged);
  }

  lemma PlacesSame(s: State, s': State)
    requires Telling(s) && s'.intents == s.intents && s'.records == s.records
    ensures Telling(s') && PlacesKept(s, s')
  {
  }

  lemma OtherTells(s: State, s': State, step: Step)
    requires Telling(s) && !IsTransition(step) && Left(s, s', step)
    ensures Telling(s') && PlacesKept(s, s')
  {
    hide Telling, PlacesKept, Logs, LiveLeft, RootsLeft, RowsRequeued, OthersKept;
    match step
    case ReviseStep(d, _) => RevisedTells(s, s', d);
    case ResolveStep(d, _, _, _) => RevisedTells(s, s', d);
    case _ => PlacesSame(s, s');
  }

  lemma RevisedTells(s: State, s': State, d: nat)
    requires Telling(s) && s'.intents == s.intents && OthersKept(s, s', d) && d in s.records && d in s'.records
    requires s'.records[d].identity.revision.Some?
    requires Revised(s.records[d], s'.records[d], s'.records[d].identity.revision.value)
    ensures Telling(s') && PlacesKept(s, s')
  {
    OneRecordTells(s, s', d);
  }

  lemma StepTells(s: State, step: Step)
    requires Inv(s) && Telling(s) && Disciplined(s, step)
    ensures Telling(Attempt(s, step).state) && PlacesKept(s, Attempt(s, step).state)
  {
    hide Inv, Telling, Left, Attempt, Disciplined, PlacesKept;
    StepLeaves(s, step);
    if Attempt(s, step).Refused? { PlacesSame(s, s); }
    else if IsTransition(step) { TransitionTells(s, Attempt(s, step).state, step); }
    else { OtherTells(s, Attempt(s, step).state, step); }
  }

  // ---- every reachable store ---------------------------------------------

  lemma {:induction false} RunTells(s: State, steps: seq<Step>)
    requires Inv(s) && Telling(s) && DisciplinedRun(s, steps)
    ensures Telling(Run(s, steps)) && PlacesKept(s, Run(s, steps))
    decreases |steps|
  {
    hide Inv, Telling, Attempt, Disciplined;
    if steps != [] {
      StepKeeps(s, steps[0]);
      StepTells(s, steps[0]);
      RunTells(Attempt(s, steps[0]).state, steps[1..]);
    }
  }

  /** Some transition was bound at the event's marker and has each of its fields, and its record's place and generation. */
  ghost predicate Told(s: State, event: PhaseEvent) {
    exists key :: ToldBy(s, event, key)
  }

  ghost predicate ToldBy(s: State, event: PhaseEvent, key: IntentKey) {
    && key in s.intents && s.intents[key].marker.Some? && Carries(event, key, s.intents[key], s.intents[key].marker.value)
    && event.deployment in s.records
    && event.generation == s.records[event.deployment].generation
    && event.cluster == s.records[event.deployment].identity.cluster
    && event.node == s.records[event.deployment].identity.node
    && Tells(event.phase, event.terminal)
  }

  /**
    In every reachable store, each journalled event and each delivery has,
    field by field, what the transition bound at its marker has: deployment,
    generation, cluster, node, phase, position, revision and terminal. Its
    generation, cluster and node are those of the deployment's record, and its
    phase tells its terminal. The event lies at its own position and the
    delivery under its own key.
  */
  lemma EverythingIsTold(history: seq<Step>)
    requires DisciplinedRun(EMPTY, history)
    ensures var s := Run(EMPTY, history);
            && (forall p :: p in s.events && s.events[p].Deployment? ==>
                  Told(s, s.events[p].event) && s.events[p].event.position == p)
            && (forall o :: o in s.outbox ==>
                  Told(s, s.outbox[o].event) && s.outbox[o].event.deployment == o.deployment
                  && s.outbox[o].event.marker == o.marker)
            && Telling(s)
  {
    hide Inv, Telling, Run, DisciplinedRun, Told;
    EmptyTells();
    RunTells(EMPTY, history);
    ReachableHolds(history);
    SoundIsTold(Run(EMPTY, history));
  }

  lemma EmptyTells()
    ensures Inv(EMPTY) && Telling(EMPTY)
  {
  }

  lemma SoundIsTold(s: State)
    requires Inv(s) && Telling(s)
    ensures forall p :: p in s.events && s.events[p].Deployment? ==>
              Told(s, s.events[p].event) && s.events[p].event.position == p
    ensures forall o :: o in s.outbox ==>
              Told(s, s.outbox[o].event) && s.outbox[o].event.deployment == o.deployment
              && s.outbox[o].event.marker == o.marker
  {
    hide Told, Inv, EventOf;
    forall p | p in s.events && s.events[p].Deployment?
      ensures Told(s, s.events[p].event) && s.events[p].event.position == p
    {
      EntryTold(s, p);
    }
    forall o | o in s.outbox
      ensures Told(s, s.outbox[o].event) && s.outbox[o].event.deployment == o.deployment
      ensures s.outbox[o].event.marker == o.marker
    {
      DeliveryTold(s, o);
    }
  }

  lemma EntryTold(s: State, p: nat)
    requires Inv(s) && Telling(s) && p in s.events && s.events[p].Deployment?
    ensures Told(s, s.events[p].event) && s.events[p].event.position == p
  {
    hide Sequenced, Born, Marked, Logged, Carried, Awaited, Covered, Ending, BelowHighWater, OneCurrent, CanonicalRows;
    var key := s.history.owners[p];
    assert Holds(s.events[p], key, s.intents);
    EventCarries(key, s.intents[key]);
    assert ToldBy(s, s.events[p].event, key);
  }

  lemma DeliveryTold(s: State, o: OutboxKey)
    requires Inv(s) && Telling(s) && o in s.outbox
    ensures Told(s, s.outbox[o].event) && s.outbox[o].event.deployment == o.deployment
    ensures s.outbox[o].event.marker == o.marker
  {
    hide Sequenced, Logged, Positioned, Awaited, Covered, Ending, BelowHighWater, OneCurrent, CanonicalRows;
    assert CarriedAt(s.intents, s.history.origins, o, s.outbox[o]);
    var key := s.history.origins[o.marker];
    EventCarries(key, s.intents[key]);
    assert ToldBy(s, s.outbox[o].event, key);
  }
}
