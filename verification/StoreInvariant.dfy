/**
  What every reachable store satisfies, one predicate for each group of tables,
  and the proof that each single step keeps it.
*/
module StoreInvariant {
  import opened Options
  import opened StoreModel

  /** The ordinals of a deployment are 0..n-1 and only the last may be unacknowledged. */
  ghost predicate Sequenced(intents: map<IntentKey, Intent>, deployments: set<nat>, counts: map<nat, nat>) {
    && deployments == counts.Keys
    && (forall d :: d in counts ==> 1 <= counts[d])
    && (forall key :: key in intents <==> key.deployment in counts && key.ordinal < counts[key.deployment])
    && (forall key :: key in intents && Unacknowledged(intents[key]) ==> key.ordinal + 1 == counts[key.deployment])
  }

  predicate Precedes(key: IntentKey, later: IntentKey) {
    key.deployment == later.deployment && key.ordinal < later.ordinal
  }

  /** Every intent has its own creating commit, later for a later ordinal. */
  ghost predicate Born(keys: set<IntentKey>, births: map<IntentKey, nat>, origins: map<nat, IntentKey>, sequence: nat) {
    && births.Keys == keys
    && (forall key :: key in births ==>
          births[key] <= sequence && births[key] in origins && origins[births[key]] == key)
    && (forall m :: m in origins ==> origins[m] in births && births[origins[m]] == m)
    && (forall key, later :: key in births && later in births && Precedes(key, later) ==>
          births[key] < births[later])
  }

  /** A bound marker is the creating commit. */
  ghost predicate Marked(intents: map<IntentKey, Intent>, births: map<IntentKey, nat>) {
    forall key :: key in intents ==> key in births && MarkedAt(intents[key], births[key])
  }

  predicate MarkedAt(intent: Intent, birth: nat) {
    && (intent.state == Pending <==> !IsBound(intent))
    && (IsBound(intent) ==> intent.marker.value == birth)
  }

  /** Only its creating commit names an intent that is not yet bound. */
  ghost predicate Logged(intents: map<IntentKey, Intent>, births: map<IntentKey, nat>,
                         log: map<nat, set<RowName>>, sequence: nat) {
    && (forall c :: c in log ==> c <= sequence)
    && (forall c, key :: c in log && IntentRow(key) in log[c] ==>
          key in intents && key in births && births[key] <= c && (!IsBound(intents[key]) ==> c == births[key]))
    && (forall key :: key in births && births[key] in log ==> CreatesIntent(log[births[key]], key))
  }

  /** A position given to an intent holds nothing or exactly that intent's event. */
  ghost predicate Positioned(intents: map<IntentKey, Intent>, owners: map<nat, IntentKey>, reserved: set<nat>,
                             events: map<nat, LoggedEvent>, nextPosition: nat) {
    && (forall key :: key in intents ==>
          intents[key].position in owners && owners[intents[key].position] == key)
    && (forall p :: p in owners ==>
          owners[p] in intents && intents[owners[p]].position == p && p < nextPosition && p !in reserved)
    && (forall p :: p in reserved ==> p < nextPosition && p !in events)
    && (forall p :: p in events ==>
          p < nextPosition && (events[p].Deployment? <==> p in owners)
          && (p in owners ==> Holds(events[p], owners[p], intents)))
  }

  ghost predicate Holds(entry: LoggedEvent, key: IntentKey, intents: map<IntentKey, Intent>) {
    && key in intents && IsBound(intents[key])
    && (intents[key].state == Appended || intents[key].state == Acknowledged)
    && entry == Deployment(EventOf(key, intents[key]))
  }

  /** A delivery row carries the event of its bound intent, and is acknowledged together with it. */
  ghost predicate Carried(intents: map<IntentKey, Intent>, origins: map<nat, IntentKey>,
                          outbox: map<OutboxKey, OutboxRow>) {
    forall o :: o in outbox ==> CarriedAt(intents, origins, o, outbox[o])
  }

  ghost predicate CarriedAt(intents: map<IntentKey, Intent>, origins: map<nat, IntentKey>, o: OutboxKey, row: OutboxRow) {
    && o.marker in origins && origins[o.marker] in intents
    && var key := origins[o.marker];
       key.deployment == o.deployment && IsBound(intents[key])
       && row.event == EventOf(key, intents[key])
       && (row.delivery == Delivered <==> intents[key].state == Acknowledged)
  }

  /** A bound intent not yet acknowledged still has its delivery row. */
  ghost predicate Awaited(intents: map<IntentKey, Intent>, outbox: map<OutboxKey, OutboxRow>) {
    forall key :: key in intents && IsBound(intents[key]) && Unacknowledged(intents[key]) ==>
      DeliveryKey(key, intents[key]) in outbox
  }

  /** Every journalled deployment event has a delivery row. */
  ghost predicate Covered(events: map<nat, LoggedEvent>, outbox: map<OutboxKey, OutboxRow>) {
    forall p :: p in events && events[p].Deployment? ==> KeyOf(events[p].event) in outbox
  }

  /** The last transition of a deployment, where `counts` gives their number. */
  function LastOf(counts: map<nat, nat>, d: nat): IntentKey
    requires d in counts && 1 <= counts[d]
  {
    IntentKey(d, counts[d] - 1)
  }

  /** Record, last intent and job agree about whether and how a deployment ended. */
  ghost predicate Ending(intents: map<IntentKey, Intent>, records: map<nat, DeploymentRecord>,
                         jobs: set<nat>, counts: map<nat, nat>) {
    && jobs <= records.Keys
    && (forall d :: d in records ==>
          d in counts && 1 <= counts[d] && LastOf(counts, d) in intents
          && AgreesWithLast(records[d], intents[LastOf(counts, d)], d in jobs))
    && (forall key :: key in intents && intents[key].terminal.Some? ==>
          key.deployment in counts && key.ordinal + 1 == counts[key.deployment])
    && (forall key :: key in intents && key.deployment in records ==>
          intents[key].generation == records[key.deployment].generation)
    && (forall key :: key in intents && key.deployment in records && BoundAdmission(key, intents[key]) ==>
          records[key.deployment].admissionMarker.Some?)
  }

  predicate BoundAdmission(key: IntentKey, intent: Intent) {
    key.ordinal == 0 && intent.phase == Submitted && IsBound(intent)
  }

  ghost predicate AgreesWithLast(record: DeploymentRecord, last: Intent, hasJob: bool) {
    && record.lifecycle == last.phase
    && record.terminal == last.terminal
    && (record.terminal.Some? ==> record.lifecycle == LifecycleOf(record.terminal.value))
    && (record.terminal.None? ==> !TerminalLifecycle(record.lifecycle))
    && record.terminalMarker == (if last.terminal.Some? then last.marker else None)
    && (last.phase == Submitted && IsBound(last) ==> record.admissionMarker == last.marker)
    && (record.terminal.Some? && last.state == Acknowledged ==> !hasJob)
  }

  /** Every identifier in use lies below the high-water row. */
  ghost predicate BelowHighWater(records: map<nat, DeploymentRecord>, jobs: map<nat, DeployJob>,
                                 live: map<nat, LiveGeneration>, roots: map<nat, GcRoot>, allocation: Allocation) {
    && (forall d :: d in records ==> d < allocation.nextDeployment && records[d].generation < allocation.nextGeneration)
    && (forall d :: d in jobs ==> d in records && jobs[d].generation == records[d].generation)
    && (forall g :: g in live ==> g < allocation.nextGeneration && live[g].deployment < allocation.nextDeployment)
    && (forall g :: g in roots ==> g < allocation.nextGeneration)
  }

  /** At most one current generation for each cluster, node and environment. */
  ghost predicate OneCurrent(live: map<nat, LiveGeneration>) {
    forall g, h :: g in live && h in live && Supersedes(live[g], live[h]) ==> g == h
  }

  /** Every closure the store holds is a canonical store item. */
  ghost predicate CanonicalRows(jobs: map<nat, DeployJob>, live: map<nat, LiveGeneration>, roots: map<nat, GcRoot>) {
    && (forall d :: d in jobs ==> FreshJob(jobs[d]))
    && (forall g :: g in live ==> CanonicalClosure(live[g].closure))
    && (forall g :: g in roots ==> CanonicalClosure(roots[g].closure))
  }

  ghost predicate Inv(s: State) {
    && Sequenced(s.intents, s.records.Keys, s.history.counts)
    && Born(s.intents.Keys, s.history.births, s.history.origins, s.sequence)
    && Marked(s.intents, s.history.births)
    && Logged(s.intents, s.history.births, s.log, s.sequence)
    && Positioned(s.intents, s.history.owners, s.history.reserved, s.events, s.allocation.nextPosition)
    && Carried(s.intents, s.history.origins, s.outbox)
    && Awaited(s.intents, s.outbox)
    && Covered(s.events, s.outbox)
    && Ending(s.intents, s.records, s.jobs.Keys, s.history.counts)
    && BelowHighWater(s.records, s.jobs, s.live, s.roots, s.allocation)
    && OneCurrent(s.live)
    && CanonicalRows(s.jobs, s.live, s.roots)
  }

  // ---- one step of one caller --------------------------------------------

  datatype Step =
    | Admit(identity: RequestIdentity, job: DeployJob)
    | Reject(identity: RequestIdentity, terminal: DeploymentTerminal)
    | Terminate(deployment: nat, terminal: DeploymentTerminal)
    | Advance(deployment: nat, lifecycle: DeploymentPhase, jobDeployment: nat, job: DeployJob, event: PhaseEvent)
    | BindStep(key: IntentKey)
    | DispatchStep(key: IntentKey)
    | AppendStep(key: IntentKey)
    | AcknowledgeStep(key: IntentKey)
    | Reserve
    | AppendOther(position: nat, entry: LoggedEvent)
    | ContainerStep(containerPosition: nat, container: ContainerRecord, position: nat, entry: LoggedEvent)
    | CompactStep(retention: nat)
    | TruncateStep(kept: set<nat>)
    | ReviseStep(deployment: nat, revision: string)
    | ResolveStep(deployment: nat, revision: string, jobDeployment: nat, job: DeployJob)
    | UpsertStep(deployment: nat, job: DeployJob)
    | RetractStep(deployment: nat)
    | ActivateStep(identifier: nat, generation: LiveGeneration, rootIdentifier: nat, root: GcRoot)
    | MutateRootStep(identifier: nat, root: GcRoot)
    | RetractRootStep(identifier: nat)
    | RequeueStep
    | ReconcileStep

  ghost function Attempt(s: State, step: Step): Outcome {
    match step
    case Admit(identity, job) => BeginAdmission(s, identity, job)
    case Reject(identity, terminal) => BeginRejection(s, identity, terminal)
    case Terminate(d, terminal) => BeginTerminal(s, d, terminal)
    case Advance(d, lifecycle, jd, job, event) => BeginPhase(s, d, lifecycle, jd, job, event)
    case BindStep(key) => Bind(s, key)
    case DispatchStep(key) => Dispatch(s, key)
    case AppendStep(key) => Append(s, key)
    case AcknowledgeStep(key) => Acknowledge(s, key)
    case Reserve => AllocatePosition(s)
    case AppendOther(p, entry) => AppendEntry(s, p, entry)
    case ContainerStep(cp, container, p, entry) => RecordContainer(s, cp, container, p, entry)
    case CompactStep(retention) => Compact(s, retention)
    case TruncateStep(kept) => Done(TruncateLog(s, kept))
    case ReviseStep(d, revision) => SetRevision(s, d, revision)
    case ResolveStep(d, revision, jd, job) => RecordResolvedSource(s, d, revision, jd, job)
    case UpsertStep(d, job) => UpsertJob(s, d, job)
    case RetractStep(d) => RetractJob(s, d)
    case ActivateStep(g, generation, r, root) => RecordActivation(s, g, generation, r, root)
    case MutateRootStep(g, root) => MutateRoot(s, g, root)
    case RetractRootStep(g) => RetractRoot(s, g)
    case RequeueStep => Done(Requeue(s))
    case ReconcileStep => ReconcileOutbox(s)
  }

  /** A restart cursor written for an existing deployment names that deployment's generation. */
  predicate CursorNames(s: State, d: nat, job: DeployJob) {
    d in s.records ==> job.generation == s.records[d].generation
  }

  /** A position the allocator has issued and no transition was given. */
  predicate Unused(s: State, p: nat) {
    p < s.allocation.nextPosition && p !in s.history.owners
  }

  /**
    What callers of the store are relied upon for, because the store does not
    check it: phase events and container events use an issued position that no
    transition was given, an event's phase agrees with the lifecycle passed with it, a job row is not
    written for a deployment that is terminal or unknown, an activation names
    one generation, and only an intent not yet acknowledged is appended.
  */
  ghost predicate Disciplined(s: State, step: Step) {
    match step
    case Advance(d, lifecycle, _, job, event) =>
      event.phase == lifecycle && Unused(s, event.position) && CursorNames(s, d, job)
    case AppendOther(p, _) => p !in s.history.owners
    case ContainerStep(_, _, p, entry) => entry.Container? && Unused(s, p)
    case ResolveStep(d, _, _, job) => CursorNames(s, d, job)
    case UpsertStep(d, job) => d in s.records && s.records[d].terminal.None? && CursorNames(s, d, job)
    case ActivateStep(g, _, r, _) => g == r
    case AppendStep(key) => key in s.intents ==> Unacknowledged(s.intents[key])
    case _ => true
  }
}
