/**
  The rows of the durable Lojix store and one pure function for each locked
  method of the store. A method either commits once, which changes every row it
  names and appends one entry to the versioned commit log, or refuses and
  changes nothing.

  A table is a map from the stored key to the rest of the row. Engine faults
  are modelled as `RowConflict`: an assertion of a present key, or a mutation
  or retraction of an absent one, refuses the whole commit.
*/
module StoreModel {
  import opened Options
  import opened StorePaths

  const MAX_U64: nat := 0xFFFF_FFFF_FFFF_FFFF

  datatype DeploymentTerminal =
    | Succeeded
    | Rejected(reason: string)
    | Failed(failure: string)

  datatype DeploymentPhase =
    | Submitted | Building | Built | Copying | Activating | Activated
    | Completed | RejectedPhase | FailedPhase

  datatype DeployJobPhase =
    | JobSubmitted | JobBuilding | JobBuilt | JobCopying | JobActivating
    | JobActivated | JobFailed

  datatype ResumeStage = BeforeActivation | ActivationRecorded | FinishDeployment

  datatype GenerationSlot = Current | BootPending | Rollback | Pinned | Recent

  datatype RequestIdentity = RequestIdentity(
    environment: string, cluster: string, node: string, revision: Option<string>)

  /** `lifecycle` uses the nine names the source shares between lifecycles and phases. */
  datatype DeploymentRecord = DeploymentRecord(
    generation: nat,
    identity: RequestIdentity,
    admissionMarker: Option<nat>,
    lifecycle: DeploymentPhase,
    terminalMarker: Option<nat>,
    terminal: Option<DeploymentTerminal>)

  datatype DeployJob = DeployJob(
    generation: nat, cluster: string, node: string,
    phase: DeployJobPhase, closure: Option<string>, stage: ResumeStage)

  datatype IntentState = Pending | Bound | Appended | Acknowledged

  datatype IntentKey = IntentKey(deployment: nat, ordinal: nat)

  datatype Intent = Intent(
    generation: nat, cluster: string, node: string,
    phase: DeploymentPhase, position: nat, revision: Option<string>,
    terminal: Option<DeploymentTerminal>,
    marker: Option<nat>, state: IntentState)

  datatype PhaseEvent = PhaseEvent(
    deployment: nat, generation: nat, cluster: string, node: string,
    phase: DeploymentPhase, position: nat, marker: nat,
    revision: Option<string>, terminal: Option<DeploymentTerminal>)

  datatype Delivery = Undelivered | Dispatched | Delivered

  datatype OutboxKey = OutboxKey(deployment: nat, marker: nat)

  datatype OutboxRow = OutboxRow(event: PhaseEvent, delivery: Delivery, retries: nat)

  datatype LoggedEvent =
    | Deployment(event: PhaseEvent)
    | CacheRetention(description: string)
    | Container(container: ContainerRecord)

  datatype ContainerRecord = ContainerRecord(cluster: string, node: string, name: string, state: string)

  datatype LiveGeneration = LiveGeneration(
    deployment: nat, cluster: string, node: string, environment: string,
    slot: GenerationSlot, closure: string)

  datatype GcRoot = GcRoot(
    cluster: string, node: string, slot: GenerationSlot, closure: string, pin: Option<string>)

  datatype Allocation = Allocation(nextDeployment: nat, nextGeneration: nat, nextPosition: nat)

  /** One operation of a logged commit: the table and the stored key. */
  datatype RowName =
    | IntentRow(intent: IntentKey)
    | RecordRow(deployment: nat)
    | JobRow(deployment: nat)
    | OutboxRowName(outbox: OutboxKey)
    | EventRow(position: nat)
    | ContainerRow(position: nat)
    | LiveRow(generation: nat)
    | RootRow(generation: nat)
    | AllocationRow

  /**
    What the store has done, kept only so that properties of whole runs can be
    stated; no operation branches on it.

    `births` names the commit that created each intent and `origins` is its
    inverse; `owners` names the intent a journal position was given to;
    `reserved` holds positions issued to a caller and not used yet; `counts` is
    the number of transitions of each deployment.
  */
  datatype History = History(
    births: map<IntentKey, nat>,
    origins: map<nat, IntentKey>,
    owners: map<nat, IntentKey>,
    reserved: set<nat>,
    counts: map<nat, nat>)

  datatype State = State(
    intents: map<IntentKey, Intent>,
    outbox: map<OutboxKey, OutboxRow>,
    events: map<nat, LoggedEvent>,
    containers: map<nat, ContainerRecord>,
    records: map<nat, DeploymentRecord>,
    jobs: map<nat, DeployJob>,
    live: map<nat, LiveGeneration>,
    roots: map<nat, GcRoot>,
    allocation: Allocation,
    sequence: nat,
    log: map<nat, set<RowName>>,
    history: History)

  datatype StoreError =
    | IdentifierSpaceExhausted
    | UncanonicalClosure
    | CursorMismatch
    | RowConflict
    | MissingRecord
    | AlreadyTerminal
    | EarlierUnacknowledged
    | TerminalPhase
    | EventMismatch
    | MissingJob
    | PositionOccupied
    | MissingIntent
    | NoSourceCommit
    | ManySourceCommits
    | AlreadyBound
    | TerminalDisagrees
    | Unbound
    | MissingOutbox
    | PayloadMismatch
    | JournalMismatch
    | JournalAbsent
    | DeploymentEntryRefused

  datatype Outcome =
    | Done(state: State)
    | Refused(state: State, error: StoreError)

  const EMPTY: State := State(
    map[], map[], map[], map[], map[], map[], map[], map[],
    Allocation(1, 1, 0), 0, map[], History(map[], map[], map[], {}, map[]))

  // ---- terminals ---------------------------------------------------------

  function LifecycleOf(terminal: DeploymentTerminal): DeploymentPhase {
    match terminal
    case Succeeded => Completed
    case Rejected(_) => RejectedPhase
    case Failed(_) => FailedPhase
  }

  function JobPhaseOf(terminal: DeploymentTerminal): DeployJobPhase {
    match terminal
    case Succeeded => JobActivated
    case Rejected(_) => JobFailed
    case Failed(_) => JobFailed
  }

  predicate TerminalLifecycle(lifecycle: DeploymentPhase) {
    lifecycle in {Completed, RejectedPhase, FailedPhase}
  }

  // ---- the commit log ----------------------------------------------------

  /** One atomic commit: the next sequence, and a log entry naming its rows. */
  function Commit(s: State, touched: set<RowName>): State {
    s.(sequence := s.sequence + 1, log := s.log[s.sequence + 1 := touched])
  }

  /** Whether a logged commit names both the intent and its deployment record. */
  predicate CreatesIntent(touched: set<RowName>, key: IntentKey) {
    IntentRow(key) in touched && RecordRow(key.deployment) in touched
  }

  function SourceCommits(log: map<nat, set<RowName>>, key: IntentKey): set<nat> {
    set c | c in log && CreatesIntent(log[c], key)
  }

  // ---- events and intents ------------------------------------------------

  predicate IsBound(intent: Intent) {
    intent.marker.Some?
  }

  predicate Unacknowledged(intent: Intent) {
    intent.state != Acknowledged
  }

  function EventAt(key: IntentKey, intent: Intent, marker: nat): PhaseEvent {
    PhaseEvent(key.deployment, intent.generation, intent.cluster, intent.node, intent.phase,
               intent.position, marker, intent.revision, intent.terminal)
  }

  function EventOf(key: IntentKey, intent: Intent): PhaseEvent
    requires IsBound(intent)
  {
    EventAt(key, intent, intent.marker.value)
  }

  function KeyOf(event: PhaseEvent): OutboxKey {
    OutboxKey(event.deployment, event.marker)
  }

  /** The least number above every member. */
  ghost function Above(numbers: set<nat>): (bound: nat)
    ensures forall n :: n in numbers ==> n < bound
    ensures numbers != {} ==> bound > 0 && bound - 1 in numbers
    ensures numbers == {} ==> bound == 0
  {
    if numbers == {} then 0
    else
      var n :| n in numbers;
      assert numbers == (numbers - {n}) + {n};
      var rest := Above(numbers - {n});
      if rest <= n then n + 1 else rest
  }

  function OrdinalsOf(intents: map<IntentKey, Intent>, deployment: nat): set<nat> {
    set key | key in intents && key.deployment == deployment :: key.ordinal
  }

  ghost predicate EarlierPending(intents: map<IntentKey, Intent>, deployment: nat) {
    exists key :: key in intents && key.deployment == deployment && Unacknowledged(intents[key])
  }

  // ---- identifiers -------------------------------------------------------

  predicate CanTake(next: nat) {
    next < MAX_U64
  }

  ghost function AllocatePosition(s: State): Outcome {
    if !CanTake(s.allocation.nextPosition) then Refused(s, IdentifierSpaceExhausted)
    else
      var position := s.allocation.nextPosition;
      Done(Commit(s, {AllocationRow}).(
        allocation := s.allocation.(nextPosition := position + 1),
        history := s.history.(reserved := s.history.reserved + {position})))
  }

  predicate CanonicalClosure(closure: string) {
    IsCanonicalItemRoot(closure)
  }

  predicate FreshJob(job: DeployJob) {
    job.closure.Some? ==> CanonicalClosure(job.closure.value)
  }

  function Max(a: nat, b: nat): nat {
    if a < b then b else a
  }

  // ---- beginning a transition --------------------------------------------

  /** The bookkeeping shared by the four operations that create an intent. */
  function WithIntent(s: State, key: IntentKey, intent: Intent, touched: set<RowName>): State {
    var next := Commit(s, touched);
    next.(intents := s.intents[key := intent],
          history := History(
            s.history.births[key := next.sequence],
            s.history.origins[next.sequence := key],
            s.history.owners[intent.position := key],
            s.history.reserved - {intent.position},
            s.history.counts[key.deployment := key.ordinal + 1]))
  }

  function NewIntent(record: DeploymentRecord, phase: DeploymentPhase, position: nat,
                     terminal: Option<DeploymentTerminal>): Intent {
    Intent(record.generation, record.identity.cluster, record.identity.node, phase, position,
           record.identity.revision, terminal, None, Pending)
  }

  ghost function BeginAdmission(s: State, identity: RequestIdentity, job: DeployJob): Outcome {
    var deployment := s.allocation.nextDeployment;
    var record := DeploymentRecord(s.allocation.nextGeneration, identity, None, Submitted, None, None);
    var key := IntentKey(deployment, 0);
    if !FreshJob(job) then Refused(s, UncanonicalClosure)
    else if job.phase != JobSubmitted || job.cluster != identity.cluster || job.node != identity.node then
      Refused(s, CursorMismatch)
    else if !CanTake(deployment) || !CanTake(record.generation) || !CanTake(s.allocation.nextPosition) then
      Refused(s, IdentifierSpaceExhausted)
    else if deployment in s.records || deployment in s.jobs || key in s.intents then Refused(s, RowConflict)
    else
      var intent := NewIntent(record, Submitted, s.allocation.nextPosition, None);
      var begun := WithIntent(s, key, intent,
        {AllocationRow, RecordRow(deployment), JobRow(deployment), IntentRow(key)});
      Done(begun.(
        allocation := Allocation(deployment + 1, record.generation + 1, s.allocation.nextPosition + 1),
        records := s.records[deployment := record],
        jobs := s.jobs[deployment := job.(generation := record.generation)]))
  }

  ghost function BeginRejection(s: State, identity: RequestIdentity, terminal: DeploymentTerminal): Outcome {
    var deployment := s.allocation.nextDeployment;
    var record := DeploymentRecord(s.allocation.nextGeneration, identity, None,
                                   LifecycleOf(terminal), None, Some(terminal));
    var key := IntentKey(deployment, 0);
    if !CanTake(deployment) || !CanTake(record.generation) || !CanTake(s.allocation.nextPosition) then
      Refused(s, IdentifierSpaceExhausted)
    else if deployment in s.records || key in s.intents then Refused(s, RowConflict)
    else
      var intent := NewIntent(record, LifecycleOf(terminal), s.allocation.nextPosition, Some(terminal));
      var begun := WithIntent(s, key, intent, {AllocationRow, RecordRow(deployment), IntentRow(key)});
      Done(begun.(
        allocation := Allocation(deployment + 1, record.generation + 1, s.allocation.nextPosition + 1),
        records := s.records[deployment := record]))
  }

  ghost function BeginTerminal(s: State, deployment: nat, terminal: DeploymentTerminal): Outcome {
    var ordinal := Above(OrdinalsOf(s.intents, deployment));
    var key := IntentKey(deployment, ordinal);
    if deployment !in s.records then Refused(s, MissingRecord)
    else if s.records[deployment].terminal.Some? then Refused(s, AlreadyTerminal)
    else if EarlierPending(s.intents, deployment) then Refused(s, EarlierUnacknowledged)
    else if ordinal > MAX_U64 || !CanTake(s.allocation.nextPosition) then Refused(s, IdentifierSpaceExhausted)
    else
      var record := s.records[deployment].(
        lifecycle := LifecycleOf(terminal), terminal := Some(terminal), terminalMarker := None);
      var intent := NewIntent(record, LifecycleOf(terminal), s.allocation.nextPosition, Some(terminal));
      var begun := WithIntent(s, key, intent,
        {AllocationRow, RecordRow(deployment), IntentRow(key)} +
        (if deployment in s.jobs then {JobRow(deployment)} else {}));
      Done(begun.(
        allocation := s.allocation.(nextPosition := s.allocation.nextPosition + 1),
        records := s.records[deployment := record],
        jobs := if deployment in s.jobs
                then s.jobs[deployment := s.jobs[deployment].(phase := JobPhaseOf(terminal), stage := FinishDeployment)]
                else s.jobs))
  }

  ghost function BeginPhase(s: State, deployment: nat, lifecycle: DeploymentPhase,
                            jobDeployment: nat, job: DeployJob, event: PhaseEvent): Outcome {
    var ordinal := Above(OrdinalsOf(s.intents, deployment));
    var key := IntentKey(deployment, ordinal);
    if TerminalLifecycle(lifecycle) then Refused(s, TerminalPhase)
    else if !FreshJob(job) then Refused(s, UncanonicalClosure)
    else if jobDeployment != deployment then Refused(s, CursorMismatch)
    else if event.deployment != deployment then Refused(s, EventMismatch)
    else if deployment !in s.records then Refused(s, MissingRecord)
    else if deployment !in s.jobs then Refused(s, MissingJob)
    else if s.records[deployment].generation != event.generation
         || s.records[deployment].identity.cluster != event.cluster
         || s.records[deployment].identity.node != event.node then Refused(s, EventMismatch)
    else if EarlierPending(s.intents, deployment) then Refused(s, EarlierUnacknowledged)
    else if event.position in s.events then Refused(s, PositionOccupied)
    else if ordinal > MAX_U64 then Refused(s, IdentifierSpaceExhausted)
    else
      var record := s.records[deployment].(lifecycle := lifecycle, terminal := None, terminalMarker := None);
      var intent := Intent(event.generation, event.cluster, event.node, event.phase, event.position,
                           event.revision, None, None, Pending);
      var begun := WithIntent(s, key, intent, {RecordRow(deployment), JobRow(deployment), IntentRow(key)});
      Done(begun.(
        records := s.records[deployment := record],
        jobs := s.jobs[deployment := job]))
  }

  // ---- driving an intent to its acknowledgement --------------------------

  /** Whether binding this intent also rewrites its deployment record. */
  predicate MarksRecord(intent: Intent) {
    intent.phase == Submitted || intent.terminal.Some?
  }

  function MarkedRecord(record: DeploymentRecord, intent: Intent, marker: nat): DeploymentRecord {
    var admitted := if intent.phase == Submitted then record.(admissionMarker := Some(marker)) else record;
    if intent.terminal.Some? then admitted.(terminalMarker := Some(marker)) else admitted
  }

  ghost function Bind(s: State, key: IntentKey): Outcome {
    if key !in s.intents then Refused(s, MissingIntent)
    else if IsBound(s.intents[key]) then Done(s)
    else
      var sources := SourceCommits(s.log, key);
      if sources == {} then Refused(s, NoSourceCommit)
      else
        var marker :| marker in sources;
        if sources != {marker} then Refused(s, ManySourceCommits)
        else BindTo(s, key, marker)
  }

  ghost function BindTo(s: State, key: IntentKey, marker: nat): Outcome
    requires key in s.intents
  {
    var intent := s.intents[key];
    var delivery := OutboxKey(key.deployment, marker);
    if delivery in s.outbox then
      Refused(s, if s.outbox[delivery].event != EventAt(key, intent, marker) then PayloadMismatch else AlreadyBound)
    else if MarksRecord(intent) && key.deployment !in s.records then Refused(s, MissingRecord)
    else if intent.terminal.Some? && s.records[key.deployment].terminal != intent.terminal then
      Refused(s, TerminalDisagrees)
    else
      Done(Commit(s, {IntentRow(key), OutboxRowName(delivery)} +
                     (if MarksRecord(intent) then {RecordRow(key.deployment)} else {})).(
        intents := s.intents[key := intent.(marker := Some(marker), state := Bound)],
        outbox := s.outbox[delivery := OutboxRow(EventAt(key, intent, marker), Undelivered, 0)],
        records := if MarksRecord(intent)
                   then s.records[key.deployment := MarkedRecord(s.records[key.deployment], intent, marker)]
                   else s.records))
  }

  function DeliveryKey(key: IntentKey, intent: Intent): OutboxKey
    requires IsBound(intent)
  {
    OutboxKey(key.deployment, intent.marker.value)
  }

  ghost function Dispatch(s: State, key: IntentKey): Outcome {
    if key !in s.intents then Refused(s, MissingIntent)
    else if !IsBound(s.intents[key]) then Refused(s, Unbound)
    else
      var delivery := DeliveryKey(key, s.intents[key]);
      if delivery !in s.outbox then Refused(s, MissingOutbox)
      else
        var row := s.outbox[delivery];
        if row.event != EventOf(key, s.intents[key]) then Refused(s, PayloadMismatch)
        else if row.delivery != Undelivered then Done(s)
        else if !CanTake(row.retries) then Refused(s, IdentifierSpaceExhausted)
        else Done(Commit(s, {OutboxRowName(delivery)}).(
          outbox := s.outbox[delivery := row.(delivery := Dispatched, retries := row.retries + 1)]))
  }

  ghost function Append(s: State, key: IntentKey): Outcome {
    if key !in s.intents then Refused(s, MissingIntent)
    else if !IsBound(s.intents[key]) then Refused(s, Unbound)
    else
      var intent := s.intents[key];
      var appended := s.intents[key := intent.(state := Appended)];
      var logged := Deployment(EventOf(key, intent));
      if intent.position !in s.events then
        Done(Commit(s, {EventRow(intent.position), IntentRow(key)}).(
          events := s.events[intent.position := logged], intents := appended))
      else if s.events[intent.position] != logged then Refused(s, JournalMismatch)
      else if intent.state == Appended then Done(s)
      else Done(Commit(s, {IntentRow(key)}).(intents := appended))
  }

  ghost function Acknowledge(s: State, key: IntentKey): Outcome {
    if key !in s.intents then Refused(s, MissingIntent)
    else if !IsBound(s.intents[key]) then Refused(s, Unbound)
    else
      var intent := s.intents[key];
      var event := EventOf(key, intent);
      var delivery := DeliveryKey(key, intent);
      if intent.position !in s.events || s.events[intent.position] != Deployment(event) then
        Refused(s, JournalAbsent)
      else if delivery !in s.outbox then Refused(s, MissingOutbox)
      else if s.outbox[delivery].event != event then Refused(s, PayloadMismatch)
      else if intent.state == Acknowledged && s.outbox[delivery].delivery == Delivered then Done(s)
      else
        var retiresJob := intent.terminal.Some? && key.deployment in s.jobs;
        Done(Commit(s, {OutboxRowName(delivery), IntentRow(key)} +
                       (if retiresJob then {JobRow(key.deployment)} else {})).(
          outbox := s.outbox[delivery := s.outbox[delivery].(delivery := Delivered)],
          intents := s.intents[key := intent.(state := Acknowledged)],
          jobs := if retiresJob then s.jobs - {key.deployment} else s.jobs))
  }

  /** Bind, dispatch, append and acknowledge in turn, stopping at the first refusal. */
  ghost function Complete(s: State, key: IntentKey): Outcome {
    var bound := Bind(s, key);
    if bound.Refused? then bound else
    var dispatched := Dispatch(bound.state, key);
    if dispatched.Refused? then dispatched else
    var appended := Append(dispatched.state, key);
    if appended.Refused? then appended else
    Acknowledge(appended.state, key)
  }

  // ---- history -----------------------------------------------------------

  /** The `count` highest positions, or all of them when there are fewer. */
  ghost function Newest(positions: set<nat>, count: nat): (kept: set<nat>)
    ensures kept <= positions
    decreases count
  {
    if count == 0 || positions == {} then {}
    else
      var top := Above(positions) - 1;
      {top} + Newest(positions - {top}, count - 1)
  }

  ghost function RetiredPositions(s: State, retention: nat): set<nat> {
    s.events.Keys - Newest(s.events.Keys, retention)
  }

  predicate RetiredDelivery(row: OutboxRow, retired: set<nat>) {
    row.event.position in retired && row.delivery == Delivered
  }

  /** Retract the oldest events with their containers and acknowledged deliveries. */
  ghost function Compact(s: State, retention: nat): Outcome {
    var retired := RetiredPositions(s, retention);
    if retired == {} then Done(s)
    else
      var deliveries := set o | o in s.outbox && RetiredDelivery(s.outbox[o], retired);
      var containers := s.containers.Keys * retired;
      Done(Commit(s, (set p | p in retired :: EventRow(p)) + (set p | p in containers :: ContainerRow(p))
                     + (set o | o in deliveries :: OutboxRowName(o))).(
        events := s.events - retired,
        containers := s.containers - containers,
        outbox := s.outbox - deliveries))
  }

  /** The engine dropping all but some entries of the versioned commit log. */
  function TruncateLog(s: State, kept: set<nat>): State {
    s.(log := map c | c in s.log && c in kept :: s.log[c])
  }

  ghost function AppendEntry(s: State, position: nat, entry: LoggedEvent): Outcome {
    if entry.Deployment? then Refused(s, DeploymentEntryRefused)
    else if position >= s.allocation.nextPosition && !CanTake(position) then Refused(s, IdentifierSpaceExhausted)
    else if position in s.events then Refused(s, RowConflict)
    else
      var advances := position >= s.allocation.nextPosition;
      Done(Commit(s, {EventRow(position)} + (if advances then {AllocationRow} else {})).(
        events := s.events[position := entry],
        allocation := if advances then s.allocation.(nextPosition := position + 1) else s.allocation,
        history := s.history.(reserved := s.history.reserved - {position})))
  }

  ghost function RecordContainer(s: State, containerPosition: nat, container: ContainerRecord,
                                 position: nat, entry: LoggedEvent): Outcome {
    if containerPosition in s.containers || position in s.events then Refused(s, RowConflict)
    else Done(Commit(s, {ContainerRow(containerPosition), EventRow(position)}).(
      containers := s.containers[containerPosition := container],
      events := s.events[position := entry],
      history := s.history.(reserved := s.history.reserved - {position})))
  }

  // ---- records and jobs between transitions ------------------------------

  ghost function SetRevision(s: State, deployment: nat, revision: string): Outcome {
    if deployment !in s.records then Refused(s, MissingRecord)
    else
      var record := s.records[deployment];
      Done(Commit(s, {RecordRow(deployment)}).(
        records := s.records[deployment := record.(identity := record.identity.(revision := Some(revision)))]))
  }

  ghost function RecordResolvedSource(s: State, deployment: nat, revision: string,
                                      jobDeployment: nat, job: DeployJob): Outcome {
    if !FreshJob(job) then Refused(s, UncanonicalClosure)
    else if deployment !in s.records then Refused(s, MissingRecord)
    else if jobDeployment != deployment then Refused(s, CursorMismatch)
    else if deployment !in s.jobs then Refused(s, RowConflict)
    else
      var record := s.records[deployment];
      Done(Commit(s, {RecordRow(deployment), JobRow(deployment)}).(
        records := s.records[deployment := record.(identity := record.identity.(revision := Some(revision)))],
        jobs := s.jobs[deployment := job]))
  }

  ghost function UpsertJob(s: State, deployment: nat, job: DeployJob): Outcome {
    if !FreshJob(job) then Refused(s, UncanonicalClosure)
    else Done(Commit(s, {JobRow(deployment)}).(jobs := s.jobs[deployment := job]))
  }

  ghost function RetractJob(s: State, deployment: nat): Outcome {
    if deployment !in s.jobs then Done(s)
    else Done(Commit(s, {JobRow(deployment)}).(jobs := s.jobs - {deployment}))
  }

  // ---- generations and roots ---------------------------------------------

  predicate Supersedes(newer: LiveGeneration, older: LiveGeneration) {
    && newer.slot == Current && older.slot == Current
    && newer.cluster == older.cluster && newer.node == older.node
    && newer.environment == older.environment
  }

  function PriorCurrent(live: map<nat, LiveGeneration>, generation: LiveGeneration): set<nat> {
    set g | g in live && Supersedes(generation, live[g])
  }

  ghost function RecordActivation(s: State, identifier: nat, generation: LiveGeneration,
                                  rootIdentifier: nat, root: GcRoot): Outcome {
    if !CanonicalClosure(generation.closure) || !CanonicalClosure(root.closure) then Refused(s, UncanonicalClosure)
    else if !CanTake(generation.deployment) || !CanTake(identifier) then Refused(s, IdentifierSpaceExhausted)
    else if identifier in s.live || rootIdentifier in s.roots then Refused(s, RowConflict)
    else
      var prior := PriorCurrent(s.live, generation);
      var demotedRoots := s.roots.Keys * prior;
      Done(Commit(s, {LiveRow(identifier), RootRow(rootIdentifier), AllocationRow}
                     + (set g | g in prior :: LiveRow(g)) + (set g | g in demotedRoots :: RootRow(g))).(
        live := (map g | g in s.live :: if g in prior then s.live[g].(slot := Recent) else s.live[g])
                [identifier := generation],
        roots := (map g | g in s.roots :: if g in prior then s.roots[g].(slot := Recent) else s.roots[g])
                 [rootIdentifier := root],
        allocation := s.allocation.(
          nextDeployment := Max(s.allocation.nextDeployment, generation.deployment + 1),
          nextGeneration := Max(s.allocation.nextGeneration, identifier + 1))))
  }

  ghost function MutateRoot(s: State, identifier: nat, root: GcRoot): Outcome {
    if !CanonicalClosure(root.closure) then Refused(s, UncanonicalClosure)
    else if identifier !in s.roots then Refused(s, RowConflict)
    else Done(Commit(s, {RootRow(identifier)}).(roots := s.roots[identifier := root]))
  }

  ghost function RetractRoot(s: State, identifier: nat): Outcome {
    if identifier !in s.roots then Refused(s, RowConflict)
    else Done(Commit(s, {RootRow(identifier)}).(roots := s.roots - {identifier}))
  }

  // ---- opening -----------------------------------------------------------

  /** Deliveries a crash left in flight become deliverable again, in one commit. */
  function Requeue(s: State): State {
    var flying := set o | o in s.outbox && s.outbox[o].delivery == Dispatched;
    if flying == {} then s
    else Commit(s, set o | o in flying :: OutboxRowName(o)).(
      outbox := map o | o in s.outbox ::
        if s.outbox[o].delivery == Dispatched then s.outbox[o].(delivery := Undelivered) else s.outbox[o])
  }

  /** Complete the listed intents in order, skipping those `snapshot` shows acknowledged. */
  ghost function CompleteAll(s: State, snapshot: map<IntentKey, Intent>, keys: seq<IntentKey>): Outcome
    decreases |keys|
  {
    if keys == [] then Done(s)
    else if keys[0] in snapshot && !Unacknowledged(snapshot[keys[0]]) then CompleteAll(s, snapshot, keys[1..])
    else
      var completed := Complete(s, keys[0]);
      if completed.Refused? then completed else CompleteAll(completed.state, snapshot, keys[1..])
  }

  predicate Journalled(s: State, position: nat) {
    position in s.events && s.events[position].Deployment?
  }

  /** Two journal events, or an event and a delivery, disagree about one delivery key. */
  ghost predicate OutboxConflict(s: State) {
    || (exists p :: Journalled(s, p) && KeyOf(s.events[p].event) in s.outbox
                    && s.outbox[KeyOf(s.events[p].event)].event != s.events[p].event)
    || (exists p, q :: Journalled(s, p) && Journalled(s, q)
                    && KeyOf(s.events[p].event) == KeyOf(s.events[q].event)
                    && s.events[p].event != s.events[q].event)
  }

  /** Journalled deployment events that have no delivery row, by delivery key. */
  function MissingDeliveries(s: State): set<nat> {
    set p | p in s.events && s.events[p].Deployment? && KeyOf(s.events[p].event) !in s.outbox
  }

  ghost function ReconcileOutbox(s: State): Outcome {
    var missing := MissingDeliveries(s);
    if OutboxConflict(s) then Refused(s, PayloadMismatch)
    else if missing == {} then Done(s)
    else
      var keys := set p | p in missing :: KeyOf(s.events[p].event);
      Done(Commit(s, set o | o in keys :: OutboxRowName(o)).(
        outbox := s.outbox + map o | o in keys :: OutboxRow(MissingEvent(s, o), Undelivered, 0)))
  }

  ghost function MissingEvent(s: State, key: OutboxKey): PhaseEvent
    requires exists p :: p in MissingDeliveries(s) && KeyOf(s.events[p].event) == key
  {
    var p :| p in MissingDeliveries(s) && KeyOf(s.events[p].event) == key;
    s.events[p].event
  }

  /**
    The recovery half of opening a store whose allocation row survives: requeue,
    complete what was pending in the order `keys` the engine lists it, and
    rebuild the outbox from the journal.
  */
  ghost function Open(s: State, keys: seq<IntentKey>): Outcome {
    var requeued := Requeue(s);
    var completed := CompleteAll(requeued, requeued.intents, keys);
    if completed.Refused? then completed else ReconcileOutbox(completed.state)
  }

  /** `keys` lists every intent of the store exactly once, in some order. */
  ghost predicate Lists(keys: seq<IntentKey>, s: State) {
    && (forall i :: 0 <= i < |keys| ==> keys[i] in s.intents)
    && (forall key :: key in s.intents ==> key in keys)
    && (forall i, j :: 0 <= i < j < |keys| ==> keys[i] != keys[j])
  }
}
