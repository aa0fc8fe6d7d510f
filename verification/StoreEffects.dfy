/**
  What each accepted operation leaves, field by field: the rows it writes and
  what they hold, the rows its commit names, and that nothing else changes.
*/
module StoreEffects {
  import opened Options
  import opened StoreModel
  import opened StoreInvariant

  /** How a method that follows an `Outcome` reports it. */
  function ErrorOf(outcome: Outcome): Option<StoreError> {
    match outcome
    case Done(_) => None
    case Refused(_, error) => Some(error)
  }

  /** One commit, whose log entry names exactly these rows. */
  ghost predicate Logs(s: State, s': State, touched: set<RowName>) {
    s'.sequence == s.sequence + 1 && s'.log == s.log[s.sequence + 1 := touched]
  }

  /** One commit, whatever its log entry names. */
  ghost predicate Commits(s: State, s': State) {
    && s'.sequence == s.sequence + 1 && s'.sequence in s'.log
    && s'.log == s.log[s.sequence + 1 := s'.log[s'.sequence]]
  }

  /** The lifecycle of a deployment and the terminal it ended with say the same. */
  ghost predicate Tells(lifecycle: DeploymentPhase, terminal: Option<DeploymentTerminal>) {
    && (lifecycle == Completed <==> terminal == Some(Succeeded))
    && (lifecycle == RejectedPhase <==> terminal.Some? && terminal.value.Rejected?)
    && (lifecycle == FailedPhase <==> terminal.Some? && terminal.value.Failed?)
  }

  /** Nothing that transitions do not concern has changed. */
  ghost predicate LedgersKept(s: State, s': State) {
    s'.events == s.events && s'.containers == s.containers && s'.live == s.live && s'.roots == s.roots
  }

  /** What belongs to other deployments is as it was. */
  ghost predicate OthersKept(s: State, s': State, d: nat) {
    s'.records - {d} == s.records - {d} && s'.jobs - {d} == s.jobs - {d} && LedgersKept(s, s')
  }

  /** A transition about this deployment, with the place and generation of its record. */
  ghost predicate Names(intent: Intent, record: DeploymentRecord) {
    && intent.generation == record.generation
    && intent.cluster == record.identity.cluster && intent.node == record.identity.node
  }

  /** The deployment's next transition is there, pending, with these fields and those of its record. */
  ghost predicate Begins(s: State, s': State, key: IntentKey, phase: DeploymentPhase, position: nat,
                         revision: Option<string>, terminal: Option<DeploymentTerminal>) {
    && (forall other :: other in s.intents && other.deployment == key.deployment ==> other.ordinal < key.ordinal)
    && (key.ordinal > 0 ==> IntentKey(key.deployment, key.ordinal - 1) in s.intents)
    && key in s'.intents && s'.intents - {key} == s.intents && s'.outbox == s.outbox
    && key.deployment in s'.records && Names(s'.intents[key], s'.records[key.deployment])
    && var intent := s'.intents[key];
       && intent.phase == phase && intent.position == position && intent.revision == revision
       && intent.terminal == terminal && intent.marker.None? && intent.state == Pending
  }

  // ---- beginning a transition --------------------------------------------

  /** Three new identifiers, a record as asked, its restart cursor, and the first transition. */
  ghost predicate AdmissionLeft(s: State, s': State, identity: RequestIdentity, cursor: DeployJob) {
    var d := s.allocation.nextDeployment;
    && d !in s.records && d !in s.jobs && d in s'.records && d in s'.jobs && OthersKept(s, s', d)
    && var record := s'.records[d]; var job := s'.jobs[d];
       && record.identity == identity && record.generation == s.allocation.nextGeneration
       && record.lifecycle == Submitted && record.terminal.None?
       && record.admissionMarker.None? && record.terminalMarker.None?
       && job.generation == record.generation && job.cluster == cursor.cluster && job.node == cursor.node
       && job.phase == cursor.phase && job.closure == cursor.closure && job.stage == cursor.stage
       && Begins(s, s', IntentKey(d, 0), Submitted, s.allocation.nextPosition, identity.revision, None)
       && s'.allocation.nextDeployment == d + 1 && s'.allocation.nextGeneration == record.generation + 1
       && s'.allocation.nextPosition == s.allocation.nextPosition + 1
       && Logs(s, s', {AllocationRow, RecordRow(d), JobRow(d), IntentRow(IntentKey(d, 0))})
  }

  lemma AdmissionEffect(s: State, identity: RequestIdentity, cursor: DeployJob)
    requires Inv(s)
    ensures var o := BeginAdmission(s, identity, cursor);
            if o.Done? then AdmissionLeft(s, o.state, identity, cursor) else o.state == s
  {
    hide FreshJob, Begins, Sequenced, Born, Marked, Logged, Positioned, Carried, Awaited, Covered, Ending, BelowHighWater;
    if BeginAdmission(s, identity, cursor).Done? { AdmissionBegins(s, identity, cursor); }
  }

  lemma AdmissionBegins(s: State, identity: RequestIdentity, cursor: DeployJob)
    requires Sequenced(s.intents, s.records.Keys, s.history.counts) && BeginAdmission(s, identity, cursor).Done?
    ensures Begins(s, BeginAdmission(s, identity, cursor).state, IntentKey(s.allocation.nextDeployment, 0), Submitted,
                   s.allocation.nextPosition, identity.revision, None)
  {
    hide FreshJob;
    assert s.allocation.nextDeployment !in s.history.counts;
  }

  /** Three new identifiers and a record that ended as it was begun, with no restart cursor. */
  ghost predicate RejectionLeft(s: State, s': State, identity: RequestIdentity, terminal: DeploymentTerminal) {
    var d := s.allocation.nextDeployment;
    && d !in s.records && d in s'.records && OthersKept(s, s', d) && s'.jobs == s.jobs
    && var record := s'.records[d];
       && record.identity == identity && record.generation == s.allocation.nextGeneration
       && record.terminal == Some(terminal) && Tells(record.lifecycle, Some(terminal))
       && record.admissionMarker.None? && record.terminalMarker.None?
       && Begins(s, s', IntentKey(d, 0), record.lifecycle, s.allocation.nextPosition, identity.revision, Some(terminal))
       && s'.allocation.nextDeployment == d + 1 && s'.allocation.nextGeneration == record.generation + 1
       && s'.allocation.nextPosition == s.allocation.nextPosition + 1
       && Logs(s, s', {AllocationRow, RecordRow(d), IntentRow(IntentKey(d, 0))})
  }

  lemma RejectionEffect(s: State, identity: RequestIdentity, terminal: DeploymentTerminal)
    requires Inv(s)
    ensures var o := BeginRejection(s, identity, terminal);
            if o.Done? then RejectionLeft(s, o.state, identity, terminal) else o.state == s
  {
    hide Begins, Sequenced, Born, Marked, Logged, Positioned, Carried, Awaited, Covered, Ending, BelowHighWater;
    if BeginRejection(s, identity, terminal).Done? { RejectionBegins(s, identity, terminal); }
  }

  lemma RejectionBegins(s: State, identity: RequestIdentity, terminal: DeploymentTerminal)
    requires Sequenced(s.intents, s.records.Keys, s.history.counts) && BeginRejection(s, identity, terminal).Done?
    ensures var d := s.allocation.nextDeployment; var s' := BeginRejection(s, identity, terminal).state;
            d in s'.records && Begins(s, s', IntentKey(d, 0), s'.records[d].lifecycle,
                                      s.allocation.nextPosition, identity.revision, Some(terminal))
  {
    assert s.allocation.nextDeployment !in s.history.counts;
  }

  /** The record ended as asked, its cursor if any asked to finish, and one more transition at a new position. */
  ghost predicate TerminalLeft(s: State, s': State, d: nat, ordinal: nat, terminal: DeploymentTerminal) {
    && d in s.records && d in s'.records && OthersKept(s, s', d) && (d in s'.jobs <==> d in s.jobs)
    && s.records[d].terminal.None?
    && var record := s'.records[d];
       && record.identity == s.records[d].identity && record.generation == s.records[d].generation
       && record.admissionMarker == s.records[d].admissionMarker && record.terminalMarker.None?
       && record.terminal == Some(terminal) && Tells(record.lifecycle, Some(terminal))
       && (d in s.jobs ==>
             var job := s'.jobs[d]; var before := s.jobs[d];
             && job.generation == before.generation && job.cluster == before.cluster && job.node == before.node
             && job.closure == before.closure && job.stage == FinishDeployment
             && job.phase == (if terminal == Succeeded then JobActivated else JobFailed))
       && Begins(s, s', IntentKey(d, ordinal), record.lifecycle, s.allocation.nextPosition, record.identity.revision,
                 Some(terminal))
       && s'.allocation.nextPosition == s.allocation.nextPosition + 1
       && s'.allocation.nextDeployment == s.allocation.nextDeployment
       && s'.allocation.nextGeneration == s.allocation.nextGeneration
       && Logs(s, s', {AllocationRow, RecordRow(d), IntentRow(IntentKey(d, ordinal))}
                      + (if d in s.jobs then {JobRow(d)} else {}))
  }

  lemma NextOrdinal(s: State, d: nat)
    ensures var n := Above(OrdinalsOf(s.intents, d));
            && (forall other :: other in s.intents && other.deployment == d ==> other.ordinal < n)
            && (n > 0 ==> IntentKey(d, n - 1) in s.intents) && IntentKey(d, n) !in s.intents
  {
    var ordinals := OrdinalsOf(s.intents, d);
    forall other | other in s.intents && other.deployment == d ensures other.ordinal < Above(ordinals) {
      assert other.ordinal in ordinals;
    }
    if Above(ordinals) > 0 {
      assert Above(ordinals) - 1 in ordinals;
    }
  }

  lemma TerminalEffect(s: State, d: nat, terminal: DeploymentTerminal)
    ensures var o := BeginTerminal(s, d, terminal);
            if o.Done? then TerminalLeft(s, o.state, d, Above(OrdinalsOf(s.intents, d)), terminal) else o.state == s
  {
    hide Above, OrdinalsOf, EarlierPending, Begins;
    if BeginTerminal(s, d, terminal).Done? { TerminalBegins(s, d, terminal); }
  }

  lemma TerminalBegins(s: State, d: nat, terminal: DeploymentTerminal)
    requires BeginTerminal(s, d, terminal).Done?
    ensures var s' := BeginTerminal(s, d, terminal).state;
            d in s'.records
            && Begins(s, s', IntentKey(d, Above(OrdinalsOf(s.intents, d))), s'.records[d].lifecycle,
                      s.allocation.nextPosition, s'.records[d].identity.revision, Some(terminal))
  {
    hide Above, OrdinalsOf, EarlierPending;
    NextOrdinal(s, d);
  }

  /** The record at the new lifecycle with no terminal, the cursor as given, and one more transition with the event's fields. */
  ghost predicate PhaseLeft(s: State, s': State, d: nat, ordinal: nat, lifecycle: DeploymentPhase, job: DeployJob,
                            event: PhaseEvent) {
    && d in s.records && d in s.jobs && d in s'.records && d in s'.jobs && OthersKept(s, s', d)
    && s'.jobs[d] == job
    && var record := s'.records[d];
       && record.identity == s.records[d].identity && record.generation == s.records[d].generation
       && record.admissionMarker == s.records[d].admissionMarker
       && record.lifecycle == lifecycle && record.terminal.None? && record.terminalMarker.None? && Tells(lifecycle, None)
       && Begins(s, s', IntentKey(d, ordinal), event.phase, event.position, event.revision, None)
       && event.position !in s.events && s'.allocation == s.allocation
       && Logs(s, s', {RecordRow(d), JobRow(d), IntentRow(IntentKey(d, ordinal))})
  }

  lemma PhaseEffect(s: State, d: nat, lifecycle: DeploymentPhase, jobDeployment: nat, job: DeployJob, event: PhaseEvent)
    ensures var o := BeginPhase(s, d, lifecycle, jobDeployment, job, event);
            if o.Done? then PhaseLeft(s, o.state, d, Above(OrdinalsOf(s.intents, d)), lifecycle, job, event)
            else o.state == s
  {
    hide Above, OrdinalsOf, EarlierPending, FreshJob, Begins;
    if BeginPhase(s, d, lifecycle, jobDeployment, job, event).Done? {
      PhaseBegins(s, d, lifecycle, jobDeployment, job, event);
    }
  }

  lemma PhaseBegins(s: State, d: nat, lifecycle: DeploymentPhase, jobDeployment: nat, job: DeployJob, event: PhaseEvent)
    requires BeginPhase(s, d, lifecycle, jobDeployment, job, event).Done?
    ensures Begins(s, BeginPhase(s, d, lifecycle, jobDeployment, job, event).state,
                   IntentKey(d, Above(OrdinalsOf(s.intents, d))), event.phase, event.position, event.revision, None)
  {
    hide Above, OrdinalsOf, EarlierPending, FreshJob;
    NextOrdinal(s, d);
  }

  // ---- driving a transition ----------------------------------------------

  /** The event of a transition bound at this marker carries each of its fields. */
  ghost predicate Carries(event: PhaseEvent, key: IntentKey, intent: Intent, marker: nat) {
    && event.deployment == key.deployment && event.generation == intent.generation
    && event.cluster == intent.cluster && event.node == intent.node
    && event.phase == intent.phase && event.position == intent.position
    && event.revision == intent.revision && event.terminal == intent.terminal
    && event.marker == marker
  }

  /** Only this transition differs, and only in its marker and state. */
  ghost predicate Moves(s: State, s': State, key: IntentKey, marker: Option<nat>, state: IntentState) {
    && key in s.intents && key in s'.intents && s'.intents - {key} == s.intents - {key}
    && var intent := s.intents[key]; var moved := s'.intents[key];
       && moved.marker == marker && moved.state == state
       && moved.generation == intent.generation && moved.cluster == intent.cluster && moved.node == intent.node
       && moved.phase == intent.phase && moved.position == intent.position && moved.revision == intent.revision
       && moved.terminal == intent.terminal
  }

  /** Bound to the one commit that names it with its record, deliverable, and marked on the record where it is due. */
  ghost predicate BindLeft(s: State, s': State, key: IntentKey) {
    && key in s.intents && s.intents[key].marker.None?
    && exists marker :: BoundAt(s, s', key, marker)
  }

  ghost predicate BoundAt(s: State, s': State, key: IntentKey, marker: nat)
    requires key in s.intents
  {
    var intent := s.intents[key]; var d := key.deployment; var row := OutboxKey(d, marker);
    var marks := intent.phase == Submitted || intent.terminal.Some?;
    && marker in s.log && IntentRow(key) in s.log[marker] && RecordRow(d) in s.log[marker]
    && (forall c :: c in s.log && IntentRow(key) in s.log[c] && RecordRow(d) in s.log[c] ==> c == marker)
    && Moves(s, s', key, Some(marker), Bound)
    && row !in s.outbox && row in s'.outbox && s'.outbox - {row} == s.outbox
    && Carries(s'.outbox[row].event, key, intent, marker)
    && s'.outbox[row].delivery == Undelivered && s'.outbox[row].retries == 0
    && OthersKept(s, s', d) && s'.jobs == s.jobs && s'.allocation == s.allocation
    && (!marks ==> s'.records == s.records)
    && (marks ==>
          && d in s.records && d in s'.records
          && var record := s.records[d]; var marked := s'.records[d];
             && marked.admissionMarker == (if intent.phase == Submitted then Some(marker) else record.admissionMarker)
             && marked.terminalMarker == (if intent.terminal.Some? then Some(marker) else record.terminalMarker)
             && marked.identity == record.identity && marked.generation == record.generation
             && marked.lifecycle == record.lifecycle && marked.terminal == record.terminal)
    && Logs(s, s', {IntentRow(key), OutboxRowName(row)} + (if marks then {RecordRow(d)} else {}))
  }

  lemma BindEffect(s: State, key: IntentKey)
    ensures var o := Bind(s, key);
            if o.Done? && o.state != s then BindLeft(s, o.state, key) else o.state == s
    ensures Bind(s, key).Done? && Bind(s, key).state == s ==> key in s.intents && s.intents[key].marker.Some?
  {
    hide BindLeft, BoundAt;
    var o := Bind(s, key);
    if o.Done? && key in s.intents && !IsBound(s.intents[key]) {
      var marker :| marker in SourceCommits(s.log, key) && o == BindTo(s, key, marker) && SourceCommits(s.log, key) == {marker};
      BoundRows(s, key, marker);
    }
  }

  lemma BoundRows(s: State, key: IntentKey, marker: nat)
    requires key in s.intents && !IsBound(s.intents[key]) && SourceCommits(s.log, key) == {marker}
    requires BindTo(s, key, marker).Done?
    ensures BindTo(s, key, marker).state != s && BindLeft(s, BindTo(s, key, marker).state, key)
  {
    assert marker in SourceCommits(s.log, key);
    forall c | c in s.log && IntentRow(key) in s.log[c] && RecordRow(key.deployment) in s.log[c] ensures c == marker {
      assert c in SourceCommits(s.log, key);
    }
    assert BoundAt(s, BindTo(s, key, marker).state, key, marker);
  }

  /** A deliverable row is in flight with one more attempt counted; one in flight or delivered is left alone. */
  ghost predicate DispatchLeft(s: State, s': State, key: IntentKey) {
    && key in s.intents && s.intents[key].marker.Some?
    && var row := OutboxKey(key.deployment, s.intents[key].marker.value);
       && row in s.outbox && Carries(s.outbox[row].event, key, s.intents[key], row.marker)
       && (s.outbox[row].delivery != Undelivered ==> s' == s)
       && (s.outbox[row].delivery == Undelivered ==>
             && row in s'.outbox && s'.outbox - {row} == s.outbox - {row}
             && s'.outbox[row].event == s.outbox[row].event && s'.outbox[row].delivery == Dispatched
             && s'.outbox[row].retries == s.outbox[row].retries + 1
             && s'.intents == s.intents && s'.records == s.records && s'.jobs == s.jobs && LedgersKept(s, s')
             && s'.allocation == s.allocation && Logs(s, s', {OutboxRowName(row)}))
  }

  lemma DispatchEffect(s: State, key: IntentKey)
    ensures var o := Dispatch(s, key); if o.Done? then DispatchLeft(s, o.state, key) else o.state == s
  {
  }

  /** The journal holds the transition's event at its position, and the transition stands appended. */
  ghost predicate AppendLeft(s: State, s': State, key: IntentKey) {
    && key in s.intents && s.intents[key].marker.Some?
    && var intent := s.intents[key];
       && Moves(s, s', key, intent.marker, Appended)
       && intent.position in s'.events && s'.events[intent.position].Deployment?
       && Carries(s'.events[intent.position].event, key, intent, intent.marker.value)
       && s'.events - {intent.position} == s.events - {intent.position}
       && (intent.position in s.events ==> s'.events == s.events)
       && s'.outbox == s.outbox && s'.records == s.records && s'.jobs == s.jobs
       && s'.containers == s.containers && s'.live == s.live && s'.roots == s.roots && s'.allocation == s.allocation
       && (if intent.position !in s.events then Logs(s, s', {EventRow(intent.position), IntentRow(key)})
           else if intent.state != Appended then Logs(s, s', {IntentRow(key)}) else s' == s)
  }

  lemma AppendEffect(s: State, key: IntentKey)
    ensures var o := Append(s, key); if o.Done? then AppendLeft(s, o.state, key) else o.state == s
  {
    hide EventOf, AppendLeft, Carries;
    if Append(s, key).Done? {
      EventCarries(key, s.intents[key]);
      if s.intents[key].position !in s.events {
        AppendedNew(s, Append(s, key).state, key, EventOf(key, s.intents[key]));
      } else {
        AppendedAgain(s, Append(s, key).state, key, EventOf(key, s.intents[key]));
      }
    }
  }

  lemma AppendedAgain(s: State, s': State, key: IntentKey, event: PhaseEvent)
    requires key in s.intents && s.intents[key].marker.Some? && s.intents[key].position in s.events
    requires Carries(event, key, s.intents[key], s.intents[key].marker.value)
    requires s.events[s.intents[key].position] == Deployment(event)
    requires s' == if s.intents[key].state == Appended then s
                   else Commit(s, {IntentRow(key)}).(intents := s.intents[key := s.intents[key].(state := Appended)])
    ensures AppendLeft(s, s', key)
  {
    hide Carries;
  }

  lemma EventCarries(key: IntentKey, intent: Intent)
    requires IsBound(intent)
    ensures Carries(EventOf(key, intent), key, intent, intent.marker.value)
  {
  }

  lemma AppendedNew(s: State, s': State, key: IntentKey, event: PhaseEvent)
    requires key in s.intents && s.intents[key].marker.Some? && s.intents[key].position !in s.events
    requires Carries(event, key, s.intents[key], s.intents[key].marker.value)
    requires s' == Commit(s, {EventRow(s.intents[key].position), IntentRow(key)}).(
                     events := s.events[s.intents[key].position := Deployment(event)],
                     intents := s.intents[key := s.intents[key].(state := Appended)])
    ensures AppendLeft(s, s', key)
  {
    hide Carries;
  }

  /** Delivery and transition are acknowledged together, and a terminal's cursor goes with them. */
  ghost predicate AcknowledgeLeft(s: State, s': State, key: IntentKey) {
    && key in s.intents && s.intents[key].marker.Some?
    && var intent := s.intents[key]; var d := key.deployment; var row := OutboxKey(d, intent.marker.value);
       && row in s.outbox && row in s'.outbox && s'.outbox - {row} == s.outbox - {row}
       && s'.outbox[row].event == s.outbox[row].event && s'.outbox[row].retries == s.outbox[row].retries
       && s'.outbox[row].delivery == Delivered
       && Carries(s.outbox[row].event, key, intent, row.marker)
       && intent.position in s.events && s.events[intent.position].Deployment?
       && Carries(s.events[intent.position].event, key, intent, row.marker)
       && Moves(s, s', key, intent.marker, Acknowledged)
       && s'.records == s.records && LedgersKept(s, s') && s'.allocation == s.allocation
       && (if intent.state == Acknowledged && s.outbox[row].delivery == Delivered then s' == s
           else
             && (if intent.terminal.Some? then d !in s'.jobs && s'.jobs == s.jobs - {d} else s'.jobs == s.jobs)
             && Logs(s, s', {OutboxRowName(row), IntentRow(key)}
                            + (if intent.terminal.Some? && d in s.jobs then {JobRow(d)} else {})))
  }

  lemma AcknowledgeEffect(s: State, key: IntentKey)
    ensures var o := Acknowledge(s, key); if o.Done? then AcknowledgeLeft(s, o.state, key) else o.state == s
  {
    if Acknowledge(s, key).Done? {
      if Acknowledge(s, key).state == s {} else {}
    }
  }

  // ---- identifiers, records and cursors ----------------------------------

  /** Nothing of any deployment, and no entry, generation or root, has changed. */
  ghost predicate DeploymentsKept(s: State, s': State) {
    s'.intents == s.intents && s'.outbox == s.outbox && s'.records == s.records && s'.jobs == s.jobs
  }

  ghost predicate ReservationLeft(s: State, s': State, position: nat) {
    && position == s.allocation.nextPosition && position < MAX_U64
    && s'.allocation.nextPosition == position + 1 && s'.allocation.nextDeployment == s.allocation.nextDeployment
    && s'.allocation.nextGeneration == s.allocation.nextGeneration
    && DeploymentsKept(s, s') && LedgersKept(s, s') && Logs(s, s', {AllocationRow})
  }

  lemma ReservationEffect(s: State)
    ensures var o := AllocatePosition(s);
            if o.Done? then ReservationLeft(s, o.state, s.allocation.nextPosition)
            else o.state == s && s.allocation.nextPosition >= MAX_U64
  {
  }

  /** The revision is the record's and the cursor is as given; nothing else of the record differs. */
  ghost predicate ResolutionLeft(s: State, s': State, d: nat, revision: string, job: DeployJob) {
    && d in s.records && d in s.jobs && d in s'.records && d in s'.jobs && OthersKept(s, s', d)
    && s'.jobs[d] == job && Revised(s.records[d], s'.records[d], revision)
    && s'.intents == s.intents && s'.outbox == s.outbox && s'.allocation == s.allocation
    && Logs(s, s', {RecordRow(d), JobRow(d)})
  }

  ghost predicate Revised(record: DeploymentRecord, revised: DeploymentRecord, revision: string) {
    && revised.identity.revision == Some(revision)
    && revised.identity.environment == record.identity.environment
    && revised.identity.cluster == record.identity.cluster && revised.identity.node == record.identity.node
    && revised.generation == record.generation && revised.lifecycle == record.lifecycle
    && revised.terminal == record.terminal
    && revised.admissionMarker == record.admissionMarker && revised.terminalMarker == record.terminalMarker
  }

  lemma ResolutionEffect(s: State, d: nat, revision: string, jobDeployment: nat, job: DeployJob)
    ensures var o := RecordResolvedSource(s, d, revision, jobDeployment, job);
            if o.Done? then ResolutionLeft(s, o.state, d, revision, job) else o.state == s
  {
    hide FreshJob;
  }

  ghost predicate RevisionLeft(s: State, s': State, d: nat, revision: string) {
    && d in s.records && d in s'.records && OthersKept(s, s', d) && s'.jobs == s.jobs
    && Revised(s.records[d], s'.records[d], revision)
    && s'.intents == s.intents && s'.outbox == s.outbox && s'.allocation == s.allocation && Logs(s, s', {RecordRow(d)})
  }

  lemma RevisionEffect(s: State, d: nat, revision: string)
    ensures var o := SetRevision(s, d, revision);
            if o.Done? then RevisionLeft(s, o.state, d, revision) else o.state == s && d !in s.records
  {
  }

  /** Whether or not it was there, the row is as given. */
  ghost predicate UpsertLeft(s: State, s': State, d: nat, job: DeployJob) {
    && d in s'.jobs && s'.jobs[d] == job && OthersKept(s, s', d) && s'.records == s.records
    && s'.intents == s.intents && s'.outbox == s.outbox && s'.allocation == s.allocation && Logs(s, s', {JobRow(d)})
  }

  lemma UpsertEffect(s: State, d: nat, job: DeployJob)
    ensures var o := UpsertJob(s, d, job);
            if o.Done? then FreshJob(job) && UpsertLeft(s, o.state, d, job) else o.state == s && !FreshJob(job)
  {
    hide FreshJob;
  }

  /** The row is gone; where there was none nothing is committed. */
  ghost predicate RetractionLeft(s: State, s': State, d: nat) {
    && d !in s'.jobs && OthersKept(s, s', d) && s'.records == s.records
    && s'.intents == s.intents && s'.outbox == s.outbox && s'.allocation == s.allocation
    && (if d in s.jobs then Logs(s, s', {JobRow(d)}) else s' == s)
  }

  lemma RetractionEffect(s: State, d: nat)
    ensures RetractJob(s, d).Done? && RetractionLeft(s, RetractJob(s, d).state, d)
  {
    var s' := RetractJob(s, d).state;
    if d in s.jobs {
      assert s'.jobs == s.jobs - {d};
    } else {
      assert s' == s;
    }
  }

  // ---- the journal -------------------------------------------------------

  ghost predicate LedgersButEntries(s: State, s': State) {
    DeploymentsKept(s, s') && s'.live == s.live && s'.roots == s.roots
  }

  /** One entry more, and the position counter above it. */
  ghost predicate EntryLeft(s: State, s': State, position: nat, entry: LoggedEvent) {
    && position !in s.events && position in s'.events && s'.events[position] == entry
    && s'.events - {position} == s.events && s'.containers == s.containers && LedgersButEntries(s, s')
    && s'.allocation.nextDeployment == s.allocation.nextDeployment
    && s'.allocation.nextGeneration == s.allocation.nextGeneration
    && position < s'.allocation.nextPosition
    && (position < s.allocation.nextPosition ==>
          s'.allocation.nextPosition == s.allocation.nextPosition && Logs(s, s', {EventRow(position)}))
    && (position >= s.allocation.nextPosition ==>
          s'.allocation.nextPosition == position + 1 && Logs(s, s', {EventRow(position), AllocationRow}))
  }

  lemma EntryEffect(s: State, position: nat, entry: LoggedEvent)
    ensures var o := AppendEntry(s, position, entry);
            if o.Done? then !entry.Deployment? && EntryLeft(s, o.state, position, entry) else o.state == s
  {
    assert {EventRow(position)} + {AllocationRow} == {EventRow(position), AllocationRow};
    assert {EventRow(position)} + {} == {EventRow(position)};
  }

  ghost predicate ContainerLeft(s: State, s': State, containerPosition: nat, container: ContainerRecord, position: nat,
                          entry: LoggedEvent) {
    && containerPosition in s'.containers && s'.containers[containerPosition] == container
    && containerPosition !in s.containers && s'.containers - {containerPosition} == s.containers
    && position !in s.events && position in s'.events && s'.events[position] == entry
    && s'.events - {position} == s.events && LedgersButEntries(s, s') && s'.allocation == s.allocation
    && Logs(s, s', {ContainerRow(containerPosition), EventRow(position)})
  }

  lemma ContainerEffect(s: State, containerPosition: nat, container: ContainerRecord, position: nat, entry: LoggedEvent)
    ensures var o := RecordContainer(s, containerPosition, container, position, entry);
            if o.Done? then ContainerLeft(s, o.state, containerPosition, container, position, entry) else o.state == s
  {
  }

  /** The position has aged out of the journal. */
  ghost predicate AgedOut(s: State, s': State, position: nat) {
    position in s.events && position !in s'.events
  }

  /**
    With the entries that have aged out go exactly the containers recorded at
    their positions and the acknowledged deliveries of their events, in the one
    commit that names them all.
  */
  ghost predicate CompactionLeft(s: State, s': State) {
    && (forall p :: p in s'.events ==> p in s.events && s'.events[p] == s.events[p])
    && (forall p :: p in s'.containers <==> p in s.containers && !AgedOut(s, s', p))
    && (forall p :: p in s'.containers ==> s'.containers[p] == s.containers[p])
    && (forall o :: o in s'.outbox <==>
          o in s.outbox && !(s.outbox[o].delivery == Delivered && AgedOut(s, s', s.outbox[o].event.position)))
    && (forall o :: o in s'.outbox ==> s'.outbox[o] == s.outbox[o])
    && s'.intents == s.intents && s'.records == s.records && s'.jobs == s.jobs
    && s'.live == s.live && s'.roots == s.roots && s'.allocation == s.allocation
    && (if s'.events == s.events then s' == s else Commits(s, s') && AgedLogged(s, s'))
  }

  /** The commit names exactly the rows that went. */
  ghost predicate AgedLogged(s: State, s': State)
    requires s'.sequence in s'.log
  {
    forall row :: row in s'.log[s'.sequence] <==> Aged(s, s', row)
  }

  ghost predicate Aged(s: State, s': State, row: RowName) {
    match row
    case EventRow(p) => AgedOut(s, s', p)
    case ContainerRow(p) => p in s.containers && p !in s'.containers
    case OutboxRowName(o) => o in s.outbox && o !in s'.outbox
    case _ => false
  }

  lemma CompactionEffect(s: State, retention: nat)
    ensures Compact(s, retention).Done? && CompactionLeft(s, Compact(s, retention).state)
  {
    hide RetiredPositions, AgedLogged;
    var retired := RetiredPositions(s, retention);
    RetiredAreEntries(s, retention);
    if retired != {} {
      var p :| p in retired;
      assert AgedOut(s, Compact(s, retention).state, p);
      CompactionLogs(s, retention);
    }
  }

  lemma CompactionLogs(s: State, retention: nat)
    requires RetiredPositions(s, retention) != {}
    ensures var s' := Compact(s, retention).state; Commits(s, s') && AgedLogged(s, s')
  {
    hide RetiredPositions;
    RetiredAreEntries(s, retention);
    var s' := Compact(s, retention).state;
    forall row ensures row in s'.log[s'.sequence] <==> Aged(s, s', row) {
      match row
      case EventRow(p) =>
      case ContainerRow(p) =>
      case OutboxRowName(o) =>
      case _ =>
    }
  }

  lemma RetiredAreEntries(s: State, retention: nat)
    ensures RetiredPositions(s, retention) <= s.events.Keys
  {
  }

  // ---- generations and roots ---------------------------------------------

  /** The same place, and both current there. */
  ghost predicate Displaces(newer: LiveGeneration, older: LiveGeneration) {
    && newer.slot == Current && older.slot == Current && newer.environment == older.environment
    && newer.cluster == older.cluster && newer.node == older.node
  }

  /** What a displaced generation or root keeps: everything but its slot. */
  ghost predicate MadeRecent(older: LiveGeneration, demoted: LiveGeneration) {
    && demoted.slot == Recent && demoted.deployment == older.deployment && demoted.cluster == older.cluster
    && demoted.node == older.node && demoted.environment == older.environment && demoted.closure == older.closure
  }

  ghost predicate RootMadeRecent(older: GcRoot, demoted: GcRoot) {
    && demoted.slot == Recent && demoted.cluster == older.cluster && demoted.node == older.node
    && demoted.closure == older.closure && demoted.pin == older.pin
  }

  /** The generation is there and what it displaces is made recent. */
  ghost predicate LiveLeft(live: map<nat, LiveGeneration>, live': map<nat, LiveGeneration>, g: nat,
                           generation: LiveGeneration) {
    && g !in live && g in live' && live'[g] == generation && live'.Keys == live.Keys + {g}
    && forall h :: h in live ==>
         if Displaces(generation, live[h]) then MadeRecent(live[h], live'[h]) else live'[h] == live[h]
  }

  /** The root is there, and the roots of displaced generations are made recent with them. */
  ghost predicate RootsLeft(s: State, roots': map<nat, GcRoot>, generation: LiveGeneration, r: nat, root: GcRoot) {
    && r !in s.roots && r in roots' && roots'[r] == root && roots'.Keys == s.roots.Keys + {r}
    && forall h :: h in s.roots ==>
         if h in s.live && Displaces(generation, s.live[h]) then RootMadeRecent(s.roots[h], roots'[h])
         else roots'[h] == s.roots[h]
  }

  /** Generation and root are there, what they displace is demoted, and the counters lie above. */
  ghost predicate ActivationLeft(s: State, s': State, g: nat, generation: LiveGeneration, r: nat, root: GcRoot) {
    && LiveLeft(s.live, s'.live, g, generation) && RootsLeft(s, s'.roots, generation, r, root)
    && s'.allocation.nextPosition == s.allocation.nextPosition
    && LiftedTo(s.allocation.nextDeployment, s'.allocation.nextDeployment, generation.deployment)
    && LiftedTo(s.allocation.nextGeneration, s'.allocation.nextGeneration, g)
    && DeploymentsKept(s, s') && s'.events == s.events && s'.containers == s.containers
    && Commits(s, s') && ActivationLogged(s, s', g, generation, r)
  }

  ghost predicate ActivationLogged(s: State, s': State, g: nat, generation: LiveGeneration, r: nat)
    requires s'.sequence in s'.log
  {
    forall row :: row in s'.log[s'.sequence] <==> Activated(s, g, generation, r, row)
  }

  ghost predicate Activated(s: State, g: nat, generation: LiveGeneration, r: nat, row: RowName) {
    match row
    case LiveRow(h) => h == g || (h in s.live && Displaces(generation, s.live[h]))
    case RootRow(h) => h == r || (h in s.roots && h in s.live && Displaces(generation, s.live[h]))
    case AllocationRow => true
    case _ => false
  }

  /** A counter is as it was or just above what was used, whichever is higher. */
  ghost predicate LiftedTo(counter: nat, counter': nat, used: nat) {
    counter <= counter' && used < counter' && (counter' == counter || counter' == used + 1)
  }

  lemma ActivationEffect(s: State, g: nat, generation: LiveGeneration, r: nat, root: GcRoot)
    ensures var o := RecordActivation(s, g, generation, r, root);
            if o.Done? then ActivationLeft(s, o.state, g, generation, r, root) else o.state == s
  {
    hide CanonicalClosure, ActivationLogged, LiveLeft, RootsLeft;
    if RecordActivation(s, g, generation, r, root).Done? {
      ActivationRows(s, g, generation, r, root);
      ActivationLogs(s, g, generation, r, root);
    }
  }

  lemma ActivationRows(s: State, g: nat, generation: LiveGeneration, r: nat, root: GcRoot)
    requires RecordActivation(s, g, generation, r, root).Done?
    ensures var s' := RecordActivation(s, g, generation, r, root).state;
            LiveLeft(s.live, s'.live, g, generation) && RootsLeft(s, s'.roots, generation, r, root)
  {
    hide CanonicalClosure;
  }

  lemma ActivationLogs(s: State, g: nat, generation: LiveGeneration, r: nat, root: GcRoot)
    requires RecordActivation(s, g, generation, r, root).Done?
    ensures var s' := RecordActivation(s, g, generation, r, root).state;
            Commits(s, s') && ActivationLogged(s, s', g, generation, r)
  {
    hide CanonicalClosure;
    var s' := RecordActivation(s, g, generation, r, root).state;
    forall row ensures row in s'.log[s'.sequence] <==> Activated(s, g, generation, r, row) {
      match row
      case LiveRow(h) => assert h in PriorCurrent(s.live, generation) <==> h in s.live && Displaces(generation, s.live[h]);
      case RootRow(h) => assert h in PriorCurrent(s.live, generation) <==> h in s.live && Displaces(generation, s.live[h]);
      case _ =>
    }
  }

  ghost predicate RootLeft(s: State, s': State, g: nat, root: Option<GcRoot>) {
    && g in s.roots && s'.roots - {g} == s.roots - {g}
    && (if root.None? then g !in s'.roots else g in s'.roots && s'.roots[g] == root.value)
    && DeploymentsKept(s, s') && s'.events == s.events && s'.containers == s.containers && s'.live == s.live
    && s'.allocation == s.allocation && Logs(s, s', {RootRow(g)})
  }

  lemma RootEffects(s: State, g: nat, root: GcRoot)
    ensures var o := MutateRoot(s, g, root);
            if o.Done? then CanonicalClosure(root.closure) && RootLeft(s, o.state, g, Some(root)) else o.state == s
    ensures var o := RetractRoot(s, g); if o.Done? then RootLeft(s, o.state, g, None) else o.state == s && g !in s.roots
  {
    hide CanonicalClosure;
  }

  // ---- opening -----------------------------------------------------------

  /** Rows in flight are deliverable again, with their attempts; every other row is as it was. */
  ghost predicate RowsRequeued(outbox: map<OutboxKey, OutboxRow>, outbox': map<OutboxKey, OutboxRow>) {
    && outbox'.Keys == outbox.Keys
    && forall o :: o in outbox ==>
         && outbox'[o].event == outbox[o].event && outbox'[o].retries == outbox[o].retries
         && outbox'[o].delivery == (if outbox[o].delivery == Dispatched then Undelivered else outbox[o].delivery)
  }

  ghost predicate RequeueLeft(s: State, s': State) {
    && RowsRequeued(s.outbox, s'.outbox)
    && s'.intents == s.intents && s'.records == s.records && s'.jobs == s.jobs && LedgersKept(s, s')
    && s'.allocation == s.allocation
    && (if forall o :: o in s.outbox ==> s.outbox[o].delivery != Dispatched then s' == s
        else Commits(s, s') && RequeueLogged(s, s'))
  }

  ghost predicate RequeueLogged(s: State, s': State)
    requires s'.sequence in s'.log
  {
    forall row :: row in s'.log[s'.sequence] <==>
      row.OutboxRowName? && row.outbox in s.outbox && s.outbox[row.outbox].delivery == Dispatched
  }

  lemma RequeueEffect(s: State)
    ensures RequeueLeft(s, Requeue(s))
  {
    hide RowsRequeued;
    var flying := set o | o in s.outbox && s.outbox[o].delivery == Dispatched;
    RequeuedRows(s);
    if flying == {} {
      forall o | o in s.outbox ensures s.outbox[o].delivery != Dispatched {
        assert o !in flying;
      }
    } else {
      var o :| o in flying;
      assert o in s.outbox && s.outbox[o].delivery == Dispatched;
    }
  }

  lemma RequeuedRows(s: State)
    ensures RowsRequeued(s.outbox, Requeue(s).outbox)
  {
    var flying := set o | o in s.outbox && s.outbox[o].delivery == Dispatched;
    if flying == {} {
      forall o | o in s.outbox ensures s.outbox[o].delivery != Dispatched {
        assert o !in flying;
      }
    }
  }

  /** Every journalled event has a delivery; a row that was missing carries it, deliverable and never tried. */
  ghost predicate ReconciliationLeft(s: State, s': State) {
    && (forall o :: o in s.outbox ==> o in s'.outbox && s'.outbox[o] == s.outbox[o])
    && (forall p :: p in s.events && s.events[p].Deployment? ==>
          KeyOf(s.events[p].event) in s'.outbox && s'.outbox[KeyOf(s.events[p].event)].event == s.events[p].event)
    && (forall o :: o in s'.outbox && o !in s.outbox ==>
          && s'.outbox[o].delivery == Undelivered && s'.outbox[o].retries == 0
          && exists p :: p in s.events && s.events[p] == Deployment(s'.outbox[o].event) && KeyOf(s'.outbox[o].event) == o)
    && s'.intents == s.intents && s'.records == s.records && s'.jobs == s.jobs && LedgersKept(s, s')
    && s'.allocation == s.allocation
    && (if s'.outbox == s.outbox then s' == s
        else Commits(s, s') && AdditionsLogged(s, s'))
  }

  ghost predicate AdditionsLogged(s: State, s': State)
    requires s'.sequence in s'.log
  {
    forall row :: row in s'.log[s'.sequence] <==> row.OutboxRowName? && row.outbox in s'.outbox && row.outbox !in s.outbox
  }

  lemma ReconciliationEffect(s: State)
    ensures var o := ReconcileOutbox(s); if o.Done? then ReconciliationLeft(s, o.state) else o.state == s
  {
    hide ReconciliationLeft;
    if !OutboxConflict(s) {
      if MissingDeliveries(s) == {} { NothingMissing(s); } else { MissingAdded(s, ReconcileOutbox(s).state); }
    }
  }

  lemma NothingMissing(s: State)
    requires !OutboxConflict(s) && MissingDeliveries(s) == {}
    ensures ReconciliationLeft(s, s)
  {
    forall p | p in s.events && s.events[p].Deployment?
      ensures KeyOf(s.events[p].event) in s.outbox && s.outbox[KeyOf(s.events[p].event)].event == s.events[p].event
    {
      assert Journalled(s, p) && p !in MissingDeliveries(s);
    }
  }

  lemma MissingAdded(s: State, s': State)
    requires !OutboxConflict(s) && MissingDeliveries(s) != {} && ReconcileOutbox(s) == Done(s')
    ensures ReconciliationLeft(s, s')
  {
    hide OutboxConflict, MissingEvent;
    forall p | p in s.events && s.events[p].Deployment?
      ensures KeyOf(s.events[p].event) in s'.outbox && s'.outbox[KeyOf(s.events[p].event)].event == s.events[p].event
    {
      EventDelivered(s, s', p);
    }
    forall o | o in s'.outbox && o !in s.outbox
      ensures s'.outbox[o].delivery == Undelivered && s'.outbox[o].retries == 0
      ensures exists p :: p in s.events && s.events[p] == Deployment(s'.outbox[o].event) && KeyOf(s'.outbox[o].event) == o
    {
      AdditionExplained(s, s', o);
    }
    hide ReconcileOutbox, AdditionsLogged;
    AdditionsLog(s, s');
  }

  lemma AdditionsLog(s: State, s': State)
    requires !OutboxConflict(s) && MissingDeliveries(s) != {} && ReconcileOutbox(s) == Done(s')
    ensures Commits(s, s') && AdditionsLogged(s, s') && s'.outbox != s.outbox
    ensures s'.intents == s.intents && s'.records == s.records && s'.jobs == s.jobs && LedgersKept(s, s')
    ensures s'.allocation == s.allocation && forall o :: o in s.outbox ==> o in s'.outbox && s'.outbox[o] == s.outbox[o]
  {
    hide OutboxConflict, MissingEvent;
    var p :| p in MissingDeliveries(s);
    assert KeyOf(s.events[p].event) in s'.outbox && KeyOf(s.events[p].event) !in s.outbox;
  }

  lemma EventDelivered(s: State, s': State, p: nat)
    requires !OutboxConflict(s) && MissingDeliveries(s) != {} && ReconcileOutbox(s) == Done(s')
    requires p in s.events && s.events[p].Deployment?
    ensures KeyOf(s.events[p].event) in s'.outbox && s'.outbox[KeyOf(s.events[p].event)].event == s.events[p].event
  {
    var missing := MissingDeliveries(s);
    var o := KeyOf(s.events[p].event);
    assert Journalled(s, p);
    if o !in s.outbox {
      assert p in missing;
      var q :| q in missing && KeyOf(s.events[q].event) == o && MissingEvent(s, o) == s.events[q].event;
      assert Journalled(s, q);
    }
  }

  lemma AdditionExplained(s: State, s': State, o: OutboxKey)
    requires !OutboxConflict(s) && MissingDeliveries(s) != {} && ReconcileOutbox(s) == Done(s')
    requires o in s'.outbox && o !in s.outbox
    ensures s'.outbox[o].delivery == Undelivered && s'.outbox[o].retries == 0
    ensures exists p :: p in s.events && s.events[p] == Deployment(s'.outbox[o].event) && KeyOf(s'.outbox[o].event) == o
  {
    hide OutboxConflict;
    var missing := MissingDeliveries(s);
    var q :| q in missing && KeyOf(s.events[q].event) == o && MissingEvent(s, o) == s.events[q].event;
    assert s.events[q] == Deployment(s'.outbox[o].event);
  }

  // ---- every operation ---------------------------------------------------

  /** What a step that was accepted leaves. */
  ghost predicate Left(s: State, s': State, step: Step) {
    match step
    case Admit(identity, job) => AdmissionLeft(s, s', identity, job)
    case Reject(identity, terminal) => RejectionLeft(s, s', identity, terminal)
    case Terminate(d, terminal) => TerminalLeft(s, s', d, Above(OrdinalsOf(s.intents, d)), terminal)
    case Advance(d, lifecycle, _, job, event) => PhaseLeft(s, s', d, Above(OrdinalsOf(s.intents, d)), lifecycle, job, event)
    case BindStep(key) => if s' == s then key in s.intents && s.intents[key].marker.Some? else BindLeft(s, s', key)
    case DispatchStep(key) => DispatchLeft(s, s', key)
    case AppendStep(key) => AppendLeft(s, s', key)
    case AcknowledgeStep(key) => AcknowledgeLeft(s, s', key)
    case Reserve => ReservationLeft(s, s', s.allocation.nextPosition)
    case AppendOther(p, entry) => EntryLeft(s, s', p, entry)
    case ContainerStep(cp, container, p, entry) => ContainerLeft(s, s', cp, container, p, entry)
    case CompactStep(_) => CompactionLeft(s, s')
    case TruncateStep(kept) => TruncationLeft(s, s', kept)
    case ReviseStep(d, revision) => RevisionLeft(s, s', d, revision)
    case ResolveStep(d, revision, _, job) => ResolutionLeft(s, s', d, revision, job)
    case UpsertStep(d, job) => UpsertLeft(s, s', d, job)
    case RetractStep(d) => RetractionLeft(s, s', d)
    case ActivateStep(g, generation, r, root) => ActivationLeft(s, s', g, generation, r, root)
    case MutateRootStep(g, root) => RootLeft(s, s', g, Some(root))
    case RetractRootStep(g) => RootLeft(s, s', g, None)
    case RequeueStep => RequeueLeft(s, s')
    case ReconcileStep => ReconciliationLeft(s, s')
  }

  /** Of the log, the entries kept as they were; of the tables, everything. */
  ghost predicate TruncationLeft(s: State, s': State, kept: set<nat>) {
    && (forall c :: c in s'.log <==> c in s.log && c in kept) && (forall c :: c in s'.log ==> s'.log[c] == s.log[c])
    && DeploymentsKept(s, s') && LedgersKept(s, s') && s'.allocation == s.allocation && s'.sequence == s.sequence
  }

  /**
    Every operation, accepted, leaves exactly what it promises, field by field
    and in every table; refused, it leaves the store as it was.
  */
  lemma StepLeaves(s: State, step: Step)
    requires Inv(s)
    ensures var o := Attempt(s, step); if o.Done? then Left(s, o.state, step) else o.state == s
  {
    hide Left, Attempt;
    if IsTransition(step) { TransitionLeaves(s, step); } else { OtherLeaves(s, step); }
  }

  predicate IsTransition(step: Step) {
    step.Admit? || step.Reject? || step.Terminate? || step.Advance?
    || step.BindStep? || step.DispatchStep? || step.AppendStep? || step.AcknowledgeStep?
  }

  lemma TransitionLeaves(s: State, step: Step)
    requires Inv(s) && IsTransition(step)
    ensures var o := Attempt(s, step); if o.Done? then Left(s, o.state, step) else o.state == s
  {
    hide BeginAdmission, BeginRejection, BeginTerminal, BeginPhase, Bind, Dispatch, Append, Acknowledge;
    hide AdmissionLeft, RejectionLeft, TerminalLeft, PhaseLeft, BindLeft, DispatchLeft, AppendLeft, AcknowledgeLeft;
    hide Above, OrdinalsOf, Sequenced, Born, Marked, Logged, Positioned, Carried, Awaited, Covered, Ending;
    match step
    case Admit(identity, job) => AdmissionEffect(s, identity, job);
    case Reject(identity, terminal) => RejectionEffect(s, identity, terminal);
    case Terminate(d, terminal) => TerminalEffect(s, d, terminal);
    case Advance(d, lifecycle, jd, job, event) => PhaseEffect(s, d, lifecycle, jd, job, event);
    case BindStep(key) => BindEffect(s, key);
    case DispatchStep(key) => DispatchEffect(s, key);
    case AppendStep(key) => AppendEffect(s, key);
    case AcknowledgeStep(key) => AcknowledgeEffect(s, key);
  }

  lemma OtherLeaves(s: State, step: Step)
    requires !IsTransition(step)
    ensures var o := Attempt(s, step); if o.Done? then Left(s, o.state, step) else o.state == s
  {
    hide AllocatePosition, AppendEntry, RecordContainer, Compact, SetRevision, RecordResolvedSource, UpsertJob, RetractJob;
    hide RecordActivation, MutateRoot, RetractRoot, Requeue, ReconcileOutbox;
    hide ReservationLeft, EntryLeft, ContainerLeft, CompactionLeft, RevisionLeft, ResolutionLeft, UpsertLeft, RetractionLeft;
    hide ActivationLeft, RootLeft, RequeueLeft, ReconciliationLeft;
    match step
    case Reserve => ReservationEffect(s);
    case AppendOther(p, entry) => EntryEffect(s, p, entry);
    case ContainerStep(cp, container, p, entry) => ContainerEffect(s, cp, container, p, entry);
    case CompactStep(retention) => CompactionEffect(s, retention);
    case TruncateStep(_) =>
    case ReviseStep(d, revision) => RevisionEffect(s, d, revision);
    case ResolveStep(d, revision, jd, job) => ResolutionEffect(s, d, revision, jd, job);
    case UpsertStep(d, job) => UpsertEffect(s, d, job);
    case RetractStep(d) => RetractionEffect(s, d);
    case ActivateStep(g, generation, r, root) => ActivationEffect(s, g, generation, r, root);
    case MutateRootStep(g, root) => RootEffects(s, g, root);
    case RetractRootStep(g) => RootEffects(s, g, GcRoot("", "", Recent, "", None));
    case RequeueStep => RequeueEffect(s);
    case ReconcileStep => ReconciliationEffect(s);
  }
}
