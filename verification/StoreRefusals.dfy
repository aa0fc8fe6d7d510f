/**
  When an operation is refused and with what: the first of its checks that
  fails, in the order they are made, and nothing else.
*/
module StoreRefusals {
  import opened Options
  import opened StoreModel
  import opened StoreScans
  import opened StoreEffects

  /** This error if the check fails, and otherwise what the checks after it say. */
  function Or(fails: bool, error: StoreError, rest: Option<StoreError>): Option<StoreError> {
    if fails then Some(error) else rest
  }

  /** Some transition of the deployment is not acknowledged. */
  ghost predicate HasPending(s: State, d: nat) {
    exists key :: key in s.intents && key.deployment == d && s.intents[key].state != Acknowledged
  }

  /** The next ordinal of the deployment does not fit. */
  ghost predicate OrdinalsSpent(s: State, d: nat) {
    exists key :: key in s.intents && key.deployment == d && key.ordinal >= MAX_U64
  }

  predicate Spent(counter: nat) {
    counter >= MAX_U64
  }

  function PowerOfTwo(n: nat): nat {
    if n == 0 then 1 else 2 * PowerOfTwo(n - 1)
  }

  /** Counters are 64 bits wide, and the last value is never given out. */
  lemma CountersAreWide(counter: nat)
    ensures Spent(counter) <==> counter + 1 >= PowerOfTwo(64)
  {
    assert PowerOfTwo(8) == 0x100;
    PowerTwice(8);
    PowerTwice(16);
    PowerTwice(32);
  }

  lemma PowerTwice(n: nat)
    ensures PowerOfTwo(n + n) == PowerOfTwo(n) * PowerOfTwo(n)
  {
    PowerSum(n, n);
  }

  lemma {:induction false} PowerSum(m: nat, n: nat)
    ensures PowerOfTwo(m + n) == PowerOfTwo(m) * PowerOfTwo(n)
    decreases m
  {
    if m > 0 { PowerSum(m - 1, n); }
  }

  predicate Uncanonical(job: DeployJob) {
    job.closure.Some? && !CanonicalClosure(job.closure.value)
  }

  predicate Ends(lifecycle: DeploymentPhase) {
    lifecycle == Completed || lifecycle == RejectedPhase || lifecycle == FailedPhase
  }

  lemma OrdinalsFit(s: State, d: nat)
    ensures Above(OrdinalsOf(s.intents, d)) > MAX_U64 <==> OrdinalsSpent(s, d)
    ensures EarlierPending(s.intents, d) <==> HasPending(s, d)
  {
    NextOrdinal(s, d);
  }

  // ---- beginning a transition --------------------------------------------

  lemma AdmissionRefused(s: State, identity: RequestIdentity, job: DeployJob)
    ensures var a := s.allocation; var d := a.nextDeployment;
            ErrorOf(BeginAdmission(s, identity, job)) ==
              Or(Uncanonical(job), UncanonicalClosure,
              Or(job.phase != JobSubmitted || job.cluster != identity.cluster || job.node != identity.node, CursorMismatch,
              Or(Spent(d) || Spent(a.nextGeneration) || Spent(a.nextPosition), IdentifierSpaceExhausted,
              Or(d in s.records || d in s.jobs || IntentKey(d, 0) in s.intents, RowConflict, None))))
  {
    hide CanonicalClosure;
  }

  lemma RejectionRefused(s: State, identity: RequestIdentity, terminal: DeploymentTerminal)
    ensures var a := s.allocation; var d := a.nextDeployment;
            ErrorOf(BeginRejection(s, identity, terminal)) ==
              Or(Spent(d) || Spent(a.nextGeneration) || Spent(a.nextPosition), IdentifierSpaceExhausted,
              Or(d in s.records || IntentKey(d, 0) in s.intents, RowConflict, None))
  {
  }

  lemma TerminalRefused(s: State, d: nat, terminal: DeploymentTerminal)
    ensures ErrorOf(BeginTerminal(s, d, terminal)) ==
              Or(d !in s.records, MissingRecord,
              Or(d in s.records && s.records[d].terminal.Some?, AlreadyTerminal,
              Or(HasPending(s, d), EarlierUnacknowledged,
              Or(OrdinalsSpent(s, d) || Spent(s.allocation.nextPosition), IdentifierSpaceExhausted, None))))
  {
    hide Above, OrdinalsOf, OrdinalsSpent, HasPending, EarlierPending;
    OrdinalsFit(s, d);
  }

  lemma PhaseRefused(s: State, d: nat, lifecycle: DeploymentPhase, jobDeployment: nat, job: DeployJob, event: PhaseEvent)
    ensures ErrorOf(BeginPhase(s, d, lifecycle, jobDeployment, job, event)) ==
              Or(Ends(lifecycle), TerminalPhase,
              Or(Uncanonical(job), UncanonicalClosure,
              Or(jobDeployment != d, CursorMismatch,
              Or(event.deployment != d, EventMismatch,
              Or(d !in s.records, MissingRecord,
              Or(d !in s.jobs, MissingJob,
              Or(d in s.records && !About(event, s.records[d]), EventMismatch,
              Or(HasPending(s, d), EarlierUnacknowledged,
              Or(event.position in s.events, PositionOccupied,
              Or(OrdinalsSpent(s, d), IdentifierSpaceExhausted, None))))))))))
  {
    hide Above, OrdinalsOf, OrdinalsSpent, HasPending, EarlierPending, CanonicalClosure;
    OrdinalsFit(s, d);
  }

  /** The event is about this record's generation and place. */
  predicate About(event: PhaseEvent, record: DeploymentRecord) {
    && event.generation == record.generation
    && event.cluster == record.identity.cluster && event.node == record.identity.node
  }

  // ---- driving a transition ----------------------------------------------

  /** The commits of the log that name the transition and its record. */
  ghost predicate NamedBy(s: State, key: IntentKey, c: nat) {
    c in s.log && IntentRow(key) in s.log[c] && RecordRow(key.deployment) in s.log[c]
  }

  ghost predicate Unnamed(s: State, key: IntentKey) {
    forall c :: !NamedBy(s, key, c)
  }

  ghost predicate NamedTwice(s: State, key: IntentKey) {
    exists c, e :: NamedBy(s, key, c) && NamedBy(s, key, e) && c != e
  }

  predicate Waits(s: State, key: IntentKey) {
    key in s.intents && s.intents[key].marker.None?
  }

  /** Binding at a marker finds its delivery taken, its record gone, or the record ended otherwise. */
  ghost predicate Taken(s: State, key: IntentKey, c: nat) {
    NamedBy(s, key, c) && OutboxKey(key.deployment, c) in s.outbox
  }

  ghost predicate TakenByOther(s: State, key: IntentKey, c: nat)
    requires key in s.intents
  {
    Taken(s, key, c) && !Carries(s.outbox[OutboxKey(key.deployment, c)].event, key, s.intents[key], c)
  }

  predicate Marking(intent: Intent) {
    intent.phase == Submitted || intent.terminal.Some?
  }

  lemma BindRefused(s: State, key: IntentKey)
    ensures var waits := Waits(s, key);
            ErrorOf(Bind(s, key)) ==
              Or(key !in s.intents, MissingIntent,
              Or(waits && Unnamed(s, key), NoSourceCommit,
              Or(waits && NamedTwice(s, key), ManySourceCommits,
              Or(waits && exists c :: TakenByOther(s, key, c), PayloadMismatch,
              Or(waits && exists c :: Taken(s, key, c), AlreadyBound,
              Or(waits && Marking(s.intents[key]) && key.deployment !in s.records, MissingRecord,
              Or(waits && s.intents[key].terminal.Some? && key.deployment in s.records
                 && s.records[key.deployment].terminal != s.intents[key].terminal, TerminalDisagrees, None)))))))
  {
    hide NamedBy, Carries;
    if Waits(s, key) {
      SourcesAre(s, key);
      var sources := SourceCommits(s.log, key);
      if sources == {} {
      } else {
        var c :| c in sources;
        if sources != {c} {
          MoreThanOne(s, key, c);
          var e :| e in sources && e != c;
          assert NamedBy(s, key, c) && NamedBy(s, key, e);
        } else {
          OnlySource(s, key, c);
          BoundRefused(s, key, c);
        }
      }
    }
  }

  lemma SourcesAre(s: State, key: IntentKey)
    ensures forall c :: c in SourceCommits(s.log, key) <==> NamedBy(s, key, c)
  {
  }

  lemma BoundRefused(s: State, key: IntentKey, c: nat)
    requires Waits(s, key) && SourceCommits(s.log, key) == {c}
    ensures NamedBy(s, key, c) && forall e :: NamedBy(s, key, e) ==> e == c
    ensures ErrorOf(BindTo(s, key, c)) ==
              Or(TakenByOther(s, key, c), PayloadMismatch,
              Or(Taken(s, key, c), AlreadyBound,
              Or(Marking(s.intents[key]) && key.deployment !in s.records, MissingRecord,
              Or(s.intents[key].terminal.Some? && key.deployment in s.records
                 && s.records[key.deployment].terminal != s.intents[key].terminal, TerminalDisagrees, None))))
  {
    assert c in SourceCommits(s.log, key);
    forall e | NamedBy(s, key, e) ensures e == c {
      assert e in SourceCommits(s.log, key);
    }
  }

  /** The delivery row of a bound transition. */
  predicate Delivers(s: State, key: IntentKey, row: OutboxKey) {
    key in s.intents && s.intents[key].marker.Some? && row == OutboxKey(key.deployment, s.intents[key].marker.value)
  }

  lemma DispatchRefused(s: State, key: IntentKey, row: OutboxKey)
    requires Delivers(s, key, row) || key !in s.intents || s.intents[key].marker.None?
    ensures ErrorOf(Dispatch(s, key)) ==
              Or(key !in s.intents, MissingIntent,
              Or(key in s.intents && s.intents[key].marker.None?, Unbound,
              Or(row !in s.outbox, MissingOutbox,
              Or(Delivers(s, key, row) && row in s.outbox
                 && !Carries(s.outbox[row].event, key, s.intents[key], row.marker), PayloadMismatch,
              Or(row in s.outbox && s.outbox[row].delivery == Undelivered && Spent(s.outbox[row].retries),
                 IdentifierSpaceExhausted, None)))))
  {
  }

  /** The journal holds something else at the position of the transition. */
  ghost predicate Disputed(s: State, key: IntentKey)
    requires key in s.intents && s.intents[key].marker.Some?
  {
    var position := s.intents[key].position;
    position in s.events && !(s.events[position].Deployment?
                              && Carries(s.events[position].event, key, s.intents[key], s.intents[key].marker.value))
  }

  lemma AppendRefused(s: State, key: IntentKey)
    ensures ErrorOf(Append(s, key)) ==
              Or(key !in s.intents, MissingIntent,
              Or(Waits(s, key), Unbound,
              Or(key in s.intents && !Waits(s, key) && Disputed(s, key), JournalMismatch, None)))
  {
  }

  lemma AcknowledgeRefused(s: State, key: IntentKey, row: OutboxKey)
    requires Delivers(s, key, row) || key !in s.intents || s.intents[key].marker.None?
    ensures ErrorOf(Acknowledge(s, key)) ==
              Or(key !in s.intents, MissingIntent,
              Or(Waits(s, key), Unbound,
              Or(key in s.intents && !Waits(s, key) && (s.intents[key].position !in s.events || Disputed(s, key)), JournalAbsent,
              Or(row !in s.outbox, MissingOutbox,
              Or(Delivers(s, key, row) && row in s.outbox
                 && !Carries(s.outbox[row].event, key, s.intents[key], row.marker), PayloadMismatch, None)))))
  {
  }

  // ---- everything else ---------------------------------------------------

  lemma OtherRefused(s: State, position: nat, entry: LoggedEvent, container: ContainerRecord, at: nat, d: nat,
                     revision: string, jobDeployment: nat, job: DeployJob)
    ensures ErrorOf(AppendEntry(s, position, entry)) ==
              Or(entry.Deployment?, DeploymentEntryRefused,
              Or(position >= s.allocation.nextPosition && Spent(position), IdentifierSpaceExhausted,
              Or(position in s.events, RowConflict, None)))
    ensures ErrorOf(RecordContainer(s, at, container, position, entry)) ==
              Or(at in s.containers || position in s.events, RowConflict, None)
    ensures ErrorOf(RecordResolvedSource(s, d, revision, jobDeployment, job)) ==
              Or(Uncanonical(job), UncanonicalClosure,
              Or(d !in s.records, MissingRecord,
              Or(jobDeployment != d, CursorMismatch,
              Or(d !in s.jobs, RowConflict, None))))
    ensures ErrorOf(UpsertJob(s, d, job)) == Or(Uncanonical(job), UncanonicalClosure, None)
    ensures ErrorOf(AllocatePosition(s)) == Or(Spent(s.allocation.nextPosition), IdentifierSpaceExhausted, None)
  {
    hide CanonicalClosure;
  }

  lemma ActivationRefused(s: State, g: nat, generation: LiveGeneration, r: nat, root: GcRoot)
    ensures ErrorOf(RecordActivation(s, g, generation, r, root)) ==
              Or(!CanonicalClosure(generation.closure) || !CanonicalClosure(root.closure), UncanonicalClosure,
              Or(Spent(generation.deployment) || Spent(g), IdentifierSpaceExhausted,
              Or(g in s.live || r in s.roots, RowConflict, None)))
  {
    hide CanonicalClosure;
  }
}
