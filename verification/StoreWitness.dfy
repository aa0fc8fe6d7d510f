/**
  Short runs of a fresh store that end where the store can go no further. Each
  is a run the code can take, for any request and any restart cursor it admits.
*/
module StoreWitness {
  import opened Options
  import opened StoreModel
  import opened StoreInvariant
  import opened StorePreservation
  import opened StoreReopen
  import opened StoreScans

  const FIRST: IntentKey := IntentKey(1, 0)
  const SECOND: IntentKey := IntentKey(2, 0)
  const THIRD: IntentKey := IntentKey(1, 1)

  predicate Admissible(identity: RequestIdentity, cursor: DeployJob) {
    FreshJob(cursor) && cursor.phase == JobSubmitted && cursor.cluster == identity.cluster && cursor.node == identity.node
  }

  /** Admit a deployment, deliver its admission, and admit another. */
  function Prelude(identity: RequestIdentity, cursor: DeployJob): seq<Step> {
    [Admit(identity, cursor), BindStep(FIRST), DispatchStep(FIRST), AppendStep(FIRST), AcknowledgeStep(FIRST),
     Admit(identity, cursor)]
  }

  function RecordOf(identity: RequestIdentity, generation: nat, marker: Option<nat>): DeploymentRecord {
    DeploymentRecord(generation, identity, marker, Submitted, None, None)
  }

  function IntentFor(identity: RequestIdentity, generation: nat, position: nat, marker: Option<nat>, state: IntentState): Intent {
    Intent(generation, identity.cluster, identity.node, Submitted, position, identity.revision, None, marker, state)
  }

  /** The store one admission makes of a fresh one. */
  function Admitted(identity: RequestIdentity, cursor: DeployJob): State {
    EMPTY.(
      intents := map[FIRST := IntentFor(identity, 1, 0, None, Pending)],
      records := map[1 := RecordOf(identity, 1, None)],
      jobs := map[1 := cursor.(generation := 1)],
      allocation := Allocation(2, 2, 1), sequence := 1,
      log := map[1 := {AllocationRow, RecordRow(1), JobRow(1), IntentRow(FIRST)}],
      history := History(map[FIRST := 1], map[1 := FIRST], map[0 := FIRST], {}, map[1 := 1]))
  }

  function FirstEvent(identity: RequestIdentity): PhaseEvent {
    EventAt(FIRST, IntentFor(identity, 1, 0, Some(1), Bound), 1)
  }

  /** The same once the admission is delivered, with what its four commits logged. */
  function Delivered1(identity: RequestIdentity, cursor: DeployJob): State {
    Admitted(identity, cursor).(
      intents := map[FIRST := IntentFor(identity, 1, 0, Some(1), Acknowledged)],
      outbox := map[OutboxKey(1, 1) := OutboxRow(FirstEvent(identity), Delivered, 1)],
      events := map[0 := Deployment(FirstEvent(identity))],
      records := map[1 := RecordOf(identity, 1, Some(1))],
      sequence := 5,
      log := map[1 := {AllocationRow, RecordRow(1), JobRow(1), IntentRow(FIRST)},
                 2 := {IntentRow(FIRST), OutboxRowName(OutboxKey(1, 1)), RecordRow(1)},
                 3 := {OutboxRowName(OutboxKey(1, 1))},
                 4 := {EventRow(0), IntentRow(FIRST)},
                 5 := {OutboxRowName(OutboxKey(1, 1)), IntentRow(FIRST)}])
  }

  lemma AdmitFirst(identity: RequestIdentity, cursor: DeployJob)
    requires Admissible(identity, cursor)
    ensures Attempt(EMPTY, Admit(identity, cursor)) == Done(Admitted(identity, cursor))
  {
    hide FreshJob;
    assert CanTake(1) && CanTake(0);
  }

  lemma BindFirst(identity: RequestIdentity, cursor: DeployJob)
    ensures var s := Admitted(identity, cursor);
            Bind(s, FIRST) == Done(s.(
              intents := map[FIRST := IntentFor(identity, 1, 0, Some(1), Bound)],
              outbox := map[OutboxKey(1, 1) := OutboxRow(FirstEvent(identity), Undelivered, 0)],
              records := map[1 := RecordOf(identity, 1, Some(1))],
              sequence := 2,
              log := s.log[2 := {IntentRow(FIRST), OutboxRowName(OutboxKey(1, 1)), RecordRow(1)}]))
  {
    var s := Admitted(identity, cursor);
    assert SourceCommits(s.log, FIRST) == {1};
    OnlySource(s, FIRST, 1);
    var b := BindTo(s, FIRST, 1).state;
    assert {IntentRow(FIRST), OutboxRowName(OutboxKey(1, 1))} + {RecordRow(1)}
        == {IntentRow(FIRST), OutboxRowName(OutboxKey(1, 1)), RecordRow(1)};
    assert b.intents == map[FIRST := IntentFor(identity, 1, 0, Some(1), Bound)];
    assert b.outbox == map[OutboxKey(1, 1) := OutboxRow(FirstEvent(identity), Undelivered, 0)];
    assert b.records == map[1 := RecordOf(identity, 1, Some(1))];
  }

  ghost function Bound1(identity: RequestIdentity, cursor: DeployJob): State {
    Bind(Admitted(identity, cursor), FIRST).state
  }

  ghost function InFlight1(identity: RequestIdentity, cursor: DeployJob): State {
    Dispatch(Bound1(identity, cursor), FIRST).state
  }

  ghost function Appended1(identity: RequestIdentity, cursor: DeployJob): State {
    Append(InFlight1(identity, cursor), FIRST).state
  }

  lemma DispatchFirst(identity: RequestIdentity, cursor: DeployJob)
    ensures var b := Bound1(identity, cursor);
            InFlight1(identity, cursor) == b.(
              outbox := map[OutboxKey(1, 1) := OutboxRow(FirstEvent(identity), Dispatched, 1)], sequence := 3,
              log := b.log[3 := {OutboxRowName(OutboxKey(1, 1))}])
  {
    BindFirst(identity, cursor);
  }

  lemma AppendFirst(identity: RequestIdentity, cursor: DeployJob)
    ensures var d := InFlight1(identity, cursor);
            Appended1(identity, cursor) == d.(
              events := map[0 := Deployment(FirstEvent(identity))],
              intents := map[FIRST := IntentFor(identity, 1, 0, Some(1), Appended)], sequence := 4,
              log := d.log[4 := {EventRow(0), IntentRow(FIRST)}])
  {
    BindFirst(identity, cursor);
    DispatchFirst(identity, cursor);
  }

  lemma AcknowledgeFirst(identity: RequestIdentity, cursor: DeployJob)
    ensures Acknowledge(Appended1(identity, cursor), FIRST) == Done(Delivered1(identity, cursor))
  {
    hide Append, Dispatch, Bind;
    BindFirst(identity, cursor);
    DispatchFirst(identity, cursor);
    AppendFirst(identity, cursor);
    var a := Appended1(identity, cursor);
    var k := Acknowledge(a, FIRST).state;
    assert {OutboxRowName(OutboxKey(1, 1)), IntentRow(FIRST)} + {} == {OutboxRowName(OutboxKey(1, 1)), IntentRow(FIRST)};
    assert k == a.(outbox := map[OutboxKey(1, 1) := OutboxRow(FirstEvent(identity), Delivered, 1)],
                   intents := map[FIRST := IntentFor(identity, 1, 0, Some(1), Acknowledged)], sequence := 5,
                   log := a.log[5 := {OutboxRowName(OutboxKey(1, 1)), IntentRow(FIRST)}]);
    assert k.log == Delivered1(identity, cursor).log;
  }

  // ---- a second admission ------------------------------------------------

  /** The store once a second deployment is admitted and nothing of it delivered. */
  function Waiting2(identity: RequestIdentity, cursor: DeployJob): State {
    var s := Delivered1(identity, cursor);
    s.(intents := s.intents[SECOND := IntentFor(identity, 2, 1, None, Pending)],
       records := s.records[2 := RecordOf(identity, 2, None)],
       jobs := s.jobs[2 := cursor.(generation := 2)],
       allocation := Allocation(3, 3, 2), sequence := 6,
       log := s.log[6 := {AllocationRow, RecordRow(2), JobRow(2), IntentRow(SECOND)}],
       history := History(s.history.births[SECOND := 6], s.history.origins[6 := SECOND], s.history.owners[1 := SECOND],
                          {}, s.history.counts[2 := 1]))
  }

  lemma AdmitSecond(identity: RequestIdentity, cursor: DeployJob)
    requires Admissible(identity, cursor)
    ensures Attempt(Delivered1(identity, cursor), Admit(identity, cursor)) == Done(Waiting2(identity, cursor))
  {
    SecondAdmission(Delivered1(identity, cursor), identity, cursor);
  }

  lemma SecondAdmission(s: State, identity: RequestIdentity, cursor: DeployJob)
    requires Admissible(identity, cursor)
    requires s.allocation == Allocation(2, 2, 1) && s.sequence == 5 && s.history.reserved == {}
    requires 2 !in s.records && 2 !in s.jobs && SECOND !in s.intents
    ensures BeginAdmission(s, identity, cursor) == Done(s.(
              intents := s.intents[SECOND := IntentFor(identity, 2, 1, None, Pending)],
              records := s.records[2 := RecordOf(identity, 2, None)],
              jobs := s.jobs[2 := cursor.(generation := 2)],
              allocation := Allocation(3, 3, 2), sequence := 6,
              log := s.log[6 := {AllocationRow, RecordRow(2), JobRow(2), IntentRow(SECOND)}],
              history := History(s.history.births[SECOND := 6], s.history.origins[6 := SECOND],
                                 s.history.owners[1 := SECOND], {}, s.history.counts[2 := 1])))
  {
    hide FreshJob;
    assert CanTake(2) && CanTake(1);
  }

  lemma Then(s: State, steps: seq<Step>, here: State, step: Step)
    requires DisciplinedRun(s, steps) && Run(s, steps) == here && Disciplined(here, step)
    ensures DisciplinedRun(s, steps + [step]) && Run(s, steps + [step]) == Attempt(here, step).state
  {
    hide Attempt, Disciplined;
    RunOne(here, step);
    RunTwice(s, steps, [step]);
  }

  /** The steps that follow the first dispatch, one by one. */
  lemma LaterSteps(identity: RequestIdentity, cursor: DeployJob)
    requires Admissible(identity, cursor)
    ensures Disciplined(InFlight1(identity, cursor), AppendStep(FIRST))
    ensures Attempt(InFlight1(identity, cursor), AppendStep(FIRST)).state == Appended1(identity, cursor)
    ensures Attempt(Appended1(identity, cursor), AcknowledgeStep(FIRST)).state == Delivered1(identity, cursor)
    ensures Attempt(Delivered1(identity, cursor), Admit(identity, cursor)).state == Waiting2(identity, cursor)
  {
    hide BeginAdmission, Bind, Dispatch, Append, Acknowledge, FreshJob, Waiting2, Delivered1;
    BindFirst(identity, cursor);
    DispatchFirst(identity, cursor);
    AcknowledgeFirst(identity, cursor);
    AdmitSecond(identity, cursor);
  }

  lemma PreludeRuns(identity: RequestIdentity, cursor: DeployJob)
    requires Admissible(identity, cursor)
    ensures DisciplinedRun(EMPTY, Prelude(identity, cursor))
    ensures Run(EMPTY, Prelude(identity, cursor)) == Waiting2(identity, cursor)
  {
    hide Run, DisciplinedRun, Attempt, FreshJob, InFlight1, Appended1, Delivered1, Waiting2;
    DispatchRuns(identity, cursor);
    LaterSteps(identity, cursor);
    var s3 := [Admit(identity, cursor), BindStep(FIRST), DispatchStep(FIRST)];
    Then(EMPTY, s3, InFlight1(identity, cursor), AppendStep(FIRST));
    var s4 := s3 + [AppendStep(FIRST)];
    Then(EMPTY, s4, Appended1(identity, cursor), AcknowledgeStep(FIRST));
    var s5 := s4 + [AcknowledgeStep(FIRST)];
    Then(EMPTY, s5, Delivered1(identity, cursor), Admit(identity, cursor));
    assert s5 + [Admit(identity, cursor)] == Prelude(identity, cursor);
  }

  /** The run up to the first delivery being in flight. */
  lemma DispatchRuns(identity: RequestIdentity, cursor: DeployJob)
    requires Admissible(identity, cursor)
    ensures var steps := [Admit(identity, cursor), BindStep(FIRST), DispatchStep(FIRST)];
            DisciplinedRun(EMPTY, steps) && Run(EMPTY, steps) == InFlight1(identity, cursor)
  {
    hide Run, DisciplinedRun, BeginAdmission, Bind, Dispatch, FreshJob;
    AdmitFirst(identity, cursor);
    DispatchFirst(identity, cursor);
    BindFirst(identity, cursor);
    NoSteps(EMPTY);
    Then(EMPTY, [], EMPTY, Admit(identity, cursor));
    var s1 := [] + [Admit(identity, cursor)];
    Then(EMPTY, s1, Admitted(identity, cursor), BindStep(FIRST));
    var s2 := s1 + [BindStep(FIRST)];
    Then(EMPTY, s2, Bound1(identity, cursor), DispatchStep(FIRST));
    assert s2 + [DispatchStep(FIRST)] == [Admit(identity, cursor), BindStep(FIRST), DispatchStep(FIRST)];
  }

  lemma NoSteps(s: State)
    ensures DisciplinedRun(s, []) && Run(s, []) == s
  {
  }

  // ---- the log dropped under an unbound transition -----------------------

  /** Compaction retires the first admission's event and its delivery. */
  ghost function Compacted(identity: RequestIdentity, cursor: DeployJob): State {
    Compact(Waiting2(identity, cursor), 0).state
  }

  lemma CompactRetires(identity: RequestIdentity, cursor: DeployJob)
    ensures var s := Waiting2(identity, cursor);
            && RetiredPositions(s, 0) == {0} && Compact(s, 0).Done?
            && Compacted(identity, cursor).events == map[] && Compacted(identity, cursor).outbox == map[]
            && Compacted(identity, cursor).intents == s.intents && Compacted(identity, cursor).records == s.records
  {
    var s := Waiting2(identity, cursor);
    assert s.events.Keys == {0};
    assert RetiredPositions(s, 0) == {0};
    var o := OutboxKey(1, 1);
    assert o in s.outbox && RetiredDelivery(s.outbox[o], {0});
  }

  lemma TruncationRuns(identity: RequestIdentity, cursor: DeployJob)
    requires Admissible(identity, cursor)
    ensures var history := Prelude(identity, cursor) + [CompactStep(0)] + [TruncateStep({})];
            DisciplinedRun(EMPTY, history) && Run(EMPTY, history) == TruncateLog(Compacted(identity, cursor), {})
  {
    hide Run, DisciplinedRun, Compact, FreshJob, TruncateLog;
    PreludeRuns(identity, cursor);
    CompactRetires(identity, cursor);
    var before := Prelude(identity, cursor);
    Then(EMPTY, before, Waiting2(identity, cursor), CompactStep(0));
    Then(EMPTY, before + [CompactStep(0)], Compacted(identity, cursor), TruncateStep({}));
  }

  /**
    One deployment admitted and delivered, another admitted and not yet bound,
    and a compaction that retires the first one's event and drops the commit
    log: every opening after that is refused for want of a source commit.
  */
  lemma TruncationStrands(identity: RequestIdentity, cursor: DeployJob)
    requires Admissible(identity, cursor)
    ensures var before := Prelude(identity, cursor);
            var history := before + [CompactStep(0)] + [TruncateStep({})];
            var s := Run(EMPTY, history);
            && DisciplinedRun(EMPTY, history)
            && RetiredPositions(Run(EMPTY, before), 0) != {}
            && Lists([FIRST, SECOND], s)
            && Open(s, [FIRST, SECOND]) == Refused(s, NoSourceCommit)
  {
    hide Run, DisciplinedRun, Compact, FreshJob, Open, Lists;
    PreludeRuns(identity, cursor);
    CompactRetires(identity, cursor);
    TruncationRuns(identity, cursor);
    StrandedOpen(TruncateLog(Compacted(identity, cursor), {}));
  }

  lemma StrandedOpen(s: State)
    requires s.log == map[] && s.outbox == map[] && s.intents.Keys == {FIRST, SECOND}
    requires s.intents[FIRST].state == Acknowledged && s.intents[SECOND].state == Pending && !IsBound(s.intents[SECOND])
    ensures Lists([FIRST, SECOND], s) && Open(s, [FIRST, SECOND]) == Refused(s, NoSourceCommit)
  {
    assert SourceCommits(s.log, SECOND) == {};
    assert Bind(s, SECOND) == Refused(s, NoSourceCommit);
    assert Requeue(s) == s;
    assert [FIRST, SECOND][1..] == [SECOND];
    assert Complete(s, SECOND) == Refused(s, NoSourceCommit);
    assert CompleteAll(s, s.intents, [SECOND]) == Refused(s, NoSourceCommit);
    assert CompleteAll(s, s.intents, [FIRST, SECOND]) == CompleteAll(s, s.intents, [SECOND]);
  }
}
