/** Restart cursors: a job row lives exactly from admission to the acknowledgement of its terminal. */
module StoreCursors {
  import opened StoreModel
  import opened StoreInvariant
  import opened StoreGroups
  import opened StorePreservation
  import opened StoreHistory

  /** A deployment whose first transition is not terminal was admitted; otherwise it was rejected. */
  ghost predicate CursorAt(intents: map<IntentKey, Intent>, counts: map<nat, nat>, jobs: set<nat>, d: nat) {
    && d in counts && 1 <= counts[d] && IntentKey(d, 0) in intents && LastOf(counts, d) in intents
    && var last := intents[LastOf(counts, d)];
       if intents[IntentKey(d, 0)].terminal.Some? then d !in jobs
       else d in jobs <==> !(last.terminal.Some? && last.state == Acknowledged)
  }

  ghost predicate Cursors(s: State) {
    forall d :: d in s.records ==> CursorAt(s.intents, s.history.counts, s.jobs.Keys, d)
  }

  /** No caller retracts a job row that is present. */
  ghost predicate KeepsCursors(s: State, step: Step) {
    step.RetractStep? ==> step.deployment !in s.jobs
  }

  ghost predicate CursorRun(s: State, steps: seq<Step>)
    decreases |steps|
  {
    steps == [] || (KeepsCursors(s, steps[0]) && CursorRun(Attempt(s, steps[0]).state, steps[1..]))
  }

  /** Only one deployment is touched, and it keeps its cursor rule. */
  lemma CursorsLocal(s: State, s': State, d: nat)
    requires Cursors(s) && SameElsewhere(s.intents, s'.intents, d)
    requires s'.records.Keys <= s.records.Keys + {d}
    requires s'.history.counts.Keys >= s.history.counts.Keys
    requires forall e :: e in s.history.counts && e != d ==> s'.history.counts[e] == s.history.counts[e]
    requires forall e :: e != d ==> (e in s'.jobs <==> e in s.jobs)
    requires d in s'.records ==> CursorAt(s'.intents, s'.history.counts, s'.jobs.Keys, d)
    ensures Cursors(s')
  {
    forall e | e in s'.records && e != d ensures CursorAt(s'.intents, s'.history.counts, s'.jobs.Keys, e) {
      assert CursorAt(s.intents, s.history.counts, s.jobs.Keys, e);
    }
  }

  lemma CursorsSame(s: State, s': State)
    requires Cursors(s) && s'.intents == s.intents && s'.records.Keys == s.records.Keys
    requires s'.history.counts == s.history.counts && s'.jobs.Keys == s.jobs.Keys
    ensures Cursors(s')
  {
  }

  /** A transition that moves one intent forward without acknowledging it. */
  lemma CursorsForward(s: State, s': State, key: IntentKey)
    requires Inv(s) && Cursors(s) && key in s.intents && Unacknowledged(s.intents[key])
    requires key in s'.intents && s'.intents == s.intents[key := s'.intents[key]]
    requires s'.intents[key].terminal == s.intents[key].terminal && Unacknowledged(s'.intents[key])
    requires s'.records.Keys == s.records.Keys && s'.jobs == s.jobs && s'.history == s.history
    ensures Cursors(s')
  {
    hide Inv, EndsWell, KnownDelivery;
    IntentFacts(s, key);
    assert CursorAt(s.intents, s.history.counts, s.jobs.Keys, key.deployment);
    CursorsLocal(s, s', key.deployment);
  }

  lemma CursorsAcknowledge(s: State, key: IntentKey)
    requires Inv(s) && Cursors(s)
    ensures Cursors(Acknowledge(s, key).state)
  {
    hide Inv, EndsWell, KnownDelivery, Cursors;
    var s' := Acknowledge(s, key).state;
    if s' != s {
      IntentFacts(s, key);
      if s.intents[key].terminal.Some? { NotLastNotTerminal(s, key); }
      CursorFact(s, key.deployment);
      CursorsLocal(s, s', key.deployment);
    }
  }

  lemma CursorFact(s: State, d: nat)
    requires Cursors(s) && d in s.records
    ensures CursorAt(s.intents, s.history.counts, s.jobs.Keys, d)
  {
  }

  lemma NotLastNotTerminal(s: State, key: IntentKey)
    requires Inv(s) && key in s.intents && s.intents[key].terminal.Some?
    ensures key.deployment in s.history.counts && key.ordinal + 1 == s.history.counts[key.deployment]
  {
    hide Sequenced, Born, Marked, Logged, Positioned, Carried, Awaited, Covered, BelowHighWater, OneCurrent, CanonicalRows;
  }

  lemma CursorsBegin(s: State, s': State, key: IntentKey)
    requires Inv(s) && Cursors(s)
    requires key in s'.intents && key !in s.intents && s'.intents == s.intents[key := s'.intents[key]]
    requires key.ordinal == (if key.deployment in s.history.counts then s.history.counts[key.deployment] else 0)
    requires s'.history.counts == s.history.counts[key.deployment := key.ordinal + 1]
    requires s'.records.Keys == s.records.Keys + {key.deployment}
    requires s'.intents[key].state == Pending
    requires if key.deployment in s.records
             then s'.jobs.Keys == s.jobs.Keys && s.records[key.deployment].terminal.None?
             else s'.jobs.Keys == (if s'.intents[key].terminal.Some? then s.jobs.Keys else s.jobs.Keys + {key.deployment})
                  && key.deployment !in s.jobs
    ensures Cursors(s')
  {
    hide Inv, EndsWell, Cursors;
    var d := key.deployment;
    SameDeployments(s);
    if d in s.records {
      CursorFact(s, d);
      LastNotTerminal(s, d);
    }
    CursorsLocal(s, s', d);
  }

  lemma LastNotTerminal(s: State, d: nat)
    requires Inv(s) && d in s.records && s.records[d].terminal.None?
    ensures d in s.history.counts && 1 <= s.history.counts[d] && LastOf(s.history.counts, d) in s.intents
    ensures s.intents[LastOf(s.history.counts, d)].terminal.None?
    ensures IntentKey(d, 0) in s.intents ==> s.intents[IntentKey(d, 0)].terminal.None?
  {
    hide Sequenced, Born, Marked, Logged, Positioned, Carried, Awaited, Covered, BelowHighWater, OneCurrent, CanonicalRows;
  }

  lemma CursorsBeginStep(s: State, step: Step)
    requires Inv(s) && Cursors(s) && Disciplined(s, step)
    requires step.Admit? || step.Reject?
    ensures Cursors(Attempt(s, step).state)
  {
    hide Inv, Cursors;
    var s' := Attempt(s, step).state;
    if s' != s {
      NewDeployment(s);
      CursorsBegin(s, s', IntentKey(s.allocation.nextDeployment, 0));
    }
  }

  lemma CursorsTerminate(s: State, d: nat, terminal: DeploymentTerminal)
    requires Inv(s) && Cursors(s)
    ensures Cursors(BeginTerminal(s, d, terminal).state)
  {
    hide Inv, Cursors;
    var s' := BeginTerminal(s, d, terminal).state;
    if s' != s {
      NextOf(s, d);
      NextIsNew(s, d);
      assert s'.jobs.Keys == s.jobs.Keys;
      CursorsBegin(s, s', IntentKey(d, Above(OrdinalsOf(s.intents, d))));
    }
  }

  lemma CursorsAdvance(s: State, d: nat, lifecycle: DeploymentPhase, jd: nat, job: DeployJob, event: PhaseEvent)
    requires Inv(s) && Cursors(s)
    ensures Cursors(BeginPhase(s, d, lifecycle, jd, job, event).state)
  {
    hide Inv, Cursors;
    var s' := BeginPhase(s, d, lifecycle, jd, job, event).state;
    if s' != s {
      if s.records[d].terminal.Some? { TerminalRefusesPhase(s, d); }
      NextOf(s, d);
      NextIsNew(s, d);
      assert s'.jobs.Keys == s.jobs.Keys;
      CursorsBegin(s, s', IntentKey(d, Above(OrdinalsOf(s.intents, d))));
    }
  }

  lemma CursorsDelivery(s: State, step: Step)
    requires Inv(s) && Cursors(s) && Disciplined(s, step)
    requires step.BindStep? || step.AppendStep?
    ensures Cursors(Attempt(s, step).state)
  {
    hide Inv, Cursors, EndsWell, KnownDelivery;
    var s' := Attempt(s, step).state;
    if s' != s {
      IntentFacts(s, step.key);
      if step.BindStep? { SourcesFact(s, step.key); }
      assert s'.records.Keys == s.records.Keys;
      CursorsForward(s, s', step.key);
    }
  }

  lemma CursorsUpsert(s: State, d: nat, job: DeployJob)
    requires Inv(s) && Cursors(s) && Disciplined(s, UpsertStep(d, job))
    ensures Cursors(UpsertJob(s, d, job).state)
  {
    hide Inv, Cursors;
    var s' := UpsertJob(s, d, job).state;
    if s' != s {
      CursorFact(s, d);
      LastNotTerminal(s, d);
      assert s'.jobs.Keys == s.jobs.Keys;
      CursorsSame(s, s');
    }
  }

  lemma CursorsQuiet(s: State, step: Step)
    requires Cursors(s) && KeepsCursors(s, step) && QuietStep(step) && !step.UpsertStep?
    ensures Cursors(Attempt(s, step).state)
  {
    hide Cursors, Attempt;
    QuietStepLeaves(s, step);
    QuietJobs(s, step);
    CursorsSame(s, Attempt(s, step).state);
  }

  lemma QuietJobs(s: State, step: Step)
    requires KeepsCursors(s, step) && QuietStep(step) && !step.UpsertStep?
    ensures Attempt(s, step).state.jobs == s.jobs
  {
  }

  lemma CursorsRewrite(s: State, step: Step)
    requires Cursors(s)
    requires step.ReviseStep? || step.ResolveStep? || step.AppendOther? || step.ContainerStep?
    ensures Cursors(Attempt(s, step).state)
  {
    hide Cursors;
    var s' := Attempt(s, step).state;
    if s' != s {
      assert s'.records.Keys == s.records.Keys && s'.jobs.Keys == s.jobs.Keys;
      CursorsSame(s, s');
    }
  }

  lemma CursorsStep(s: State, step: Step)
    requires Inv(s) && Cursors(s) && Disciplined(s, step) && KeepsCursors(s, step)
    ensures Cursors(Attempt(s, step).state)
  {
    hide Inv, Cursors, KeepsCursors;
    match step
    case Admit(_, _) => CursorsBeginStep(s, step);
    case Reject(_, _) => CursorsBeginStep(s, step);
    case Terminate(d, terminal) => CursorsTerminate(s, d, terminal);
    case Advance(d, lifecycle, jd, job, event) => CursorsAdvance(s, d, lifecycle, jd, job, event);
    case BindStep(_) => CursorsDelivery(s, step);
    case AppendStep(_) => CursorsDelivery(s, step);
    case AcknowledgeStep(key) => CursorsAcknowledge(s, key);
    case UpsertStep(d, job) => CursorsUpsert(s, d, job);
    case ReconcileStep => ReconcileChangesNothing(s);
    case ReviseStep(_, _) => CursorsRewrite(s, step);
    case ResolveStep(_, _, _, _) => CursorsRewrite(s, step);
    case AppendOther(_, _) => CursorsRewrite(s, step);
    case ContainerStep(_, _, _, _) => CursorsRewrite(s, step);
    case _ => CursorsQuiet(s, step);
  }

  lemma {:induction false} CursorsRun(s: State, steps: seq<Step>)
    requires Inv(s) && Cursors(s) && DisciplinedRun(s, steps) && CursorRun(s, steps)
    ensures Cursors(Run(s, steps))
    decreases |steps|
  {
    hide Inv, Cursors, Attempt, Disciplined, KeepsCursors;
    if steps != [] {
      StepKeeps(s, steps[0]);
      CursorsStep(s, steps[0]);
      CursorsRun(Attempt(s, steps[0]).state, steps[1..]);
    }
  }

  /**
    Restart-cursor retention: in every reachable store an admitted deployment has
    its job row unless its terminal transition is acknowledged, and then it has
    none; a rejected request never has one.
  */
  lemma CursorRetention(history: seq<Step>, d: nat)
    requires DisciplinedRun(EMPTY, history) && CursorRun(EMPTY, history) && d in Run(EMPTY, history).records
    ensures var s := Run(EMPTY, history);
            && IntentKey(d, 0) in s.intents
            && (s.intents[IntentKey(d, 0)].terminal.None? ==>
                  (d in s.jobs <==> !(s.records[d].terminal.Some? && !EarlierPending(s.intents, d))))
            && (s.intents[IntentKey(d, 0)].terminal.Some? ==> d !in s.jobs)
  {
    hide Inv, Cursors, Run, DisciplinedRun, CursorRun;
    ReachableHolds(history);
    EmptyHolds();
    assert Cursors(EMPTY) by { EmptyCursors(); }
    CursorsRun(EMPTY, history);
    CursorMeaning(Run(EMPTY, history), d);
  }

  lemma EmptyCursors()
    ensures Cursors(EMPTY)
  {
  }

  lemma CursorMeaning(s: State, d: nat)
    requires Inv(s) && Cursors(s) && d in s.records
    ensures CursorAt(s.intents, s.history.counts, s.jobs.Keys, d)
    ensures s.records[d].terminal == s.intents[LastOf(s.history.counts, d)].terminal
    ensures EarlierPending(s.intents, d) <==> Unacknowledged(s.intents[LastOf(s.history.counts, d)])
  {
    hide Born, Marked, Logged, Positioned, Carried, Awaited, Covered, BelowHighWater, OneCurrent, CanonicalRows;
    assert LastOf(s.history.counts, d) in s.intents;
  }

  /**
    The row disappears in the acknowledgement commit itself: the acknowledgement
    of the terminal intent of an admitted deployment is one commit, before which
    the row is present and after which it is not.
  */
  lemma RetiredWithAcknowledgement(s: State, key: IntentKey)
    requires Inv(s) && Cursors(s) && key in s.intents && s.intents[key].terminal.Some?
    requires s.intents[key].state != Acknowledged && key.ordinal > 0 && Acknowledge(s, key).Done?
    ensures var s' := Acknowledge(s, key).state;
            && s'.sequence == s.sequence + 1
            && key.deployment in s.jobs && s'.jobs == s.jobs - {key.deployment}
            && s'.intents[key].state == Acknowledged
  {
    hide Inv, EndsWell, KnownDelivery, Cursors;
    IntentFacts(s, key);
    NotLastNotTerminal(s, key);
    CursorFact(s, key.deployment);
    FirstNotTerminal(s, key);
  }

  lemma FirstNotTerminal(s: State, key: IntentKey)
    requires Inv(s) && key in s.intents && key.ordinal > 0
    ensures IntentKey(key.deployment, 0) in s.intents ==> s.intents[IntentKey(key.deployment, 0)].terminal.None?
  {
    hide Born, Marked, Logged, Positioned, Carried, Awaited, Covered, BelowHighWater, OneCurrent, CanonicalRows;
  }
}
