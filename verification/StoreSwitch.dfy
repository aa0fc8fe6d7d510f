/**
  Reconciling a detached self-switch at daemon start: record the activation
  unless it is recorded, then terminalize the deployment as succeeded. A crash
  may fall anywhere, and the row that asks for the reconciliation lives until
  the terminal is acknowledged.
*/
module StoreSwitch {
  import opened Options
  import opened StoreModel
  import opened StoreInvariant
  import opened StoreGroups
  import opened StorePreservation
  import opened StoreRecovery

  datatype Switch = Switch(deployment: nat, identifier: nat, generation: LiveGeneration, root: GcRoot)

  /** Record the activation, unless a root of that generation already exists. */
  ghost function ActivationTried(s: State, w: Switch): Outcome {
    if w.identifier in s.roots then Done(s)
    else RecordActivation(s, w.identifier, w.generation, w.identifier, w.root)
  }

  function NextKey(s: State, d: nat): IntentKey
    requires d in s.history.counts
  {
    IntentKey(d, s.history.counts[d])
  }

  ghost function Begun(s: State, w: Switch): Outcome {
    var activated := ActivationTried(s, w);
    if activated.Refused? then activated
    else BeginTerminal(activated.state, w.deployment, Succeeded)
  }

  /** The whole reconciliation of one job row. */
  ghost function Reconcile(s: State, w: Switch): Outcome {
    var begun := Begun(s, w);
    if begun.Refused? || w.deployment !in s.history.counts then begun
    else Complete(begun.state, NextKey(s, w.deployment))
  }

  /** The live generations recorded for a deployment. */
  function GenerationsOf(s: State, d: nat): set<nat> {
    set g | g in s.live && s.live[g].deployment == d
  }

  /** The deployment waits to be reconciled, and an earlier attempt recorded its activation whole or not at all. */
  ghost predicate Waiting(s: State, w: Switch) {
    && w.deployment in s.records && w.deployment in s.jobs && s.records[w.deployment].terminal.None?
    && !EarlierPending(s.intents, w.deployment)
    && w.generation.deployment == w.deployment
    && CanonicalClosure(w.generation.closure) && CanonicalClosure(w.root.closure)
    && CanTake(w.deployment) && CanTake(w.identifier) && CanTake(s.allocation.nextPosition)
    && (w.deployment in s.history.counts ==> s.history.counts[w.deployment] <= MAX_U64)
    && (w.identifier in s.live <==> w.identifier in s.roots)
    && (w.identifier in s.live ==> s.live[w.identifier] == w.generation && s.roots[w.identifier] == w.root)
    && GenerationsOf(s, w.deployment) <= {w.identifier}
  }

  /** One live generation, one root, an acknowledged success, and no job row. */
  ghost predicate Reconciled(s: State, w: Switch) {
    && GenerationsOf(s, w.deployment) == {w.identifier}
    && w.identifier in s.live && s.live[w.identifier] == w.generation
    && w.identifier in s.roots && s.roots[w.identifier] == w.root
    && w.deployment in s.records && s.records[w.deployment].terminal == Some(Succeeded)
    && s.records[w.deployment].lifecycle == Completed
    && s.records[w.deployment].terminalMarker.Some?
    && !EarlierPending(s.intents, w.deployment)
    && w.deployment !in s.jobs
  }

  // ---- opening leaves the ledgers alone ----------------------------------

  ghost predicate SameLedgers(s: State, s': State) {
    s'.live == s.live && s'.roots == s.roots && s'.allocation == s.allocation && s'.history == s.history
  }

  lemma DeliveryLedgers(s: State, step: Step)
    requires Inv(s) && IsDelivery(step)
    ensures SameLedgers(s, Attempt(s, step).state)
  {
    hide Inv, Bind, Dispatch, Append, Acknowledge, Requeue, ReconcileOutbox;
    match step
    case BindStep(key) => BindLedgers(s, key);
    case DispatchStep(key) => DispatchLedgers(s, key);
    case AppendStep(key) => AppendLedgers(s, key);
    case AcknowledgeStep(key) => AcknowledgeLedgers(s, key);
    case RequeueStep => RequeueLedgers(s);
    case ReconcileStep => ReconcileChangesNothing(s);
  }

  lemma {:induction false} DeliveriesLedgers(s: State, steps: seq<Step>)
    requires Inv(s) && DisciplinedRun(s, steps) && Deliveries(steps)
    ensures SameLedgers(s, Run(s, steps))
    decreases |steps|
  {
    hide Inv, Attempt, Disciplined;
    if steps != [] {
      StepKeeps(s, steps[0]);
      DeliveryLedgers(s, steps[0]);
      DeliveriesLedgers(Attempt(s, steps[0]).state, steps[1..]);
    }
  }

  lemma BindLedgers(s: State, key: IntentKey)
    ensures SameLedgers(s, Bind(s, key).state)
  {
    if Bind(s, key).state != s {}
  }

  lemma DispatchLedgers(s: State, key: IntentKey)
    ensures SameLedgers(s, Dispatch(s, key).state)
  {
    var s' := Dispatch(s, key).state;
    if s' != s {}
  }

  lemma AppendLedgers(s: State, key: IntentKey)
    ensures SameLedgers(s, Append(s, key).state)
  {
    hide EventOf, Commit, SameLedgers;
    CommitLedgers(s);
    if Append(s, key).state != s {}
  }

  lemma CommitLedgers(s: State)
    ensures forall touched, intents, events ::
      SameLedgers(s, Commit(s, touched).(intents := intents, events := events))
    ensures forall touched, intents ::
      SameLedgers(s, Commit(s, touched).(intents := intents))
    ensures SameLedgers(s, s)
  {}

  lemma AcknowledgeLedgers(s: State, key: IntentKey)
    ensures SameLedgers(s, Acknowledge(s, key).state)
  {
    var s' := Acknowledge(s, key).state;
    if s' != s {}
  }

  lemma RequeueLedgers(s: State)
    ensures SameLedgers(s, Requeue(s))
  {
    var s' := Requeue(s);
    if s' != s {}
  }

  lemma ReconcileLedgers(s: State)
    ensures SameLedgers(s, ReconcileOutbox(s).state)
  {
    var s' := ReconcileOutbox(s).state;
    if s' != s {}
  }

  lemma CompleteLedgers(s: State, key: IntentKey)
    ensures SameLedgers(s, Complete(s, key).state)
  {
    hide Bind, Dispatch, Append, Acknowledge;
    BindLedgers(s, key);
    var bound := Bind(s, key);
    DispatchLedgers(bound.state, key);
    var dispatched := Dispatch(bound.state, key);
    AppendLedgers(dispatched.state, key);
    AcknowledgeLedgers(Append(dispatched.state, key).state, key);
  }

  lemma {:induction false} CompleteAllLedgers(s: State, snapshot: map<IntentKey, Intent>, keys: seq<IntentKey>)
    ensures SameLedgers(s, CompleteAll(s, snapshot, keys).state)
    decreases |keys|
  {
    hide Complete;
    if keys != [] {
      CompleteLedgers(s, keys[0]);
      CompleteAllLedgers(s, snapshot, keys[1..]);
      CompleteAllLedgers(Complete(s, keys[0]).state, snapshot, keys[1..]);
    }
  }

  lemma OpenLedgers(s: State, keys: seq<IntentKey>)
    ensures SameLedgers(s, Open(s, keys).state)
  {
    hide CompleteAll, Requeue, ReconcileOutbox;
    RequeueLedgers(s);
    ReconcileLedgers(CompleteAll(Requeue(s), Requeue(s).intents, keys).state);
    CompleteAllLedgers(Requeue(s), Requeue(s).intents, keys);
  }

  // ---- one deployment in the settled view --------------------------------

  /** A deployment with nothing pending looks in the store as it does in the settled view. */
  lemma SettledWithoutPending(s: State, d: nat)
    requires Inv(s) && d in s.records && !EarlierPending(s.intents, d)
    ensures d in Settled(s).records && Settled(s).records[d] == s.records[d]
    ensures d in Settled(s).jobs <==> d in s.jobs
    ensures d in s.jobs ==> Settled(s).jobs[d] == s.jobs[d]
  {
    hide Inv;
    assert !PendingLast(s, d);
  }

  /** A pending success settles as acknowledged, marked, and without its job. */
  lemma SettledWithTerminal(s: State, d: nat)
    requires Inv(s) && d in s.records && PendingLast(s, d) && s.records[d].terminal == Some(Succeeded)
    ensures d in Settled(s).records && d !in Settled(s).jobs
    ensures Settled(s).records[d].terminal == Some(Succeeded)
    ensures Settled(s).records[d].lifecycle == Completed && Settled(s).records[d].terminalMarker.Some?
  {
    hide Inv;
    var last := LastOf(s.history.counts, d);
    IntentFacts(s, last);
  }

  lemma QuiescentNotPending(s: State, d: nat)
    requires Quiescent(s)
    ensures !EarlierPending(s.intents, d)
  {
  }

  // ---- the steps of a reconciliation -------------------------------------

  lemma ActivatedWaits(s: State, w: Switch)
    requires Inv(s) && Waiting(s, w)
    ensures ActivationTried(s, w).Done?
    ensures var s' := ActivationTried(s, w).state;
            && Inv(s') && Waiting(s', w) && w.identifier in s'.roots
            && s'.history == s.history
            && GenerationsOf(s', w.deployment) == {w.identifier}
  {
    hide Inv, CanonicalClosure;
    if w.identifier in s.roots {
    } else {
      ActivateKeeps(s, w.identifier, w.generation, w.root);
      var s' := RecordActivation(s, w.identifier, w.generation, w.identifier, w.root).state;
      ActivatedGenerations(s, w);
    }
  }

  lemma ActivatedGenerations(s: State, w: Switch)
    requires Waiting(s, w) && w.identifier !in s.roots
    ensures var s' := RecordActivation(s, w.identifier, w.generation, w.identifier, w.root).state;
            GenerationsOf(s', w.deployment) == {w.identifier}
  {
    hide CanonicalClosure, EarlierPending;
    var s' := RecordActivation(s, w.identifier, w.generation, w.identifier, w.root).state;
    forall g ensures g in GenerationsOf(s', w.deployment) <==> g == w.identifier {
      if g in s.live && g != w.identifier {
        assert s'.live[g].deployment == s.live[g].deployment;
        assert g !in GenerationsOf(s, w.deployment);
      }
    }
  }

  /** After the terminal is begun it is pending, with its creating commit just logged. */
  lemma BegunPends(s: State, w: Switch)
    requires Inv(s) && Waiting(s, w)
    ensures Begun(s, w).Done? && w.deployment in s.history.counts
    ensures var s' := Begun(s, w).state; var key := NextKey(s, w.deployment);
            && Inv(s') && w.deployment in s'.records && s'.records[w.deployment].terminal == Some(Succeeded)
            && key in s'.intents && PendingLast(s', w.deployment) && LastOf(s'.history.counts, w.deployment) == key
            && !IsBound(s'.intents[key]) && key in s'.history.births && s'.history.births[key] in s'.log
            && SameGenerations(s', ActivationTried(s, w).state)
  {
    hide Inv, CanonicalClosure, RecordActivation;
    ActivatedWaits(s, w);
    var a := ActivationTried(s, w).state;
    NextOf(a, w.deployment);
    TerminateKeeps(a, w.deployment, Succeeded);
    BegunShape(a, w);
  }

  ghost predicate SameGenerations(s: State, s': State) {
    s'.live == s.live && s'.roots == s.roots
  }

  lemma BegunShape(a: State, w: Switch)
    requires Waiting(a, w) && w.deployment in a.history.counts
    requires Above(OrdinalsOf(a.intents, w.deployment)) == a.history.counts[w.deployment]
    ensures BeginTerminal(a, w.deployment, Succeeded).Done?
    ensures var s' := BeginTerminal(a, w.deployment, Succeeded).state; var key := NextKey(a, w.deployment);
            && w.deployment in s'.records && s'.records[w.deployment].terminal == Some(Succeeded)
            && key in s'.intents && PendingLast(s', w.deployment) && LastOf(s'.history.counts, w.deployment) == key
            && !IsBound(s'.intents[key]) && key in s'.history.births && s'.history.births[key] in s'.log
            && SameGenerations(s', a)
  {
    hide CanonicalClosure, EarlierPending, GenerationsOf;
    assert BeginTerminal(a, w.deployment, Succeeded).Done?;
  }

  /** However far its delivery got, opening settles a begun success. */
  lemma OpenReconciles(s: State, w: Switch, delivered: seq<Step>, keys: seq<IntentKey>)
    requires Inv(s) && Waiting(s, w)
    requires var b := Begun(s, w).state;
             && DisciplinedRun(b, delivered) && Deliveries(delivered)
             && Lists(keys, Run(b, delivered)) && Open(Run(b, delivered), keys).Done?
    ensures Reconciled(Open(Run(Begun(s, w).state, delivered), keys).state, w)
  {
    hide Inv, Waiting, Settled, Open, Run, DisciplinedRun, Begun, ActivationTried, Lists, EarlierPending;
    BegunPends(s, w);
    ActivatedWaits(s, w);
    var b := Begun(s, w).state;
    DeliveriesSettle(b, delivered);
    DeliveriesLedgers(b, delivered);
    var crashed := Run(b, delivered);
    OpenSettles(crashed, keys);
    OpenLedgers(crashed, keys);
    SettledWithTerminal(b, w.deployment);
    QuiescentNotPending(Open(crashed, keys).state, w.deployment);
    WaitingActivated(ActivationTried(s, w).state, w);
  }

  lemma WaitingActivated(a: State, w: Switch)
    requires Waiting(a, w) && w.identifier in a.roots
    ensures w.identifier in a.live && a.live[w.identifier] == w.generation && a.roots[w.identifier] == w.root
  {
  }

  /** A crash before the terminal is begun leaves the row waiting, at reopening too. */
  lemma OpenStillWaits(s: State, w: Switch, keys: seq<IntentKey>)
    requires Inv(s) && Waiting(s, w) && Lists(keys, s) && Open(s, keys).Done?
    ensures Inv(Open(s, keys).state) && Waiting(Open(s, keys).state, w)
  {
    hide Inv, Settled, Open, Lists, CanonicalClosure, EarlierPending;
    OpenSettles(s, keys);
    OpenLedgers(s, keys);
    SettledWithoutPending(s, w.deployment);
    QuiescentNotPending(Open(s, keys).state, w.deployment);
  }

  // ---- the main results --------------------------------------------------

  /** Where a crash can stop a reconciliation. */
  datatype CrashPoint =
    | BeforeActivation
    | AfterActivation
    | AfterTerminal(delivered: seq<Step>)

  ghost function CrashedAt(s: State, w: Switch, point: CrashPoint): State {
    match point
    case BeforeActivation => s
    case AfterActivation => ActivationTried(s, w).state
    case AfterTerminal(delivered) => Run(Begun(s, w).state, delivered)
  }

  /**
    Whatever step of a reconciliation a crash falls after, reopening leaves the
    deployment either reconciled or waiting for the next attempt, never between.
  */
  lemma SwitchSurvivesCrash(s: State, w: Switch, point: CrashPoint, keys: seq<IntentKey>)
    requires Inv(s) && Waiting(s, w)
    requires point.AfterTerminal? ==> DisciplinedRun(Begun(s, w).state, point.delivered) && Deliveries(point.delivered)
    requires Lists(keys, CrashedAt(s, w, point)) && Open(CrashedAt(s, w, point), keys).Done?
    ensures var reopened := Open(CrashedAt(s, w, point), keys).state;
            if point.AfterTerminal? then Reconciled(reopened, w) else Inv(reopened) && Waiting(reopened, w)
  {
    hide Inv, Waiting, Reconciled, Open, Begun, ActivationTried, Run, DisciplinedRun, Lists;
    match point
    case BeforeActivation => OpenStillWaits(s, w, keys);
    case AfterActivation =>
      ActivatedWaits(s, w);
      OpenStillWaits(ActivationTried(s, w).state, w, keys);
    case AfterTerminal(delivered) => OpenReconciles(s, w, delivered, keys);
  }

  /** An attempt that is not interrupted finishes the job. */
  lemma SwitchFinishes(s: State, w: Switch)
    requires Inv(s) && Waiting(s, w)
    ensures Reconcile(s, w).Done? && Inv(Reconcile(s, w).state) && Reconciled(Reconcile(s, w).state, w)
  {
    hide Inv, Waiting, Settled, Begun, ActivationTried, Complete, Elsewhere, EarlierPending;
    BegunPends(s, w);
    ActivatedWaits(s, w);
    var b := Begun(s, w).state;
    var key := NextKey(s, w.deployment);
    DeliverableBound(b, key);
    CompleteDelivers(b, key);
    CompleteLedgers(b, key);
    var f := Complete(b, key).state;
    SettledWithTerminal(b, w.deployment);
    NotPendingAfter(f, key);
    KnownRecord(f, key);
    SettledWithoutPending(f, w.deployment);
    WaitingActivated(ActivationTried(s, w).state, w);
  }

  lemma KnownRecord(s: State, key: IntentKey)
    requires Inv(s) && key in s.intents
    ensures key.deployment in s.records
  {
    hide Inv, EndsWell, KnownDelivery;
    IntentFacts(s, key);
  }

  lemma NotPendingAfter(s: State, key: IntentKey)
    requires Inv(s) && key in s.intents && s.intents[key].state == Acknowledged
    requires key.deployment in s.history.counts && s.history.counts[key.deployment] == key.ordinal + 1
    ensures !EarlierPending(s.intents, key.deployment)
  {
    hide Born, Marked, Logged, Positioned, Carried, Awaited, Covered, Ending, BelowHighWater, OneCurrent, CanonicalRows;
  }
}
