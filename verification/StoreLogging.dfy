/** The commit log names every row that a commit changes. */
module StoreLogging {
  import opened StoreModel
  import opened StoreInvariant
  import opened StoreEffects

  ghost predicate SameKey<K(!new), V>(m: map<K, V>, m': map<K, V>, k: K) {
    (k in m' <==> k in m) && (k in m ==> m'[k] == m[k])
  }

  /** The row is there in both or in neither, and holds the same. */
  ghost predicate Unwritten(s: State, s': State, row: RowName) {
    match row
    case IntentRow(key) => SameKey(s.intents, s'.intents, key)
    case RecordRow(d) => SameKey(s.records, s'.records, d)
    case JobRow(d) => SameKey(s.jobs, s'.jobs, d)
    case OutboxRowName(o) => SameKey(s.outbox, s'.outbox, o)
    case EventRow(p) => SameKey(s.events, s'.events, p)
    case ContainerRow(p) => SameKey(s.containers, s'.containers, p)
    case LiveRow(g) => SameKey(s.live, s'.live, g)
    case RootRow(g) => SameKey(s.roots, s'.roots, g)
    case AllocationRow => s'.allocation == s.allocation
  }

  /** No row changes but those the one commit names. */
  ghost predicate LogsItsWrites(s: State, s': State) {
    s' == s || (Commits(s, s') && forall row :: Unwritten(s, s', row) || row in s'.log[s'.sequence])
  }

  /** Maps that agree but for one key agree at every other. */
  lemma SameElsewhere<K(!new), V>(m: map<K, V>, m': map<K, V>, k: K)
    requires m' - {k} == m - {k}
    ensures forall other :: other != k ==> SameKey(m, m', other)
  {
    forall other | other != k ensures SameKey(m, m', other) {
      assert other in m <==> other in m - {k};
      assert other in m' <==> other in m' - {k};
      assert other in m ==> (m - {k})[other] == m[other];
      assert other in m' ==> (m' - {k})[other] == m'[other];
    }
  }

  lemma OthersUnwritten(s: State, s': State, d: nat)
    requires OthersKept(s, s', d)
    ensures forall other :: other != d ==> SameKey(s.records, s'.records, other) && SameKey(s.jobs, s'.jobs, other)
  {
    hide SameKey;
    SameElsewhere(s.records, s'.records, d);
    SameElsewhere(s.jobs, s'.jobs, d);
  }

  lemma TransitionLogged(s: State, s': State, step: Step)
    requires IsTransition(step) && Left(s, s', step)
    ensures LogsItsWrites(s, s')
  {
    hide Above, OrdinalsOf, Carries, Tells;
    match step
    case Admit(_, _) =>
      var d := s.allocation.nextDeployment;
      BegunNamed(s, s', IntentKey(d, 0), {AllocationRow, RecordRow(d), JobRow(d), IntentRow(IntentKey(d, 0))});
    case Reject(_, _) =>
      var d := s.allocation.nextDeployment;
      BegunNamed(s, s', IntentKey(d, 0), {AllocationRow, RecordRow(d), IntentRow(IntentKey(d, 0))});
    case Terminate(d, _) =>
      var key := IntentKey(d, Above(OrdinalsOf(s.intents, d)));
      BegunNamed(s, s', key, {AllocationRow, RecordRow(d), IntentRow(key)} + if d in s.jobs then {JobRow(d)} else {});
    case Advance(d, _, _, _, _) =>
      var key := IntentKey(d, Above(OrdinalsOf(s.intents, d)));
      BegunNamed(s, s', key, {RecordRow(d), JobRow(d), IntentRow(key)});
    case BindStep(key) => if s' != s { BindNamed(s, s', key); }
    case DispatchStep(key) => if s' != s { DispatchNamed(s, s', key); }
    case AppendStep(key) => AppendNamed(s, s', key);
    case AcknowledgeStep(key) => AcknowledgeNamed(s, s', key);
  }

  lemma BegunNamed(s: State, s': State, key: IntentKey, touched: set<RowName>)
    requires OthersKept(s, s', key.deployment) && s'.outbox == s.outbox
    requires key in s'.intents && s'.intents - {key} == s.intents
    requires Logs(s, s', touched) && IntentRow(key) in touched && RecordRow(key.deployment) in touched
    requires JobRow(key.deployment) in touched || SameKey(s.jobs, s'.jobs, key.deployment)
    requires AllocationRow in touched || s'.allocation == s.allocation
    ensures LogsItsWrites(s, s')
  {
    hide SameKey;
    OthersUnwritten(s, s', key.deployment);
    BoundApart(s.intents, s'.intents, key);
    SameEverywhere(s, s');
  }

  lemma BindNamed(s: State, s': State, key: IntentKey)
    requires BindLeft(s, s', key)
    ensures LogsItsWrites(s, s')
  {
    hide SameKey, Carries;
    var marker :| BoundAt(s, s', key, marker);
    OthersUnwritten(s, s', key.deployment);
    SameElsewhere(s.intents, s'.intents, key);
    BoundApart(s.outbox, s'.outbox, OutboxKey(key.deployment, marker));
    SameEverywhere(s, s');
  }

  /** A table that is the same is unwritten throughout. */
  lemma SameEverywhere(s: State, s': State)
    ensures s'.intents == s.intents ==> forall k :: SameKey(s.intents, s'.intents, k)
    ensures s'.outbox == s.outbox ==> forall k :: SameKey(s.outbox, s'.outbox, k)
    ensures s'.records == s.records ==> forall k :: SameKey(s.records, s'.records, k)
    ensures s'.jobs == s.jobs ==> forall k :: SameKey(s.jobs, s'.jobs, k)
    ensures s'.events == s.events ==> forall k :: SameKey(s.events, s'.events, k)
    ensures s'.containers == s.containers ==> forall k :: SameKey(s.containers, s'.containers, k)
    ensures s'.live == s.live ==> forall k :: SameKey(s.live, s'.live, k)
    ensures s'.roots == s.roots ==> forall k :: SameKey(s.roots, s'.roots, k)
  {
  }

  lemma BoundApart<K(!new), V>(m: map<K, V>, m': map<K, V>, k: K)
    requires k !in m && m' - {k} == m
    ensures forall other :: other != k ==> SameKey(m, m', other)
  {
    hide SameKey;
    assert m - {k} == m;
    SameElsewhere(m, m', k);
  }

  lemma DispatchNamed(s: State, s': State, key: IntentKey)
    requires DispatchLeft(s, s', key) && s' != s
    ensures LogsItsWrites(s, s')
  {
    hide SameKey, Carries;
    SameElsewhere(s.outbox, s'.outbox, OutboxKey(key.deployment, s.intents[key].marker.value));
    SameEverywhere(s, s');
  }

  lemma AppendNamed(s: State, s': State, key: IntentKey)
    requires AppendLeft(s, s', key)
    ensures LogsItsWrites(s, s')
  {
    hide SameKey, Carries;
    SameElsewhere(s.intents, s'.intents, key);
    SameElsewhere(s.events, s'.events, s.intents[key].position);
    SameEverywhere(s, s');
  }

  lemma AcknowledgeNamed(s: State, s': State, key: IntentKey)
    requires AcknowledgeLeft(s, s', key)
    ensures LogsItsWrites(s, s')
  {
    hide SameKey, Carries;
    SameElsewhere(s.intents, s'.intents, key);
    SameElsewhere(s.outbox, s'.outbox, OutboxKey(key.deployment, s.intents[key].marker.value));
    if s.intents[key].terminal.Some? && s' != s {
      assert s'.jobs - {key.deployment} == s.jobs - {key.deployment};
      SameElsewhere(s.jobs, s'.jobs, key.deployment);
      if key.deployment !in s.jobs { assert s'.jobs == s.jobs; }
    }
    SameEverywhere(s, s');
  }

  lemma OtherLogged(s: State, s': State, step: Step)
    requires !IsTransition(step) && !step.TruncateStep? && Left(s, s', step)
    ensures LogsItsWrites(s, s')
  {
    match step
    case Reserve =>
    case AppendOther(_, _) =>
    case ContainerStep(_, _, _, _) =>
    case CompactStep(_) => CompactionLogged(s, s');
    case ReviseStep(d, _) => OthersUnwritten(s, s', d);
    case ResolveStep(d, _, _, _) => OthersUnwritten(s, s', d);
    case UpsertStep(d, _) => OthersUnwritten(s, s', d);
    case RetractStep(d) => OthersUnwritten(s, s', d);
    case ActivateStep(g, generation, r, root) => ActivationNamed(s, s', g, generation, r, root);
    case MutateRootStep(g, _) => SameElsewhere(s.roots, s'.roots, g);
    case RetractRootStep(g) => SameElsewhere(s.roots, s'.roots, g);
    case RequeueStep => RequeueNamed(s, s');
    case ReconcileStep => ReconciliationLogged(s, s');
  }

  /** Whatever any operation changes in any table, the one commit it makes names the row. */
  lemma EveryWriteIsLogged(s: State, step: Step)
    requires Inv(s) && !step.TruncateStep?
    ensures LogsItsWrites(s, Attempt(s, step).state)
  {
    hide Left, LogsItsWrites, Attempt, Inv;
    StepLeaves(s, step);
    if Attempt(s, step).Refused? {
      NothingLogged(s);
    } else if IsTransition(step) {
      TransitionLogged(s, Attempt(s, step).state, step);
    } else {
      OtherLogged(s, Attempt(s, step).state, step);
    }
  }

  lemma NothingLogged(s: State)
    ensures LogsItsWrites(s, s)
  {
  }

  lemma CompactionLogged(s: State, s': State)
    requires CompactionLeft(s, s')
    ensures LogsItsWrites(s, s')
  {
    if s' != s {
      forall row ensures Unwritten(s, s', row) || row in s'.log[s'.sequence] {
        match row
        case EventRow(p) =>
        case ContainerRow(p) =>
        case OutboxRowName(o) =>
        case _ =>
      }
    }
  }

  lemma ActivationNamed(s: State, s': State, g: nat, generation: LiveGeneration, r: nat, root: GcRoot)
    requires ActivationLeft(s, s', g, generation, r, root)
    ensures LogsItsWrites(s, s')
  {
    forall row ensures Unwritten(s, s', row) || row in s'.log[s'.sequence] {
      match row
      case LiveRow(h) =>
      case RootRow(h) =>
      case _ =>
    }
  }

  lemma RequeueNamed(s: State, s': State)
    requires RequeueLeft(s, s')
    ensures LogsItsWrites(s, s')
  {
    if s' != s {
      forall row ensures Unwritten(s, s', row) || row in s'.log[s'.sequence] {
        match row
        case OutboxRowName(o) =>
        case _ =>
      }
    }
  }

  lemma ReconciliationLogged(s: State, s': State)
    requires ReconciliationLeft(s, s')
    ensures LogsItsWrites(s, s')
  {
    if s' != s {
      forall row ensures Unwritten(s, s', row) || row in s'.log[s'.sequence] {
        match row
        case OutboxRowName(o) =>
        case _ =>
      }
    }
  }
}
