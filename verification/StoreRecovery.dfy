/**
  Crash recovery. `Settled` says, without running anything, where a store is
  going once every pending intent has been delivered. Each delivery step leaves
  it unchanged, whatever intent it drives, and a store with nothing pending is
  its own settled view. Stopping after any step and opening therefore ends
  where the uninterrupted run ends.
*/
module StoreRecovery {
  import opened Options
  import opened StoreModel
  import opened StoreInvariant
  import opened StoreGroups
  import opened StorePreservation

  /** What opening must reproduce: all but retry counts, delivery states and the commit log. */
  datatype View = View(
    intents: map<IntentKey, Intent>,
    events: map<nat, LoggedEvent>,
    outbox: map<OutboxKey, PhaseEvent>,
    records: map<nat, DeploymentRecord>,
    jobs: map<nat, DeployJob>)

  ghost function ViewOf(s: State): View {
    View(s.intents, s.events, map o | o in s.outbox :: s.outbox[o].event, s.records, s.jobs)
  }

  ghost predicate Quiescent(s: State) {
    forall key :: key in s.intents ==> s.intents[key].state == Acknowledged
  }

  // ---- the settled view --------------------------------------------------

  ghost predicate PendingKey(s: State, key: IntentKey) {
    key in s.intents && key in s.history.births && Unacknowledged(s.intents[key])
  }

  ghost predicate PendingAt(s: State, p: nat) {
    p in s.history.owners && PendingKey(s, s.history.owners[p])
  }

  ghost predicate PendingDelivery(s: State, o: OutboxKey) {
    && o.marker in s.history.origins && PendingKey(s, s.history.origins[o.marker])
    && s.history.origins[o.marker].deployment == o.deployment
  }

  ghost predicate PendingLast(s: State, d: nat) {
    && d in s.history.counts && 1 <= s.history.counts[d]
    && PendingKey(s, LastOf(s.history.counts, d))
  }

  ghost function SettledIntents(s: State): map<IntentKey, Intent> {
    map key | key in s.intents ::
      if PendingKey(s, key) then s.intents[key].(marker := Some(s.history.births[key]), state := Acknowledged)
      else s.intents[key]
  }

  ghost function SettledEvents(s: State): map<nat, LoggedEvent> {
    map p | p in s.events.Keys + s.history.owners.Keys && (p in s.events || PendingAt(s, p)) ::
      if p in s.events then s.events[p]
      else
        var key := s.history.owners[p];
        Deployment(EventAt(key, s.intents[key], s.history.births[key]))
  }

  ghost function DeliveryKeys(s: State): set<OutboxKey> {
    s.outbox.Keys + set m | m in s.history.origins :: OutboxKey(s.history.origins[m].deployment, m)
  }

  ghost function SettledOutbox(s: State): map<OutboxKey, PhaseEvent> {
    map o | o in DeliveryKeys(s) && (o in s.outbox || PendingDelivery(s, o)) ::
      if o in s.outbox then s.outbox[o].event
      else
        var key := s.history.origins[o.marker];
        EventAt(key, s.intents[key], o.marker)
  }

  ghost function SettledRecords(s: State): map<nat, DeploymentRecord> {
    map d | d in s.records ::
      if PendingLast(s, d) then
        var key := LastOf(s.history.counts, d);
        MarkedRecord(s.records[d], s.intents[key], s.history.births[key])
      else s.records[d]
  }

  ghost predicate RetiringJob(s: State, d: nat) {
    PendingLast(s, d) && s.intents[LastOf(s.history.counts, d)].terminal.Some?
  }

  ghost function SettledJobs(s: State): map<nat, DeployJob> {
    map d | d in s.jobs && !RetiringJob(s, d) :: s.jobs[d]
  }

  ghost function Settled(s: State): View {
    View(SettledIntents(s), SettledEvents(s), SettledOutbox(s), SettledRecords(s), SettledJobs(s))
  }

  lemma NothingPending(s: State)
    requires Quiescent(s)
    ensures forall key :: !PendingKey(s, key)
    ensures forall p :: !PendingAt(s, p)
    ensures forall o :: !PendingDelivery(s, o)
    ensures forall d :: !PendingLast(s, d)
  {
  }

  /** With nothing pending, the settled view is the store as it stands. */
  lemma QuiescentIsSettled(s: State)
    requires Quiescent(s)
    ensures Settled(s) == ViewOf(s)
  {
    hide Quiescent, PendingKey, PendingAt, PendingDelivery, PendingLast, SettledIntents, SettledEvents,
      SettledOutbox, SettledRecords, SettledJobs;
    NothingPending(s);
    QuiescentRows(s);
    QuiescentOutbox(s);
  }

  lemma QuiescentRows(s: State)
    requires Quiescent(s)
    ensures SettledIntents(s) == s.intents
    ensures SettledRecords(s) == s.records
    ensures SettledJobs(s) == s.jobs
    ensures SettledEvents(s) == s.events
  {
    hide Quiescent, PendingKey, PendingAt, PendingDelivery, PendingLast;
    NothingPending(s);
  }

  lemma QuiescentOutbox(s: State)
    requires Quiescent(s)
    ensures SettledOutbox(s) == ViewOf(s).outbox
  {
    hide Quiescent, PendingKey, PendingAt, PendingDelivery, PendingLast;
    NothingPending(s);
  }

  // ---- one delivery step -------------------------------------------------

  /** `s'` is `s` with some of the rows of one pending intent moved to their settled values. */
  ghost predicate Forward(s: State, s': State, key: IntentKey) {
    && PendingKey(s, key) && key.deployment in s.records
    && var i := s.intents[key]; var birth := s.history.births[key]; var d := key.deployment;
       var o := OutboxKey(d, birth); var event := EventAt(key, i, birth);
       && s'.history == s.history
       && key in s'.intents && s'.intents == s.intents[key := s'.intents[key]]
       && s'.intents[key] == i.(marker := s'.intents[key].marker, state := s'.intents[key].state)
       && (s'.intents[key].state == Acknowledged ==> s'.intents[key].marker == Some(birth))
       && (s'.events == s.events || s'.events == s.events[i.position := Deployment(event)])
       && SameEvents(s.outbox, s'.outbox, o, event)
       && (s'.records == s.records || s'.records == s.records[d := MarkedRecord(s.records[d], i, birth)])
       && (s'.jobs == s.jobs || (i.terminal.Some? && s'.jobs == s.jobs - {d}))
       && (s'.intents[key].state == Acknowledged ==>
             && i.position in s'.events && o in s'.outbox
             && s'.records[d] == MarkedRecord(s.records[d], i, birth)
             && (i.terminal.Some? ==> d !in s'.jobs))
  }

  predicate SameEvents(outbox: map<OutboxKey, OutboxRow>, outbox': map<OutboxKey, OutboxRow>, o: OutboxKey, event: PhaseEvent) {
    && (forall q :: q in outbox ==> q in outbox' && outbox'[q].event == outbox[q].event)
    && (forall q :: q in outbox' && q !in outbox ==> q == o && outbox'[q].event == event)
  }

  lemma ForwardIntents(s: State, s': State, key: IntentKey)
    requires Forward(s, s', key)
    ensures SettledIntents(s') == SettledIntents(s)
  {
  }

  lemma ForwardEvents(s: State, s': State, key: IntentKey)
    requires Forward(s, s', key)
    requires s.intents[key].position in s.history.owners && s.history.owners[s.intents[key].position] == key
    requires forall p :: p in s.history.owners && s.history.owners[p] == key ==> p == s.intents[key].position
    requires s.intents[key].position in s.events ==>
               s.events[s.intents[key].position] == Deployment(EventAt(key, s.intents[key], s.history.births[key]))
    ensures SettledEvents(s') == SettledEvents(s)
  {
    var e, e' := SettledEvents(s), SettledEvents(s');
    forall p ensures (p in e <==> p in e') && (p in e ==> e[p] == e'[p]) {
      if p != s.intents[key].position {
        assert p in s.events <==> p in s'.events;
        assert PendingAt(s, p) <==> PendingAt(s', p);
      }
    }
  }

  lemma ForwardOutbox(s: State, s': State, key: IntentKey)
    requires Forward(s, s', key)
    requires s.history.births[key] in s.history.origins && s.history.origins[s.history.births[key]] == key
    requires forall m :: m in s.history.origins && s.history.origins[m] == key ==> m == s.history.births[key]
    requires OutboxKey(key.deployment, s.history.births[key]) in s.outbox ==>
               s.outbox[OutboxKey(key.deployment, s.history.births[key])].event
                 == EventAt(key, s.intents[key], s.history.births[key])
    ensures SettledOutbox(s') == SettledOutbox(s)
  {
    var e, e' := SettledOutbox(s), SettledOutbox(s');
    forall o ensures (o in e <==> o in e') && (o in e ==> e[o] == e'[o]) {
      if o != OutboxKey(key.deployment, s.history.births[key]) {
        assert o in s.outbox <==> o in s'.outbox;
        assert PendingDelivery(s, o) <==> PendingDelivery(s', o);
        assert o in DeliveryKeys(s) <==> o in DeliveryKeys(s');
      } else {
        assert PendingDelivery(s, o);
        assert o in DeliveryKeys(s) && o in DeliveryKeys(s');
      }
    }
  }

  lemma ForwardRecords(s: State, s': State, key: IntentKey)
    requires Forward(s, s', key)
    requires PendingLast(s, key.deployment) && key == LastOf(s.history.counts, key.deployment)
    ensures SettledRecords(s') == SettledRecords(s)
    ensures SettledJobs(s') == SettledJobs(s)
  {
    forall d | d != key.deployment ensures PendingLast(s, d) <==> PendingLast(s', d) {
    }
  }

  lemma ForwardSettles(s: State, s': State, key: IntentKey)
    requires Inv(s) && PendingKey(s, key) && Forward(s, s', key)
    ensures Settled(s') == Settled(s)
  {
    hide Inv, Forward, EndsWell, SettledIntents, SettledEvents, SettledOutbox, SettledRecords, SettledJobs;
    IntentFacts(s, key);
    OwnRows(s, key);
    ForwardIntents(s, s', key);
    ForwardEvents(s, s', key);
    ForwardOutbox(s, s', key);
    ForwardRecords(s, s', key);
  }

  /** No other position and no other commit belongs to this intent. */
  lemma OwnRows(s: State, key: IntentKey)
    requires Inv(s) && PendingKey(s, key)
    ensures s.intents[key].position in s.history.owners && s.history.owners[s.intents[key].position] == key
    ensures forall p :: p in s.history.owners && s.history.owners[p] == key ==> p == s.intents[key].position
    ensures s.intents[key].position in s.events ==>
               s.events[s.intents[key].position] == Deployment(EventAt(key, s.intents[key], s.history.births[key]))
    ensures s.history.births[key] in s.history.origins && s.history.origins[s.history.births[key]] == key
    ensures forall m :: m in s.history.origins && s.history.origins[m] == key ==> m == s.history.births[key]
    ensures OutboxKey(key.deployment, s.history.births[key]) in s.outbox ==>
               s.outbox[OutboxKey(key.deployment, s.history.births[key])].event
                 == EventAt(key, s.intents[key], s.history.births[key])
    ensures PendingLast(s, key.deployment) && key == LastOf(s.history.counts, key.deployment)
  {
    hide Sequenced, Logged, Carried, Awaited, Covered, Ending, BelowHighWater, OneCurrent, CanonicalRows, EndsWell;
    IntentFacts(s, key);
  }

  /** Only delivery states, retry counts and the commit log differ. */
  ghost predicate SamePayloads(s: State, s': State) {
    && s'.intents == s.intents && s'.events == s.events && s'.records == s.records && s'.jobs == s.jobs
    && s'.history == s.history
    && s'.outbox.Keys == s.outbox.Keys && forall o :: o in s.outbox ==> s'.outbox[o].event == s.outbox[o].event
  }

  lemma SamePending(s: State, s': State)
    requires SamePayloads(s, s')
    ensures forall key :: PendingKey(s, key) <==> PendingKey(s', key)
    ensures forall p :: PendingAt(s, p) <==> PendingAt(s', p)
    ensures forall o :: PendingDelivery(s, o) <==> PendingDelivery(s', o)
    ensures forall d :: PendingLast(s, d) <==> PendingLast(s', d)
    ensures DeliveryKeys(s) == DeliveryKeys(s')
  {
  }

  /** Redelivery changes no payload, so it changes no settled view. */
  lemma RedeliverySettles(s: State, s': State)
    requires SamePayloads(s, s')
    ensures Settled(s') == Settled(s)
  {
    hide SamePayloads, SettledIntents, SettledEvents, SettledOutbox, SettledRecords, SettledJobs;
    RedeliveryIntents(s, s');
    RedeliveryEvents(s, s');
    RedeliveryRecords(s, s');
    RedeliveryJobs(s, s');
    RedeliveryOutbox(s, s');
  }

  lemma RedeliveryIntents(s: State, s': State)
    requires SamePayloads(s, s')
    ensures SettledIntents(s') == SettledIntents(s)
  {
    hide PendingKey, PendingAt, PendingDelivery, PendingLast;
    SamePending(s, s');
  }

  lemma RedeliveryEvents(s: State, s': State)
    requires SamePayloads(s, s')
    ensures SettledEvents(s') == SettledEvents(s)
  {
    hide PendingKey, PendingAt, PendingDelivery, PendingLast;
    SamePending(s, s');
  }

  lemma RedeliveryRecords(s: State, s': State)
    requires SamePayloads(s, s')
    ensures SettledRecords(s') == SettledRecords(s)
  {
    hide PendingKey, PendingAt, PendingDelivery, PendingLast;
    SamePending(s, s');
  }

  lemma RedeliveryJobs(s: State, s': State)
    requires SamePayloads(s, s')
    ensures SettledJobs(s') == SettledJobs(s)
  {
    hide PendingKey, PendingAt, PendingDelivery, PendingLast;
    SamePending(s, s');
  }

  lemma RedeliveryOutbox(s: State, s': State)
    requires SamePayloads(s, s')
    ensures SettledOutbox(s') == SettledOutbox(s)
  {
    hide PendingKey, PendingAt, PendingDelivery, PendingLast, DeliveryKeys;
    SamePending(s, s');
    assert forall o :: o in s.outbox <==> o in s'.outbox;
  }

  predicate IsDelivery(step: Step) {
    step.BindStep? || step.DispatchStep? || step.AppendStep? || step.AcknowledgeStep?
    || step.RequeueStep? || step.ReconcileStep?
  }

  lemma BindForward(s: State, key: IntentKey)
    requires Inv(s) && key in s.intents && !IsBound(s.intents[key]) && Bind(s, key).Done?
    ensures key in s.history.births && s.history.births[key] in s.log
    ensures Bind(s, key) == BindTo(s, key, s.history.births[key])
    ensures PendingKey(s, key) && Forward(s, Bind(s, key).state, key)
  {
    hide Inv, EndsWell;
    IntentFacts(s, key);
    SourcesFact(s, key);
    assert Bind(s, key) == BindTo(s, key, s.history.births[key]);
  }

  lemma AppendForward(s: State, key: IntentKey)
    requires Inv(s) && key in s.intents && Unacknowledged(s.intents[key]) && IsBound(s.intents[key])
    requires Append(s, key).Done?
    ensures PendingKey(s, key) && Forward(s, Append(s, key).state, key)
  {
    hide Inv, EndsWell;
    IntentFacts(s, key);
  }

  /** A bound intent's record already bears its marks. */
  lemma RecordMarked(s: State, key: IntentKey)
    requires Inv(s) && key in s.intents && Unacknowledged(s.intents[key]) && IsBound(s.intents[key])
    ensures key.deployment in s.records && key in s.history.births
    ensures s.records[key.deployment]
              == MarkedRecord(s.records[key.deployment], s.intents[key], s.history.births[key])
  {
    hide Inv;
    IntentFacts(s, key);
  }

  lemma AcknowledgeForward(s: State, key: IntentKey)
    requires Inv(s) && key in s.intents && Unacknowledged(s.intents[key]) && IsBound(s.intents[key])
    requires Acknowledge(s, key).Done?
    ensures PendingKey(s, key) && Forward(s, Acknowledge(s, key).state, key)
  {
    hide Inv, EndsWell, MarkedRecord;
    IntentFacts(s, key);
    RecordMarked(s, key);
  }

  lemma AcknowledgedStays(s: State, key: IntentKey)
    requires Inv(s) && key in s.intents && s.intents[key].state == Acknowledged
    ensures Acknowledge(s, key).state == s
  {
    hide Inv, EndsWell;
    IntentFacts(s, key);
  }

  /** A delivery step changes nothing about where the store is going. */
  lemma DeliverySettles(s: State, step: Step)
    requires Inv(s) && Disciplined(s, step) && IsDelivery(step)
    ensures Settled(Attempt(s, step).state) == Settled(s)
  {
    hide Inv, Settled, Forward;
    var s' := Attempt(s, step).state;
    if s' != s {
      match step
      case BindStep(key) => BindForward(s, key); ForwardSettles(s, s', key);
      case DispatchStep(key) => RedeliverySettles(s, s');
      case AppendStep(key) => AppendForward(s, key); ForwardSettles(s, s', key);
      case AcknowledgeStep(key) =>
        if s.intents[key].state == Acknowledged { AcknowledgedStays(s, key); }
        AcknowledgeForward(s, key);
        ForwardSettles(s, s', key);
      case RequeueStep => RedeliverySettles(s, s');
      case ReconcileStep => ReconcileChangesNothing(s);
    }
  }

  ghost predicate Deliveries(steps: seq<Step>) {
    forall i :: 0 <= i < |steps| ==> IsDelivery(steps[i])
  }

  lemma {:induction false} DeliveriesSettle(s: State, steps: seq<Step>)
    requires Inv(s) && DisciplinedRun(s, steps) && Deliveries(steps)
    ensures Inv(Run(s, steps)) && Settled(Run(s, steps)) == Settled(s)
    decreases |steps|
  {
    hide Inv, Settled, Attempt, Disciplined;
    if steps != [] {
      StepKeeps(s, steps[0]);
      DeliverySettles(s, steps[0]);
      DeliveriesSettle(Attempt(s, steps[0]).state, steps[1..]);
    }
  }

  // ---- completing one intent ---------------------------------------------

  /**
    Whether an intent's delivery can be finished: the commit that created it is
    still logged when it has to be bound, and its delivery row can take one more
    retry when it has to be dispatched.
  */
  ghost predicate Deliverable(s: State, key: IntentKey) {
    && key in s.intents && key in s.history.births
    && (if !IsBound(s.intents[key]) then s.history.births[key] in s.log
        else DeliveryKey(key, s.intents[key]) in s.outbox
             && (s.outbox[DeliveryKey(key, s.intents[key])].delivery == Undelivered ==>
                   CanTake(s.outbox[DeliveryKey(key, s.intents[key])].retries)))
  }

  /** `s'` differs from `s` only in what belongs to `key`. */
  ghost predicate Elsewhere(s: State, s': State, key: IntentKey) {
    && s'.history == s.history && s.sequence <= s'.sequence
    && key in s.history.births
    && s.intents.Keys == s'.intents.Keys
    && (forall other :: other in s.intents && other != key ==> s.intents[other] == s'.intents[other])
    && (forall c :: c <= s.sequence ==> (c in s.log <==> c in s'.log))
    && (forall o: OutboxKey :: o.marker != s.history.births[key] ==>
          (o in s.outbox <==> o in s'.outbox) && (o in s.outbox ==> s.outbox[o] == s'.outbox[o]))
  }

  lemma ElsewhereTwice(s: State, s': State, s'': State, key: IntentKey)
    requires Elsewhere(s, s', key) && Elsewhere(s', s'', key)
    ensures Elsewhere(s, s'', key)
  {
  }

  // Each delivery step of an intent stays within what belongs to it.

  lemma BindElsewhere(s: State, key: IntentKey)
    requires Inv(s) && key in s.intents && Unacknowledged(s.intents[key])
    ensures Elsewhere(s, Bind(s, key).state, key)
  {
    hide Inv, EndsWell, KnownDelivery;
    IntentFacts(s, key);
    if !IsBound(s.intents[key]) { SourcesFact(s, key); }
  }

  lemma DispatchElsewhere(s: State, key: IntentKey)
    requires Inv(s) && key in s.intents && Unacknowledged(s.intents[key])
    ensures Elsewhere(s, Dispatch(s, key).state, key)
  {
    hide Inv;
    OwnCommit(s, key);
    if Dispatch(s, key).state != s {}
  }

  lemma AppendElsewhere(s: State, key: IntentKey)
    requires Inv(s) && key in s.intents && Unacknowledged(s.intents[key])
    ensures Elsewhere(s, Append(s, key).state, key)
  {
    hide Inv;
    OwnCommit(s, key);
    if Append(s, key).state != s {}
  }

  lemma AcknowledgeElsewhere(s: State, key: IntentKey)
    requires Inv(s) && key in s.intents && Unacknowledged(s.intents[key])
    ensures Elsewhere(s, Acknowledge(s, key).state, key)
  {
    hide Inv;
    OwnCommit(s, key);
    if Acknowledge(s, key).state != s {}
  }

  lemma BindCompletes(s: State, key: IntentKey)
    requires Inv(s) && key in s.intents && Unacknowledged(s.intents[key])
    ensures Bind(s, key).Done? <==> (IsBound(s.intents[key]) || (key in s.history.births && s.history.births[key] in s.log))
    ensures Bind(s, key).Done? ==>
              var s' := Bind(s, key).state;
              && Inv(s') && Settled(s') == Settled(s) && Elsewhere(s, s', key)
              && key in s'.intents && IsBound(s'.intents[key]) && Unacknowledged(s'.intents[key])
              && (IsBound(s.intents[key]) ==> s' == s)
              && (!IsBound(s.intents[key]) ==> Deliverable(s', key))
  {
    hide Inv, Settled, EndsWell, Elsewhere;
    IntentFacts(s, key);
    if !IsBound(s.intents[key]) { SourcesFact(s, key); }
    BindKeeps(s, key);
    DeliverySettles(s, BindStep(key));
    BindElsewhere(s, key);
    if !IsBound(s.intents[key]) && s.history.births[key] in s.log { BindToKeeps(s, key); }
    if !IsBound(s.intents[key]) && s.history.births[key] in s.log {
      assert Bind(s, key) == BindTo(s, key, s.history.births[key]);
    }
  }

  lemma DispatchCompletes(s: State, key: IntentKey)
    requires Inv(s) && key in s.intents && Unacknowledged(s.intents[key]) && IsBound(s.intents[key])
    ensures Dispatch(s, key).Done? <==> Deliverable(s, key)
    ensures Dispatch(s, key).Done? ==>
              var s' := Dispatch(s, key).state;
              && Inv(s') && Settled(s') == Settled(s) && Elsewhere(s, s', key)
              && s'.intents == s.intents
  {
    hide Inv, Settled, EndsWell, Elsewhere;
    IntentFacts(s, key);
    DispatchKeeps(s, key);
    DeliverySettles(s, DispatchStep(key));
    DispatchElsewhere(s, key);
  }

  lemma AppendCompletes(s: State, key: IntentKey)
    requires Inv(s) && key in s.intents && Unacknowledged(s.intents[key]) && IsBound(s.intents[key])
    ensures Append(s, key).Done?
    ensures var s' := Append(s, key).state;
            && Inv(s') && Settled(s') == Settled(s) && Elsewhere(s, s', key)
            && key in s'.intents && IsBound(s'.intents[key]) && Unacknowledged(s'.intents[key])
            && s'.intents[key].position in s'.events
  {
    hide Inv, Settled, EndsWell, Elsewhere;
    IntentFacts(s, key);
    AppendKeeps(s, key);
    DeliverySettles(s, AppendStep(key));
    AppendElsewhere(s, key);
  }

  lemma AcknowledgeCompletes(s: State, key: IntentKey)
    requires Inv(s) && key in s.intents && Unacknowledged(s.intents[key]) && IsBound(s.intents[key])
    ensures Acknowledge(s, key).Done? <==> s.intents[key].position in s.events
    ensures Acknowledge(s, key).Done? ==>
              var s' := Acknowledge(s, key).state;
              && Inv(s') && Settled(s') == Settled(s) && Elsewhere(s, s', key)
              && key in s'.intents && s'.intents[key].state == Acknowledged
  {
    hide Inv, Settled, EndsWell, Elsewhere;
    IntentFacts(s, key);
    AcknowledgeKeeps(s, key);
    DeliverySettles(s, AcknowledgeStep(key));
    AcknowledgeElsewhere(s, key);
  }

  /** Driving one pending intent to its end succeeds exactly when it is deliverable. */
  lemma CompleteDelivers(s: State, key: IntentKey)
    requires Inv(s) && key in s.intents && Unacknowledged(s.intents[key])
    ensures Complete(s, key).Done? <==> Deliverable(s, key)
    ensures Complete(s, key).Done? ==>
              var s' := Complete(s, key).state;
              && Inv(s') && Settled(s') == Settled(s) && Elsewhere(s, s', key)
              && key in s'.intents && s'.intents[key].state == Acknowledged
  {
    hide Inv, Settled, Bind, Dispatch, Append, Acknowledge, Elsewhere, Deliverable;
    BindCompletes(s, key);
    DeliverableBound(s, key);
    if Bind(s, key).Done? {
      var s1 := Bind(s, key).state;
      DispatchCompletes(s1, key);
      if Dispatch(s1, key).Done? {
        var s2 := Dispatch(s1, key).state;
        AppendCompletes(s2, key);
        var s3 := Append(s2, key).state;
        AcknowledgeCompletes(s3, key);
        var s4 := Acknowledge(s3, key).state;
        ElsewhereTwice(s, s1, s2, key);
        ElsewhereTwice(s, s2, s3, key);
        ElsewhereTwice(s, s3, s4, key);
      }
    }
  }

  lemma DeliverableBound(s: State, key: IntentKey)
    requires Inv(s) && key in s.intents
    ensures !IsBound(s.intents[key]) ==>
              (Deliverable(s, key) <==> key in s.history.births && s.history.births[key] in s.log)
  {
    hide Inv;
  }

  /** Completing one intent neither helps nor hinders another. */
  lemma DeliverableElsewhere(s: State, s': State, key: IntentKey, other: IntentKey)
    requires Inv(s) && Inv(s') && Elsewhere(s, s', key)
    requires key in s.intents && other in s.intents && other != key
    ensures Deliverable(s', other) <==> Deliverable(s, other)
  {
    hide Inv, EndsWell;
    IntentFacts(s, key);
    IntentFacts(s, other);
    MarkersFact(s);
  }

  // ---- opening -----------------------------------------------------------

  /** The listed intents still stand as they did in the snapshot, and every other one is acknowledged. */
  ghost predicate StillListed(s: State, snapshot: map<IntentKey, Intent>, keys: seq<IntentKey>) {
    && (forall i :: 0 <= i < |keys| ==>
          keys[i] in s.intents && keys[i] in snapshot && snapshot[keys[i]] == s.intents[keys[i]])
    && (forall i, j :: 0 <= i < j < |keys| ==> keys[i] != keys[j])
    && (forall key :: key in s.intents && key !in keys ==> s.intents[key].state == Acknowledged)
  }

  lemma StillListedTail(s: State, s': State, snapshot: map<IntentKey, Intent>, keys: seq<IntentKey>)
    requires keys != [] && StillListed(s, snapshot, keys)
    requires s'.intents.Keys == s.intents.Keys && s'.intents[keys[0]].state == Acknowledged
    requires forall other :: other in s.intents && other != keys[0] ==> s.intents[other] == s'.intents[other]
    ensures StillListed(s', snapshot, keys[1..])
  {
    forall key | key in s'.intents && key !in keys[1..] ensures s'.intents[key].state == Acknowledged {
      if key != keys[0] {
        assert key !in keys;
      }
    }
  }

  ghost predicate AllDeliverable(s: State, keys: seq<IntentKey>) {
    forall i :: 0 <= i < |keys| && keys[i] in s.intents && Unacknowledged(s.intents[keys[i]]) ==> Deliverable(s, keys[i])
  }

  lemma {:induction false} CompleteAllDelivers(s: State, snapshot: map<IntentKey, Intent>, keys: seq<IntentKey>)
    requires Inv(s) && StillListed(s, snapshot, keys)
    ensures CompleteAll(s, snapshot, keys).Done? <==> AllDeliverable(s, keys)
    ensures CompleteAll(s, snapshot, keys).Done? ==>
              var s' := CompleteAll(s, snapshot, keys).state;
              Inv(s') && Quiescent(s') && Settled(s') == Settled(s)
    decreases |keys|
  {
    hide Inv, Settled, Complete, Deliverable, Elsewhere;
    if keys != [] {
      var key := keys[0];
      if !Unacknowledged(snapshot[key]) {
        StillListedTail(s, s, snapshot, keys);
        CompleteAllDelivers(s, snapshot, keys[1..]);
        AllDeliverableStep(s, s, keys);
      } else {
        CompleteDelivers(s, key);
        if Complete(s, key).Done? {
          var s' := Complete(s, key).state;
          ElsewhereIntents(s, s', key);
          StillListedTail(s, s', snapshot, keys);
          CompleteAllDelivers(s', snapshot, keys[1..]);
          forall i | 1 <= i < |keys|
            ensures Deliverable(s', keys[i]) <==> Deliverable(s, keys[i])
          {
            DeliverableElsewhere(s, s', key, keys[i]);
          }
          AllDeliverableStep(s, s', keys);
        }
      }
    }
  }

  lemma ElsewhereIntents(s: State, s': State, key: IntentKey)
    requires Elsewhere(s, s', key)
    ensures s'.intents.Keys == s.intents.Keys
    ensures forall other :: other in s.intents && other != key ==> s.intents[other] == s'.intents[other]
  {
  }

  lemma AllDeliverableStep(s: State, s': State, keys: seq<IntentKey>)
    requires keys != [] && forall i :: 0 <= i < |keys| ==> keys[i] in s.intents && keys[i] in s'.intents
    requires forall i :: 1 <= i < |keys| ==>
               s.intents[keys[i]] == s'.intents[keys[i]] && (Deliverable(s', keys[i]) <==> Deliverable(s, keys[i]))
    requires Unacknowledged(s.intents[keys[0]]) ==> Deliverable(s, keys[0])
    ensures AllDeliverable(s, keys) <==> AllDeliverable(s', keys[1..])
  {
    hide Deliverable;
    if AllDeliverable(s', keys[1..]) {
      forall i | 0 <= i < |keys| && keys[i] in s.intents && Unacknowledged(s.intents[keys[i]])
        ensures Deliverable(s, keys[i])
      {
        if i > 0 { assert keys[1..][i - 1] == keys[i]; }
      }
    }
    if AllDeliverable(s, keys) {
      forall i | 0 <= i < |keys[1..]| && keys[1..][i] in s'.intents && Unacknowledged(s'.intents[keys[1..][i]])
        ensures Deliverable(s', keys[1..][i])
      {
        assert keys[1..][i] == keys[i + 1];
      }
    }
  }

  /**
    When a store can be opened: every unbound intent's creating commit is still
    in the versioned log, and every undelivered row can count one more retry.
  */
  ghost predicate Recoverable(s: State) {
    forall key :: key in s.intents && Unacknowledged(s.intents[key]) ==> RecoverableKey(s, key)
  }

  ghost predicate RecoverableKey(s: State, key: IntentKey)
    requires key in s.intents
  {
    if !IsBound(s.intents[key]) then key in s.history.births && s.history.births[key] in s.log
    else DeliveryKey(key, s.intents[key]) in s.outbox && CanTake(s.outbox[DeliveryKey(key, s.intents[key])].retries)
  }

  lemma RecoverableIsDeliverable(s: State, keys: seq<IntentKey>)
    requires Inv(s) && Lists(keys, s)
    ensures Recoverable(s) <==> AllDeliverable(Requeue(s), keys)
  {
    hide Inv, Deliverable;
    var r := Requeue(s);
    RequeueKeeps(s);
    forall key | key in s.intents && Unacknowledged(s.intents[key])
      ensures Deliverable(r, key) <==> RecoverableKey(s, key)
    {
      RequeuedDeliverable(s, key);
    }
    if AllDeliverable(r, keys) {
      forall key | key in s.intents && Unacknowledged(s.intents[key]) ensures Deliverable(r, key) {
        var i :| 0 <= i < |keys| && keys[i] == key;
        assert r.intents == s.intents;
      }
    }
  }

  lemma RequeuedRow(s: State, o: OutboxKey)
    requires o in s.outbox
    ensures o in Requeue(s).outbox
    ensures Requeue(s).outbox[o] == if s.outbox[o].delivery == Dispatched then s.outbox[o].(delivery := Undelivered)
                                    else s.outbox[o]
  {
    var flying := set q | q in s.outbox && s.outbox[q].delivery == Dispatched;
    assert o in flying <==> s.outbox[o].delivery == Dispatched;
  }

  lemma RequeuedLog(s: State)
    ensures Requeue(s).intents == s.intents && Requeue(s).history == s.history
    ensures forall c :: c <= s.sequence ==> (c in Requeue(s).log <==> c in s.log)
  {
  }

  lemma RequeuedDeliverable(s: State, key: IntentKey)
    requires Inv(s) && key in s.intents && Unacknowledged(s.intents[key])
    ensures Deliverable(Requeue(s), key) <==> RecoverableKey(s, key)
  {
    hide Inv, EndsWell, Requeue;
    IntentFacts(s, key);
    MarkersFact(s);
    RequeuedLog(s);
    if IsBound(s.intents[key]) {
      var o := DeliveryKey(key, s.intents[key]);
      assert CarriedAt(s.intents, s.history.origins, o, s.outbox[o]);
      assert s.outbox[o].delivery != Delivered;
      RequeuedRow(s, o);
    }
  }

  /** Opening succeeds exactly when the store is recoverable, and then everything is settled. */
  lemma OpenSettles(s: State, keys: seq<IntentKey>)
    requires Inv(s) && Lists(keys, s)
    ensures Open(s, keys).Done? <==> Recoverable(s)
    ensures Open(s, keys).Done? ==>
              var s' := Open(s, keys).state;
              Inv(s') && Quiescent(s') && ViewOf(s') == Settled(s)
  {
    hide Inv, Settled, ViewOf, Quiescent, CompleteAll, ReconcileOutbox, Recoverable, AllDeliverable;
    var r := Requeue(s);
    RequeueKeeps(s);
    DeliverySettles(s, RequeueStep);
    RecoverableIsDeliverable(s, keys);
    assert StillListed(r, r.intents, keys);
    CompleteAllDelivers(r, r.intents, keys);
    if CompleteAll(r, r.intents, keys).Done? {
      var c := CompleteAll(r, r.intents, keys).state;
      ReconcileChangesNothing(c);
      QuiescentIsSettled(c);
    }
  }

  /** Opening a store that has nothing pending writes nothing at all. */
  lemma OpenAgain(s: State, keys: seq<IntentKey>)
    requires Inv(s) && Quiescent(s) && Lists(keys, s)
    ensures Open(s, keys) == Done(s)
  {
    QuiescentDelivered(s);
    assert Requeue(s) == s;
    SkipsAll(s, keys);
    ReconcileChangesNothing(s);
  }

  lemma QuiescentDelivered(s: State)
    requires Inv(s) && Quiescent(s)
    ensures forall o :: o in s.outbox ==> s.outbox[o].delivery == Delivered
  {
    hide Sequenced, Born, Marked, Logged, Positioned, Awaited, Covered, Ending, BelowHighWater, OneCurrent, CanonicalRows;
    forall o | o in s.outbox ensures s.outbox[o].delivery == Delivered {
      assert CarriedAt(s.intents, s.history.origins, o, s.outbox[o]);
    }
  }

  lemma {:induction false} SkipsAll(s: State, keys: seq<IntentKey>)
    requires Quiescent(s) && forall i :: 0 <= i < |keys| ==> keys[i] in s.intents
    ensures CompleteAll(s, s.intents, keys) == Done(s)
    decreases |keys|
  {
    if keys != [] { SkipsAll(s, keys[1..]); }
  }

  // ---- the main results --------------------------------------------------

  /**
    Crash-anywhere recovery. `history` is any run of any callers; `before` are
    delivery steps taken, for any of the pending intents in any order, up to the
    crash; `uninterrupted` are delivery steps a run without the crash would have
    taken to acknowledge everything. Opening after the crash ends in the same
    intents, journal, deliveries, records and jobs.
  */
  lemma CrashAnywhere(history: seq<Step>, before: seq<Step>, keys: seq<IntentKey>, uninterrupted: seq<Step>)
    requires DisciplinedRun(EMPTY, history)
    requires var s := Run(EMPTY, history);
             && DisciplinedRun(s, before) && Deliveries(before)
             && DisciplinedRun(s, uninterrupted) && Deliveries(uninterrupted)
             && Quiescent(Run(s, uninterrupted))
             && Lists(keys, Run(s, before)) && Open(Run(s, before), keys).Done?
    ensures var s := Run(EMPTY, history);
            && Quiescent(Open(Run(s, before), keys).state)
            && ViewOf(Open(Run(s, before), keys).state) == ViewOf(Run(s, uninterrupted))
  {
    hide Inv, Settled, ViewOf, Quiescent, Open, Lists, Run, DisciplinedRun;
    ReachableHolds(history);
    var s := Run(EMPTY, history);
    DeliveriesSettle(s, before);
    DeliveriesSettle(s, uninterrupted);
    OpenSettles(Run(s, before), keys);
    QuiescentIsSettled(Run(s, uninterrupted));
  }

  /**
    In every reachable store, opening succeeds if and only if the creating
    commit of each unbound intent is still logged and no retry counter is
    exhausted; a second opening then commits nothing.
  */
  lemma OpenExactly(history: seq<Step>, keys: seq<IntentKey>)
    requires DisciplinedRun(EMPTY, history) && Lists(keys, Run(EMPTY, history))
    ensures Open(Run(EMPTY, history), keys).Done? <==> Recoverable(Run(EMPTY, history))
    ensures Open(Run(EMPTY, history), keys).Done? ==>
              var reopened := Open(Run(EMPTY, history), keys).state;
              forall again :: Lists(again, reopened) ==> Open(reopened, again) == Done(reopened)
  {
    hide Inv, Settled, ViewOf, Quiescent, Open, Lists, Recoverable, Run, DisciplinedRun;
    ReachableHolds(history);
    var s := Run(EMPTY, history);
    OpenSettles(s, keys);
    if Open(s, keys).Done? {
      var reopened := Open(s, keys).state;
      forall again | Lists(again, reopened) ensures Open(reopened, again) == Done(reopened) {
        OpenAgain(reopened, again);
      }
    }
  }
}
