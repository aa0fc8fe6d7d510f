/** Every step of every caller keeps the store invariant. */
module StorePreservation {
  import opened Options
  import opened StoreModel
  import opened StoreInvariant
  import opened StoreGroups

  // ---- commits -----------------------------------------------------------

  lemma BornFacts(keys: set<IntentKey>, births: map<IntentKey, nat>, origins: map<nat, IntentKey>, sequence: nat)
    requires Born(keys, births, origins, sequence)
    ensures births.Keys == keys
    ensures forall key :: key in births ==>
              births[key] <= sequence && births[key] in origins && origins[births[key]] == key
    ensures forall m :: m in origins ==> origins[m] in births && births[origins[m]] == m && m <= sequence
  {
  }

  /** A commit that names no intent keeps the markers and their candidates. */
  lemma QuietCommit(s: State, touched: set<RowName>)
    requires Born(s.intents.Keys, s.history.births, s.history.origins, s.sequence)
    requires Logged(s.intents, s.history.births, s.log, s.sequence)
    requires forall key :: IntentRow(key) !in touched
    ensures var c := Commit(s, touched);
            && Born(s.intents.Keys, s.history.births, s.history.origins, c.sequence)
            && Logged(s.intents, s.history.births, c.log, c.sequence)
  {
    hide Born, Logged;
    BornFacts(s.intents.Keys, s.history.births, s.history.origins, s.sequence);
    BornLater(s.intents.Keys, s.history.births, s.history.origins, s.sequence);
    LoggedCommit(s.intents, s.history.births, s.log, s.sequence, touched);
  }

  /** A commit that rewrites one intent, now bound to its creating commit. */
  lemma IntentCommit(s: State, key: IntentKey, intent: Intent, touched: set<RowName>)
    requires Born(s.intents.Keys, s.history.births, s.history.origins, s.sequence)
    requires Logged(s.intents, s.history.births, s.log, s.sequence) && Marked(s.intents, s.history.births)
    requires key in s.intents && key in s.history.births && IsBound(intent) && MarkedAt(intent, s.history.births[key])
    requires forall other :: IntentRow(other) in touched ==> other == key
    ensures var c := Commit(s, touched); var intents := s.intents[key := intent];
            && Born(intents.Keys, s.history.births, s.history.origins, c.sequence)
            && Logged(intents, s.history.births, c.log, c.sequence)
            && Marked(intents, s.history.births)
  {
    hide Born, Logged, Marked;
    BornFacts(s.intents.Keys, s.history.births, s.history.origins, s.sequence);
    BornLater(s.intents.Keys, s.history.births, s.history.origins, s.sequence);
    LoggedRebound(s.intents, s.history.births, s.log, s.sequence, key, intent);
    LoggedCommit(s.intents[key := intent], s.history.births, s.log, s.sequence, touched);
    MarkedUpdate(s.intents, s.history.births, key, intent);
    assert s.intents.Keys == s.intents[key := intent].Keys;
  }

  /** The facts about one intent that the delivery steps rely on. */
  ghost predicate KnownIntent(s: State, key: IntentKey) {
    && key in s.intents && key in s.history.births && MarkedAt(s.intents[key], s.history.births[key])
    && s.history.births[key] in s.history.origins && s.history.origins[s.history.births[key]] == key
    && key.deployment in s.records && key.deployment in s.history.counts && 1 <= s.history.counts[key.deployment]
    && (Unacknowledged(s.intents[key]) ==> key == LastOf(s.history.counts, key.deployment))
    && (s.intents[key].position in s.events ==> Holds(s.events[s.intents[key].position], key, s.intents))
    && (IsBound(s.intents[key]) ==> KnownDelivery(s, key))
    && (OutboxKey(key.deployment, s.history.births[key]) in s.outbox ==> IsBound(s.intents[key]))
    && EndsWell(s.intents, s.records, s.jobs.Keys, s.history.counts, key.deployment)
  }

  ghost predicate KnownDelivery(s: State, key: IntentKey)
    requires key in s.intents && IsBound(s.intents[key])
  {
    var o := DeliveryKey(key, s.intents[key]);
    && (o in s.outbox ==> CarriedAt(s.intents, s.history.origins, o, s.outbox[o]))
    && (Unacknowledged(s.intents[key]) ==> o in s.outbox)
  }

  lemma IntentFacts(s: State, key: IntentKey)
    requires Inv(s) && key in s.intents
    ensures KnownIntent(s, key)
  {
    hide Inv, EndsWell, KnownDelivery, LastOf;
    OwnCommit(s, key);
    OwnPlace(s, key);
    OwnDelivery(s, key);
    OwnEnd(s, key);
  }

  lemma OwnCommit(s: State, key: IntentKey)
    requires Inv(s) && key in s.intents
    ensures key in s.history.births && MarkedAt(s.intents[key], s.history.births[key])
    ensures s.history.births[key] in s.history.origins && s.history.origins[s.history.births[key]] == key
    ensures s.history.births[key] <= s.sequence
    ensures s.intents[key].position in s.events ==> Holds(s.events[s.intents[key].position], key, s.intents)
  {
    hide Sequenced, Logged, Carried, Awaited, Covered, Ending, BelowHighWater, OneCurrent, CanonicalRows;
  }

  lemma OwnPlace(s: State, key: IntentKey)
    requires Inv(s) && key in s.intents
    ensures key.deployment in s.records && key.deployment in s.history.counts && 1 <= s.history.counts[key.deployment]
    ensures Unacknowledged(s.intents[key]) ==> key == LastOf(s.history.counts, key.deployment)
  {
    hide Born, Marked, Logged, Positioned, Carried, Awaited, Covered, Ending, BelowHighWater, OneCurrent, CanonicalRows;
  }

  lemma OwnDelivery(s: State, key: IntentKey)
    requires Inv(s) && key in s.intents
    requires key in s.history.births && MarkedAt(s.intents[key], s.history.births[key])
    requires s.history.births[key] in s.history.origins && s.history.origins[s.history.births[key]] == key
    ensures IsBound(s.intents[key]) ==> KnownDelivery(s, key)
    ensures OutboxKey(key.deployment, s.history.births[key]) in s.outbox ==> IsBound(s.intents[key])
  {
    hide Sequenced, Born, Marked, Logged, Positioned, Covered, Ending, BelowHighWater, OneCurrent, CanonicalRows;
    var o := OutboxKey(key.deployment, s.history.births[key]);
    if o in s.outbox { assert CarriedAt(s.intents, s.history.origins, o, s.outbox[o]); }
  }

  lemma OwnEnd(s: State, key: IntentKey)
    requires Inv(s) && key in s.intents && key.deployment in s.records
    ensures EndsWell(s.intents, s.records, s.jobs.Keys, s.history.counts, key.deployment)
  {
    hide Sequenced, Born, Marked, Logged, Positioned, Carried, Awaited, Covered, Ending, BelowHighWater, OneCurrent, CanonicalRows;
    EndsWellBefore(s.intents, s.records, s.jobs.Keys, s.history.counts, key.deployment);
  }

  /** The creating commits of all intents, from the invariant as a whole. */
  lemma MarkersFact(s: State)
    requires Inv(s)
    ensures s.history.births.Keys == s.intents.Keys
    ensures forall key :: key in s.history.births ==>
              s.history.births[key] <= s.sequence && s.history.births[key] in s.history.origins
              && s.history.origins[s.history.births[key]] == key
    ensures forall m :: m in s.history.origins ==>
              s.history.origins[m] in s.history.births && s.history.births[s.history.origins[m]] == m && m <= s.sequence
  {
    hide Sequenced, Born, Marked, Logged, Positioned, Carried, Awaited, Covered, Ending, BelowHighWater, OneCurrent, CanonicalRows;
    BornFacts(s.intents.Keys, s.history.births, s.history.origins, s.sequence);
  }

  /** An unbound intent has its creating commit as its one candidate, if that is still logged. */
  lemma SourcesFact(s: State, key: IntentKey)
    requires Inv(s) && key in s.intents && !IsBound(s.intents[key])
    ensures key in s.history.births
    ensures SourceCommits(s.log, key) == if s.history.births[key] in s.log then {s.history.births[key]} else {}
  {
    hide Sequenced, Born, Marked, Logged, Positioned, Carried, Awaited, Covered, Ending, BelowHighWater, OneCurrent, CanonicalRows;
    MarkersFact(s);
    SourcesOfUnbound(s.intents, s.history.births, s.log, s.sequence, key);
  }

  // ---- delivery ----------------------------------------------------------

  lemma BindKeeps(s: State, key: IntentKey)
    requires Inv(s)
    ensures Inv(Bind(s, key).state)
  {
    hide Sequenced, Born, Marked, Logged, Positioned, Carried, Awaited, Covered, Ending, BelowHighWater, OneCurrent, CanonicalRows;
    if key in s.intents && !IsBound(s.intents[key]) {
      IntentFacts(s, key);
      var birth := s.history.births[key];
      SourcesOfUnbound(s.intents, s.history.births, s.log, s.sequence, key);
      if birth in s.log {
        assert Bind(s, key) == BindTo(s, key, birth);
        BindToKeeps(s, key);
      }
    }
  }

  /** The bound marker is the commit that created the intent, and it is bound without refusal. */
  lemma BindToKeeps(s: State, key: IntentKey)
    requires Inv(s) && key in s.intents && !IsBound(s.intents[key])
    requires key in s.history.births
    ensures BindTo(s, key, s.history.births[key]).Done?
    ensures Inv(BindTo(s, key, s.history.births[key]).state)
  {
    hide Sequenced, Born, Marked, Logged, Positioned, Carried, Awaited, Covered, Ending, BelowHighWater, OneCurrent, CanonicalRows;
    IntentFacts(s, key);
    var birth := s.history.births[key];
    var intent := s.intents[key];
    var bound := intent.(marker := Some(birth), state := Bound);
    var delivery := OutboxKey(key.deployment, birth);
    var s' := BindTo(s, key, birth).state;
    assert EndsWell(s.intents, s.records, s.jobs.Keys, s.history.counts, key.deployment);
    SequencedUpdate(s.intents, s.records.Keys, s.history.counts, key, bound);
    assert s'.records.Keys == s.records.Keys;
    IntentCommit(s, key, bound, {IntentRow(key), OutboxRowName(delivery)} +
                     (if MarksRecord(intent) then {RecordRow(key.deployment)} else {}));
    PositionedUpdate(s.intents, s.history.owners, s.history.reserved, s.events, s.allocation.nextPosition, key, bound);
    CarriedBind(s.intents, s.history.origins, s.outbox, key, bound);
    AwaitedAgain(s.intents, s.outbox, s'.outbox);
    AwaitedUpdate(s.intents, s'.outbox, key, bound);
    CoveredAgain(s.events, s.outbox, s'.outbox);
    BindEnds(s, key);
    HighWaterRecord(s.records, s'.records, s.jobs, s.live, s.roots, s.allocation);
  }

  lemma BindEnds(s: State, key: IntentKey)
    requires Inv(s) && key in s.intents && !IsBound(s.intents[key]) && key in s.history.births
    requires OutboxKey(key.deployment, s.history.births[key]) !in s.outbox
    ensures BindTo(s, key, s.history.births[key]).Done?
    ensures var s' := BindTo(s, key, s.history.births[key]).state;
            Ending(s'.intents, s'.records, s'.jobs.Keys, s'.history.counts)
  {
    hide Sequenced, Born, Marked, Logged, Positioned, Carried, Awaited, Covered, Ending, BelowHighWater, OneCurrent, CanonicalRows;
    IntentFacts(s, key);
    LastIsUnique(s, key.deployment);
    var s' := BindTo(s, key, s.history.births[key]).state;
    assert EndsWell(s'.intents, s'.records, s'.jobs.Keys, s'.history.counts, key.deployment);
    EndingAt(s.intents, s.records, s.jobs.Keys, s.history.counts,
             s'.intents, s'.records, s'.jobs.Keys, s'.history.counts, key.deployment);
  }

  lemma LastIsUnique(s: State, d: nat)
    requires Inv(s)
    ensures forall key :: key in s.intents ==> key.deployment in s.records
  {
    hide Born, Marked, Logged, Positioned, Carried, Awaited, Covered, Ending, BelowHighWater, OneCurrent, CanonicalRows;
  }

  /** Rewriting records without touching their generations leaves identifiers where they were. */
  lemma HighWaterRecord(records: map<nat, DeploymentRecord>, records': map<nat, DeploymentRecord>,
                        jobs: map<nat, DeployJob>, live: map<nat, LiveGeneration>, roots: map<nat, GcRoot>,
                        allocation: Allocation)
    requires BelowHighWater(records, jobs, live, roots, allocation)
    requires records'.Keys == records.Keys
    requires forall d :: d in records' ==> records'[d].generation == records[d].generation
    ensures BelowHighWater(records', jobs, live, roots, allocation)
  {
  }

  lemma DispatchKeeps(s: State, key: IntentKey)
    requires Inv(s)
    ensures Inv(Dispatch(s, key).state)
  {
    hide Sequenced, Born, Marked, Logged, Positioned, Carried, Awaited, Covered, Ending, BelowHighWater, OneCurrent, CanonicalRows;
    var s' := Dispatch(s, key).state;
    if s' != s {
      QuietCommit(s, {OutboxRowName(DeliveryKey(key, s.intents[key]))});
      CarriedAgain(s.intents, s.history.origins, s.outbox, s'.outbox);
      AwaitedAgain(s.intents, s.outbox, s'.outbox);
      CoveredAgain(s.events, s.outbox, s'.outbox);
    }
  }

  lemma AppendKeeps(s: State, key: IntentKey)
    requires Inv(s) && (key in s.intents ==> Unacknowledged(s.intents[key]))
    ensures Inv(Append(s, key).state)
  {
    hide Sequenced, Born, Marked, Logged, Positioned, Carried, Awaited, Covered, Ending, BelowHighWater, OneCurrent, CanonicalRows;
    var s' := Append(s, key).state;
    if s' != s {
      IntentFacts(s, key);
      var intent := s.intents[key];
      var appended := intent.(state := Appended);
      SequencedUpdate(s.intents, s.records.Keys, s.history.counts, key, appended);
      CarriedState(s.intents, s.history.origins, s.outbox, key);
      AwaitedUpdate(s.intents, s.outbox, key, appended);
      AppendEnds(s, key);
      if intent.position !in s.events {
        IntentCommit(s, key, appended, {EventRow(intent.position), IntentRow(key)});
        PositionedEvent(s.intents, s.history.owners, s.history.reserved, s.events, s.allocation.nextPosition, key, appended);
        CoveredEvent(s.events, s.outbox, intent.position, Deployment(EventOf(key, intent)));
      } else {
        IntentCommit(s, key, appended, {IntentRow(key)});
        PositionedUpdate(s.intents, s.history.owners, s.history.reserved, s.events, s.allocation.nextPosition, key, appended);
      }
    }
  }

  lemma AppendEnds(s: State, key: IntentKey)
    requires Inv(s) && key in s.intents && IsBound(s.intents[key]) && Unacknowledged(s.intents[key])
    ensures Ending(s.intents[key := s.intents[key].(state := Appended)], s.records, s.jobs.Keys, s.history.counts)
  {
    hide Sequenced, Born, Marked, Logged, Positioned, Carried, Awaited, Covered, Ending, BelowHighWater, OneCurrent, CanonicalRows;
    IntentFacts(s, key);
    LastIsUnique(s, key.deployment);
    var intents := s.intents[key := s.intents[key].(state := Appended)];
    assert EndsWell(intents, s.records, s.jobs.Keys, s.history.counts, key.deployment);
    EndingAt(s.intents, s.records, s.jobs.Keys, s.history.counts,
             intents, s.records, s.jobs.Keys, s.history.counts, key.deployment);
  }

  lemma AcknowledgeKeeps(s: State, key: IntentKey)
    requires Inv(s)
    ensures Inv(Acknowledge(s, key).state)
  {
    hide Sequenced, Born, Marked, Logged, Positioned, Carried, Awaited, Covered, Ending, BelowHighWater, OneCurrent, CanonicalRows;
    var s' := Acknowledge(s, key).state;
    if s' != s {
      IntentFacts(s, key);
      BornFacts(s.intents.Keys, s.history.births, s.history.origins, s.sequence);
      var intent := s.intents[key];
      var acknowledged := intent.(state := Acknowledged);
      var delivery := DeliveryKey(key, intent);
      SequencedUpdate(s.intents, s.records.Keys, s.history.counts, key, acknowledged);
      IntentCommit(s, key, acknowledged, {OutboxRowName(delivery), IntentRow(key)} +
                       (if intent.terminal.Some? && key.deployment in s.jobs then {JobRow(key.deployment)} else {}));
      CarriedAcknowledge(s.intents, s.history.births, s.history.origins, s.outbox, key);
      AwaitedAgain(s.intents, s.outbox, s'.outbox);
      AwaitedUpdate(s.intents, s'.outbox, key, acknowledged);
      CoveredAgain(s.events, s.outbox, s'.outbox);
      PositionedUpdate(s.intents, s.history.owners, s.history.reserved, s.events, s.allocation.nextPosition, key, acknowledged);
      AcknowledgeEnds(s, key);
      FewerJobs(s, s');
    }
  }

  lemma AcknowledgeEnds(s: State, key: IntentKey)
    requires Inv(s) && key in s.intents && IsBound(s.intents[key])
    ensures var jobs := if s.intents[key].terminal.Some? && key.deployment in s.jobs
                        then s.jobs - {key.deployment} else s.jobs;
            Ending(s.intents[key := s.intents[key].(state := Acknowledged)], s.records, jobs.Keys, s.history.counts)
  {
    hide Sequenced, Born, Marked, Logged, Positioned, Carried, Awaited, Covered, Ending, BelowHighWater, OneCurrent, CanonicalRows;
    IntentFacts(s, key);
    LastIsUnique(s, key.deployment);
    var jobs := if s.intents[key].terminal.Some? && key.deployment in s.jobs then s.jobs - {key.deployment} else s.jobs;
    var intents := s.intents[key := s.intents[key].(state := Acknowledged)];
    assert EndsWell(intents, s.records, jobs.Keys, s.history.counts, key.deployment);
    EndingAt(s.intents, s.records, s.jobs.Keys, s.history.counts,
             intents, s.records, jobs.Keys, s.history.counts, key.deployment);
  }

  lemma FewerJobs(s: State, s': State)
    requires Inv(s) && s'.jobs.Keys <= s.jobs.Keys && forall d :: d in s'.jobs ==> s'.jobs[d] == s.jobs[d]
    requires s'.records == s.records && s'.live == s.live && s'.roots == s.roots && s'.allocation == s.allocation
    ensures BelowHighWater(s'.records, s'.jobs, s'.live, s'.roots, s'.allocation)
    ensures CanonicalRows(s'.jobs, s'.live, s'.roots)
  {
    hide Sequenced, Born, Marked, Logged, Positioned, Carried, Awaited, Covered, Ending, OneCurrent, FreshJob, CanonicalClosure;
  }

  // ---- beginning ---------------------------------------------------------

  /** What every operation that creates an intent has in common. */
  lemma BeginKeeps(s: State, s': State, key: IntentKey, intent: Intent, touched: set<RowName>)
    requires Inv(s)
    requires var n := WithIntent(s, key, intent, touched);
             && s'.intents == n.intents && s'.history == n.history && s'.log == n.log && s'.sequence == n.sequence
             && s'.outbox == s.outbox && s'.events == s.events
             && s'.live == s.live && s'.roots == s.roots
    requires key.ordinal == (if key.deployment in s.history.counts then s.history.counts[key.deployment] else 0)
    requires !EarlierPending(s.intents, key.deployment)
    requires !IsBound(intent) && intent.state == Pending
    requires CreatesIntent(touched, key) && forall other :: IntentRow(other) in touched ==> other == key
    requires s.allocation.nextPosition <= s'.allocation.nextPosition && intent.position < s'.allocation.nextPosition
    requires Unclaimed(s.history.owners, s.events, s.allocation.nextPosition, intent.position)
    requires s'.records.Keys == s.records.Keys + {key.deployment}
    requires Ending(s'.intents, s'.records, s'.jobs.Keys, s'.history.counts)
    requires BelowHighWater(s'.records, s'.jobs, s'.live, s'.roots, s'.allocation)
    requires CanonicalRows(s'.jobs, s'.live, s'.roots)
    ensures Inv(s')
  {
    hide Sequenced, Born, Marked, Logged, Positioned, Carried, Awaited, Covered, Ending, BelowHighWater, OneCurrent, CanonicalRows;
    BeginKeys(s, key, intent, touched);
    NothingFollows(s.intents, s.records.Keys, s.history.counts, key);
    BornFacts(s.intents.Keys, s.history.births, s.history.origins, s.sequence);
    assert s'.intents.Keys == s.intents.Keys + {key};
    PositionedNew(s.intents, s.history.owners, s.history.reserved, s.events, s.allocation.nextPosition,
                  s'.allocation.nextPosition, key, intent);
    CarriedNew(s.intents, s.history.origins, s.outbox, key, intent, s.sequence + 1);
    AwaitedUpdate(s.intents, s.outbox, key, intent);
  }

  /** The groups about intents and their creating commits, after one more intent. */
  lemma BeginKeys(s: State, key: IntentKey, intent: Intent, touched: set<RowName>)
    requires Inv(s)
    requires key.ordinal == (if key.deployment in s.history.counts then s.history.counts[key.deployment] else 0)
    requires !EarlierPending(s.intents, key.deployment)
    requires !IsBound(intent) && intent.state == Pending
    requires CreatesIntent(touched, key) && forall other :: IntentRow(other) in touched ==> other == key
    ensures var intents := s.intents[key := intent]; var commit := s.sequence + 1;
            var births := s.history.births[key := commit];
            && Sequenced(intents, s.records.Keys + {key.deployment}, s.history.counts[key.deployment := key.ordinal + 1])
            && Born(intents.Keys, births, s.history.origins[commit := key], commit)
            && Marked(intents, births) && Logged(intents, births, s.log[commit := touched], commit)
  {
    hide Sequenced, Born, Marked, Logged, Positioned, Carried, Awaited, Covered, Ending, BelowHighWater, OneCurrent, CanonicalRows;
    BornFacts(s.intents.Keys, s.history.births, s.history.origins, s.sequence);
    NothingFollows(s.intents, s.records.Keys, s.history.counts, key);
    SequencedNew(s.intents, s.records.Keys, s.history.counts, key, intent);
    BornNew(s.intents.Keys, s.history.births, s.history.origins, s.sequence, key);
    assert s.intents[key := intent].Keys == s.intents.Keys + {key};
    MarkedNew(s.intents, s.history.births, key, intent, s.sequence + 1);
    LoggedBirth(s.intents, s.history.births, s.log, s.sequence, touched, key, intent);
  }

  lemma NothingFollows(intents: map<IntentKey, Intent>, deployments: set<nat>, counts: map<nat, nat>, key: IntentKey)
    requires Sequenced(intents, deployments, counts)
    requires key.ordinal == (if key.deployment in counts then counts[key.deployment] else 0)
    ensures key !in intents && forall later :: later in intents ==> !Precedes(key, later)
  {
  }

  /** The group `Ending` after a transition was begun for a deployment. */
  lemma BeginEnds(s: State, key: IntentKey, intent: Intent, records: map<nat, DeploymentRecord>, jobs: set<nat>)
    requires Inv(s)
    requires key.ordinal == (if key.deployment in s.history.counts then s.history.counts[key.deployment] else 0)
    requires key.deployment in records && records == s.records[key.deployment := records[key.deployment]]
    requires jobs <= s.jobs.Keys + {key.deployment} && s.jobs.Keys <= jobs
    requires AgreesWithLast(records[key.deployment], intent, key.deployment in jobs)
    requires intent.generation == records[key.deployment].generation && !IsBound(intent)
    requires key.deployment in s.records ==>
               && s.records[key.deployment].terminal.None?
               && s.records[key.deployment].generation == records[key.deployment].generation
               && s.records[key.deployment].admissionMarker == records[key.deployment].admissionMarker
    ensures Ending(s.intents[key := intent], records, jobs, s.history.counts[key.deployment := key.ordinal + 1])
  {
    hide Sequenced, Born, Marked, Logged, Positioned, Carried, Awaited, Covered, Ending, BelowHighWater, OneCurrent, CanonicalRows;
    var d := key.deployment;
    NothingFollows(s.intents, s.records.Keys, s.history.counts, key);
    LastIsUnique(s, d);
    if d in s.records {
      EndsWellBefore(s.intents, s.records, s.jobs.Keys, s.history.counts, d);
    }
    var intents := s.intents[key := intent];
    var counts := s.history.counts[d := key.ordinal + 1];
    SameDeployments(s);
    SequencedKeys(s.intents, s.records.Keys, s.history.counts, d);
    assert LastOf(counts, d) == key;
    assert EndsWell(intents, records, jobs, counts, d);
    EndingAt(s.intents, s.records, s.jobs.Keys, s.history.counts, intents, records, jobs, counts, d);
  }

  lemma SameDeployments(s: State)
    requires Inv(s)
    ensures s.records.Keys == s.history.counts.Keys
  {
    hide Born, Marked, Logged, Positioned, Carried, Awaited, Covered, Ending, BelowHighWater, OneCurrent, CanonicalRows;
  }

  lemma NextOf(s: State, d: nat)
    requires Inv(s) && d in s.records
    ensures d in s.history.counts && Above(OrdinalsOf(s.intents, d)) == s.history.counts[d]
  {
    hide Sequenced, Born, Marked, Logged, Positioned, Carried, Awaited, Covered, Ending, BelowHighWater, OneCurrent, CanonicalRows;
    NextOrdinal(s.intents, s.records.Keys, s.history.counts, d);
    SameDeployments(s);
  }

  lemma SequencedKeys(intents: map<IntentKey, Intent>, deployments: set<nat>, counts: map<nat, nat>, d: nat)
    requires Sequenced(intents, deployments, counts)
    ensures forall key :: key in intents && key.deployment == d ==> d in counts && key.ordinal < counts[d]
  {
  }

  lemma NewDeployment(s: State)
    requires Inv(s)
    ensures s.allocation.nextDeployment !in s.records
    ensures s.allocation.nextDeployment !in s.jobs
    ensures IntentKey(s.allocation.nextDeployment, 0) !in s.intents
    ensures !EarlierPending(s.intents, s.allocation.nextDeployment)
    ensures s.allocation.nextDeployment !in s.history.counts
  {
    hide Born, Marked, Logged, Positioned, Carried, Awaited, Covered, OneCurrent, CanonicalRows, Ending;
  }

  lemma AdmitKeeps(s: State, identity: RequestIdentity, job: DeployJob)
    requires Inv(s)
    ensures Inv(BeginAdmission(s, identity, job).state)
  {
    hide Sequenced, Born, Marked, Logged, Positioned, Carried, Awaited, Covered, Ending, BelowHighWater, OneCurrent, CanonicalRows;
    var s' := BeginAdmission(s, identity, job).state;
    if s' != s {
      NewDeployment(s);
      var d := s.allocation.nextDeployment;
      var key := IntentKey(d, 0);
      var intent := s'.intents[key];
      BeginEnds(s, key, intent, s'.records, s'.jobs.Keys);
      NewIdentifiers(s, s', d);
      BeginKeeps(s, s', key, intent, {AllocationRow, RecordRow(d), JobRow(d), IntentRow(key)});
    }
  }

  lemma NewIdentifiers(s: State, s': State, d: nat)
    requires Inv(s) && d == s.allocation.nextDeployment
    requires s'.live == s.live && s'.roots == s.roots
    requires d in s'.records && s'.records == s.records[d := s'.records[d]]
    requires s'.records[d].generation == s.allocation.nextGeneration
    requires s'.jobs == s.jobs || (d in s'.jobs && s'.jobs == s.jobs[d := s'.jobs[d]]
               && s'.jobs[d].generation == s.allocation.nextGeneration && FreshJob(s'.jobs[d]))
    requires s'.allocation.nextDeployment == d + 1
    requires s'.allocation.nextGeneration == s.allocation.nextGeneration + 1
    ensures BelowHighWater(s'.records, s'.jobs, s'.live, s'.roots, s'.allocation)
    ensures CanonicalRows(s'.jobs, s'.live, s'.roots)
  {
    hide Sequenced, Born, Marked, Logged, Positioned, Carried, Awaited, Covered, Ending, OneCurrent, FreshJob, CanonicalClosure;
  }

  lemma RejectKeeps(s: State, identity: RequestIdentity, terminal: DeploymentTerminal)
    requires Inv(s)
    ensures Inv(BeginRejection(s, identity, terminal).state)
  {
    hide Sequenced, Born, Marked, Logged, Positioned, Carried, Awaited, Covered, Ending, BelowHighWater, OneCurrent, CanonicalRows;
    var s' := BeginRejection(s, identity, terminal).state;
    if s' != s {
      NewDeployment(s);
      var d := s.allocation.nextDeployment;
      var key := IntentKey(d, 0);
      var intent := s'.intents[key];
      BeginEnds(s, key, intent, s'.records, s'.jobs.Keys);
      NewIdentifiers(s, s', d);
      BeginKeeps(s, s', key, intent, {AllocationRow, RecordRow(d), IntentRow(key)});
    }
  }

  lemma TerminateKeeps(s: State, d: nat, terminal: DeploymentTerminal)
    requires Inv(s)
    ensures Inv(BeginTerminal(s, d, terminal).state)
  {
    hide Sequenced, Born, Marked, Logged, Positioned, Carried, Awaited, Covered, Ending, BelowHighWater, OneCurrent, CanonicalRows;
    if BeginTerminal(s, d, terminal).Done? {
      NextOrdinal(s.intents, s.records.Keys, s.history.counts, d);
      SameDeployments(s);
      TerminateDoneKeeps(s, d, terminal);
    }
  }

  lemma TerminateDoneKeeps(s: State, d: nat, terminal: DeploymentTerminal)
    requires Inv(s) && BeginTerminal(s, d, terminal).Done? && d in s.history.counts
    requires Above(OrdinalsOf(s.intents, d)) == s.history.counts[d]
    ensures Inv(BeginTerminal(s, d, terminal).state)
  {
    hide Sequenced, Born, Marked, Logged, Positioned, Carried, Awaited, Covered, Ending, BelowHighWater, OneCurrent, CanonicalRows;
    var s' := BeginTerminal(s, d, terminal).state;
    var key := IntentKey(d, s.history.counts[d]);
    var intent := NewIntent(s'.records[d], LifecycleOf(terminal), s.allocation.nextPosition, Some(terminal));
    LastGenerations(s, d);
    assert s'.jobs.Keys == s.jobs.Keys;
    assert AgreesWithLast(s'.records[d], intent, d in s'.jobs.Keys);
    BeginEnds(s, key, intent, s'.records, s'.jobs.Keys);
    JobRewritten(s, s', d);
    BeginKeeps(s, s', key, intent, {AllocationRow, RecordRow(d), IntentRow(key)} +
      (if d in s.jobs then {JobRow(d)} else {}));
  }

  lemma LastGenerations(s: State, d: nat)
    requires Inv(s) && d in s.records
    ensures d in s.jobs ==> s.jobs[d].generation == s.records[d].generation && FreshJob(s.jobs[d])
  {
    hide Sequenced, Born, Marked, Logged, Positioned, Carried, Awaited, Covered, Ending, OneCurrent, FreshJob;
  }

  lemma JobRewritten(s: State, s': State, d: nat)
    requires Inv(s) && d in s.records
    requires s'.live == s.live && s'.roots == s.roots
    requires d in s'.records && s'.records == s.records[d := s'.records[d]]
    requires s'.records[d].generation == s.records[d].generation
    requires s'.jobs == s.jobs || (d in s'.jobs && s'.jobs == s.jobs[d := s'.jobs[d]]
               && s'.jobs[d].generation == s.records[d].generation && FreshJob(s'.jobs[d]))
    requires s'.allocation.nextDeployment == s.allocation.nextDeployment
    requires s'.allocation.nextGeneration == s.allocation.nextGeneration
    ensures BelowHighWater(s'.records, s'.jobs, s'.live, s'.roots, s'.allocation)
    ensures CanonicalRows(s'.jobs, s'.live, s'.roots)
  {
    hide Sequenced, Born, Marked, Logged, Positioned, Carried, Awaited, Covered, Ending, OneCurrent, FreshJob, CanonicalClosure;
  }

  /**
    A phase is refused for a terminal deployment: its last transition is
    unacknowledged, or its job is gone.
  */
  lemma TerminalRefusesPhase(s: State, d: nat)
    requires Inv(s) && d in s.records && s.records[d].terminal.Some? && d in s.jobs
    ensures EarlierPending(s.intents, d)
  {
    hide Sequenced, Born, Marked, Logged, Positioned, Carried, Awaited, Covered, Ending, BelowHighWater, OneCurrent, CanonicalRows;
    EndsWellBefore(s.intents, s.records, s.jobs.Keys, s.history.counts, d);
    assert EndsWell(s.intents, s.records, s.jobs.Keys, s.history.counts, d);
    assert Unacknowledged(s.intents[LastOf(s.history.counts, d)]);
  }

  lemma AdvanceKeeps(s: State, d: nat, lifecycle: DeploymentPhase, jd: nat, job: DeployJob, event: PhaseEvent)
    requires Inv(s) && Disciplined(s, Advance(d, lifecycle, jd, job, event))
    ensures Inv(BeginPhase(s, d, lifecycle, jd, job, event).state)
  {
    hide Sequenced, Born, Marked, Logged, Positioned, Carried, Awaited, Covered, Ending, BelowHighWater, OneCurrent, CanonicalRows;
    var s' := BeginPhase(s, d, lifecycle, jd, job, event).state;
    if s' != s {
      NextOrdinal(s.intents, s.records.Keys, s.history.counts, d);
      SameDeployments(s);
      if s.records[d].terminal.Some? {
        TerminalRefusesPhase(s, d);
      }
      var key := IntentKey(d, s.history.counts[d]);
      var intent := s'.intents[key];
      assert s'.jobs.Keys == s.jobs.Keys;
      BeginEnds(s, key, intent, s'.records, s'.jobs.Keys);
      JobRewritten(s, s', d);
      BeginKeeps(s, s', key, intent, {RecordRow(d), JobRow(d), IntentRow(key)});
    }
  }

  // ---- the rest ----------------------------------------------------------

  lemma ReserveKeeps(s: State)
    requires Inv(s)
    ensures Inv(AllocatePosition(s).state)
  {
    hide Sequenced, Born, Marked, Logged, Positioned, Carried, Awaited, Covered, Ending, BelowHighWater, OneCurrent, CanonicalRows;
    var s' := AllocatePosition(s).state;
    if s' != s {
      QuietCommit(s, {AllocationRow});
      PositionedReserve(s.intents, s.history.owners, s.history.reserved, s.events, s.allocation.nextPosition);
      HighWaterSame(s, s');
    }
  }

  lemma HighWaterSame(s: State, s': State)
    requires Inv(s)
    requires s'.records == s.records && s'.jobs == s.jobs && s'.live == s.live && s'.roots == s.roots
    requires s'.allocation.nextDeployment == s.allocation.nextDeployment
    requires s'.allocation.nextGeneration == s.allocation.nextGeneration
    ensures BelowHighWater(s'.records, s'.jobs, s'.live, s'.roots, s'.allocation)
  {
    hide Sequenced, Born, Marked, Logged, Positioned, Carried, Awaited, Covered, Ending, OneCurrent, CanonicalRows;
  }

  lemma OtherKeeps(s: State, p: nat, entry: LoggedEvent)
    requires Inv(s) && Disciplined(s, AppendOther(p, entry))
    ensures Inv(AppendEntry(s, p, entry).state)
  {
    hide Sequenced, Born, Marked, Logged, Positioned, Carried, Awaited, Covered, Ending, BelowHighWater, OneCurrent, CanonicalRows;
    var s' := AppendEntry(s, p, entry).state;
    if s' != s {
      QuietCommit(s, {EventRow(p)} + (if p >= s.allocation.nextPosition then {AllocationRow} else {}));
      PositionedOther(s.intents, s.history.owners, s.history.reserved, s.events, s.allocation.nextPosition,
                      s'.allocation.nextPosition, p, entry);
      CoveredEvent(s.events, s.outbox, p, entry);
      HighWaterSame(s, s');
    }
  }

  lemma ContainerKeeps(s: State, cp: nat, container: ContainerRecord, p: nat, entry: LoggedEvent)
    requires Inv(s) && Disciplined(s, ContainerStep(cp, container, p, entry))
    ensures Inv(RecordContainer(s, cp, container, p, entry).state)
  {
    hide Sequenced, Born, Marked, Logged, Positioned, Carried, Awaited, Covered, Ending, BelowHighWater, OneCurrent, CanonicalRows;
    var s' := RecordContainer(s, cp, container, p, entry).state;
    if s' != s {
      QuietCommit(s, {ContainerRow(cp), EventRow(p)});
      PositionedOther(s.intents, s.history.owners, s.history.reserved, s.events, s.allocation.nextPosition,
                      s.allocation.nextPosition, p, entry);
      CoveredEvent(s.events, s.outbox, p, entry);
    }
  }

  lemma CompactKeeps(s: State, retention: nat)
    requires Inv(s)
    ensures Inv(Compact(s, retention).state)
  {
    hide Sequenced, Born, Marked, Logged, Positioned, Carried, Awaited, Covered, Ending, BelowHighWater, OneCurrent, CanonicalRows;
    var s' := Compact(s, retention).state;
    if s' != s {
      var retired := RetiredPositions(s, retention);
      var deliveries := set o | o in s.outbox && RetiredDelivery(s.outbox[o], retired);
      BornFacts(s.intents.Keys, s.history.births, s.history.origins, s.sequence);
      QuietCommit(s, (set p | p in retired :: EventRow(p)) + (set p | p in s.containers.Keys * retired :: ContainerRow(p))
                     + (set o | o in deliveries :: OutboxRowName(o)));
      PositionedRetire(s.intents, s.history.owners, s.history.reserved, s.events, s.allocation.nextPosition, retired);
      CarriedFewer(s.intents, s.history.origins, s.outbox, deliveries);
      AwaitedFewer(s.intents, s.history.births, s.history.origins, s.outbox, deliveries);
      CoveredRetire(s.intents, s.history.births, s.history.origins, s.history.owners, s.history.reserved, s.events,
                    s.allocation.nextPosition, s.outbox, retired, deliveries);
    }
  }

  lemma TruncateKeeps(s: State, kept: set<nat>)
    requires Inv(s)
    ensures Inv(TruncateLog(s, kept))
  {
    hide Sequenced, Born, Marked, Logged, Positioned, Carried, Awaited, Covered, Ending, BelowHighWater, OneCurrent, CanonicalRows;
    LoggedTruncate(s.intents, s.history.births, s.log, s.sequence, kept);
  }

  lemma ReviseKeeps(s: State, d: nat, revision: string)
    requires Inv(s)
    ensures Inv(SetRevision(s, d, revision).state)
  {
    hide Sequenced, Born, Marked, Logged, Positioned, Carried, Awaited, Covered, Ending, BelowHighWater, OneCurrent, CanonicalRows;
    var s' := SetRevision(s, d, revision).state;
    if s' != s {
      QuietCommit(s, {RecordRow(d)});
      assert s'.records.Keys == s.records.Keys;
      RevisionEnds(s, s', d);
      JobRewritten(s, s', d);
    }
  }

  lemma RevisionEnds(s: State, s': State, d: nat)
    requires Inv(s) && d in s.records && s'.records.Keys == s.records.Keys
    requires s'.records == s.records[d := s.records[d].(identity := s'.records[d].identity)]
    requires s'.jobs.Keys == s.jobs.Keys
    ensures Ending(s.intents, s'.records, s'.jobs.Keys, s.history.counts)
  {
    hide Sequenced, Born, Marked, Logged, Positioned, Carried, Awaited, Covered, Ending, BelowHighWater, OneCurrent, CanonicalRows;
    LastIsUnique(s, d);
    EndsWellBefore(s.intents, s.records, s.jobs.Keys, s.history.counts, d);
    assert EndsWell(s.intents, s'.records, s'.jobs.Keys, s.history.counts, d);
    EndingAt(s.intents, s.records, s.jobs.Keys, s.history.counts,
             s.intents, s'.records, s'.jobs.Keys, s.history.counts, d);
  }

  lemma ResolveKeeps(s: State, d: nat, revision: string, jd: nat, job: DeployJob)
    requires Inv(s) && CursorNames(s, d, job)
    ensures Inv(RecordResolvedSource(s, d, revision, jd, job).state)
  {
    hide Sequenced, Born, Marked, Logged, Positioned, Carried, Awaited, Covered, Ending, BelowHighWater, OneCurrent, CanonicalRows;
    var s' := RecordResolvedSource(s, d, revision, jd, job).state;
    if s' != s {
      QuietCommit(s, {RecordRow(d), JobRow(d)});
      assert s'.records.Keys == s.records.Keys && s'.jobs.Keys == s.jobs.Keys;
      RevisionEnds(s, s', d);
      JobRewritten(s, s', d);
    }
  }

  lemma UpsertKeeps(s: State, d: nat, job: DeployJob)
    requires Inv(s) && Disciplined(s, UpsertStep(d, job))
    ensures Inv(UpsertJob(s, d, job).state)
  {
    hide Sequenced, Born, Marked, Logged, Positioned, Carried, Awaited, Covered, Ending, BelowHighWater, OneCurrent, CanonicalRows;
    var s' := UpsertJob(s, d, job).state;
    if s' != s {
      QuietCommit(s, {JobRow(d)});
      assert s'.jobs.Keys == s.jobs.Keys + {d};
      JobEnds(s, d, s'.jobs.Keys);
      JobRewritten(s, s', d);
    }
  }

  /** A deployment that has not ended may have a job row. */
  lemma JobEnds(s: State, d: nat, jobs: set<nat>)
    requires Inv(s) && d in s.records && s.records[d].terminal.None? && jobs == s.jobs.Keys + {d}
    ensures Ending(s.intents, s.records, jobs, s.history.counts)
  {
    hide Sequenced, Born, Marked, Logged, Positioned, Carried, Awaited, Covered, Ending, BelowHighWater, OneCurrent, CanonicalRows;
    LastIsUnique(s, d);
    EndsWellBefore(s.intents, s.records, s.jobs.Keys, s.history.counts, d);
    assert EndsWell(s.intents, s.records, jobs, s.history.counts, d);
    EndingAt(s.intents, s.records, s.jobs.Keys, s.history.counts,
             s.intents, s.records, jobs, s.history.counts, d);
  }

  lemma RetractKeeps(s: State, d: nat)
    requires Inv(s)
    ensures Inv(RetractJob(s, d).state)
  {
    hide Sequenced, Born, Marked, Logged, Positioned, Carried, Awaited, Covered, Ending, BelowHighWater, OneCurrent, CanonicalRows;
    var s' := RetractJob(s, d).state;
    if s' != s {
      QuietCommit(s, {JobRow(d)});
      JobsNamed(s, d);
      LastIsUnique(s, d);
      EndsWellBefore(s.intents, s.records, s.jobs.Keys, s.history.counts, d);
      assert EndsWell(s.intents, s.records, s'.jobs.Keys, s.history.counts, d);
      EndingAt(s.intents, s.records, s.jobs.Keys, s.history.counts,
               s.intents, s.records, s'.jobs.Keys, s.history.counts, d);
      FewerJobs(s, s');
    }
  }

  lemma JobsNamed(s: State, d: nat)
    requires Inv(s) && d in s.jobs
    ensures d in s.records
  {
    hide Sequenced, Born, Marked, Logged, Positioned, Carried, Awaited, Covered, Ending, OneCurrent, CanonicalRows;
  }

  lemma ActivateKeeps(s: State, g: nat, generation: LiveGeneration, root: GcRoot)
    requires Inv(s)
    ensures Inv(RecordActivation(s, g, generation, g, root).state)
  {
    hide Sequenced, Born, Marked, Logged, Positioned, Carried, Awaited, Covered, Ending, BelowHighWater, OneCurrent, CanonicalRows;
    if RecordActivation(s, g, generation, g, root).Done? {
      var prior := PriorCurrent(s.live, generation);
      QuietCommit(s, {LiveRow(g), RootRow(g), AllocationRow}
                     + (set h | h in prior :: LiveRow(h)) + (set h | h in s.roots.Keys * prior :: RootRow(h)));
      ActivateCurrent(s, g, generation, root);
      ActivateRows(s, g, generation, root);
    }
  }

  lemma ActivateCurrent(s: State, g: nat, generation: LiveGeneration, root: GcRoot)
    requires OneCurrent(s.live) && g !in s.live
    ensures OneCurrent(RecordActivation(s, g, generation, g, root).state.live)
  {
  }

  lemma ActivateRows(s: State, g: nat, generation: LiveGeneration, root: GcRoot)
    requires Inv(s)
    requires RecordActivation(s, g, generation, g, root).Done?
    ensures var s' := RecordActivation(s, g, generation, g, root).state;
            && BelowHighWater(s'.records, s'.jobs, s'.live, s'.roots, s'.allocation)
            && CanonicalRows(s'.jobs, s'.live, s'.roots)
  {
    hide Sequenced, Born, Marked, Logged, Positioned, Carried, Awaited, Covered, Ending, OneCurrent, BelowHighWater, CanonicalRows;
    ActivateBelow(s, g, generation, root);
    ActivateCanonical(s, g, generation, root);
  }

  lemma ActivateBelow(s: State, g: nat, generation: LiveGeneration, root: GcRoot)
    requires BelowHighWater(s.records, s.jobs, s.live, s.roots, s.allocation)
    requires RecordActivation(s, g, generation, g, root).Done?
    ensures var s' := RecordActivation(s, g, generation, g, root).state;
            BelowHighWater(s'.records, s'.jobs, s'.live, s'.roots, s'.allocation)
  {
    hide CanonicalClosure;
  }

  lemma ActivateCanonical(s: State, g: nat, generation: LiveGeneration, root: GcRoot)
    requires CanonicalRows(s.jobs, s.live, s.roots)
    requires RecordActivation(s, g, generation, g, root).Done?
    ensures var s' := RecordActivation(s, g, generation, g, root).state;
            CanonicalRows(s'.jobs, s'.live, s'.roots)
  {
    hide CanonicalClosure, FreshJob;
  }

  lemma MutateRootKeeps(s: State, g: nat, root: GcRoot)
    requires Inv(s)
    ensures Inv(MutateRoot(s, g, root).state)
  {
    hide Sequenced, Born, Marked, Logged, Positioned, Carried, Awaited, Covered, Ending, BelowHighWater, OneCurrent, CanonicalRows;
    var s' := MutateRoot(s, g, root).state;
    if s' != s {
      QuietCommit(s, {RootRow(g)});
      RootRows(s, s', g);
    }
  }

  lemma RootRows(s: State, s': State, g: nat)
    requires Inv(s) && g in s.roots
    requires s'.records == s.records && s'.live == s.live && s'.jobs == s.jobs && s'.allocation == s.allocation
    requires forall h :: h in s'.roots ==> h in s.roots && (s'.roots[h] == s.roots[h] || CanonicalClosure(s'.roots[h].closure))
    ensures BelowHighWater(s'.records, s'.jobs, s'.live, s'.roots, s'.allocation)
    ensures CanonicalRows(s'.jobs, s'.live, s'.roots)
  {
    hide Sequenced, Born, Marked, Logged, Positioned, Carried, Awaited, Covered, Ending, OneCurrent, FreshJob, CanonicalClosure;
  }

  lemma RetractRootKeeps(s: State, g: nat)
    requires Inv(s)
    ensures Inv(RetractRoot(s, g).state)
  {
    hide Sequenced, Born, Marked, Logged, Positioned, Carried, Awaited, Covered, Ending, BelowHighWater, OneCurrent, CanonicalRows;
    var s' := RetractRoot(s, g).state;
    if s' != s {
      QuietCommit(s, {RootRow(g)});
      RootRows(s, s', g);
    }
  }

  lemma RequeueKeeps(s: State)
    requires Inv(s)
    ensures Inv(Requeue(s))
  {
    hide Sequenced, Born, Marked, Logged, Positioned, Carried, Awaited, Covered, Ending, BelowHighWater, OneCurrent, CanonicalRows;
    var s' := Requeue(s);
    if s' != s {
      var flying := set o | o in s.outbox && s.outbox[o].delivery == Dispatched;
      QuietCommit(s, set o | o in flying :: OutboxRowName(o));
      assert s'.outbox.Keys == s.outbox.Keys;
      CarriedAgain(s.intents, s.history.origins, s.outbox, s'.outbox);
      AwaitedAgain(s.intents, s.outbox, s'.outbox);
      CoveredAgain(s.events, s.outbox, s'.outbox);
    }
  }

  /** The journal and the outbox never disagree, so rebuilding the outbox changes nothing. */
  lemma ReconcileChangesNothing(s: State)
    requires Inv(s)
    ensures ReconcileOutbox(s) == Done(s)
  {
    hide Sequenced, Born, Logged, Awaited, Ending, BelowHighWater, OneCurrent, CanonicalRows;
    forall p | Journalled(s, p) ensures KeyOf(s.events[p].event) in s.outbox
                                        && s.outbox[KeyOf(s.events[p].event)].event == s.events[p].event {
      var key := s.history.owners[p];
      assert Holds(s.events[p], key, s.intents);
      JournalledCarried(s, p);
    }
    assert MissingDeliveries(s) == {};
  }

  lemma JournalledCarried(s: State, p: nat)
    requires Inv(s) && Journalled(s, p)
    ensures KeyOf(s.events[p].event) in s.outbox
    ensures s.outbox[KeyOf(s.events[p].event)].event == s.events[p].event
  {
    hide Sequenced, Born, Marked, Logged, Carried, Awaited, Ending, BelowHighWater, OneCurrent, CanonicalRows;
    var key := s.history.owners[p];
    assert Holds(s.events[p], key, s.intents);
    IntentFacts(s, key);
  }

  // ---- runs --------------------------------------------------------------

  /** One step, taken or refused, keeps the invariant. */
  lemma StepKeeps(s: State, step: Step)
    requires Inv(s) && Disciplined(s, step)
    ensures Inv(Attempt(s, step).state)
  {
    hide Inv;
    match step
    case Admit(identity, job) => AdmitKeeps(s, identity, job);
    case Reject(identity, terminal) => RejectKeeps(s, identity, terminal);
    case Terminate(d, terminal) => TerminateKeeps(s, d, terminal);
    case Advance(d, lifecycle, jd, job, event) => AdvanceKeeps(s, d, lifecycle, jd, job, event);
    case BindStep(key) => BindKeeps(s, key);
    case DispatchStep(key) => DispatchKeeps(s, key);
    case AppendStep(key) => AppendKeeps(s, key);
    case AcknowledgeStep(key) => AcknowledgeKeeps(s, key);
    case Reserve => ReserveKeeps(s);
    case AppendOther(p, entry) => OtherKeeps(s, p, entry);
    case ContainerStep(cp, container, p, entry) => ContainerKeeps(s, cp, container, p, entry);
    case CompactStep(retention) => CompactKeeps(s, retention);
    case TruncateStep(kept) => TruncateKeeps(s, kept);
    case ReviseStep(d, revision) => ReviseKeeps(s, d, revision);
    case ResolveStep(d, revision, jd, job) => ResolveKeeps(s, d, revision, jd, job);
    case UpsertStep(d, job) => UpsertKeeps(s, d, job);
    case RetractStep(d) => RetractKeeps(s, d);
    case ActivateStep(g, generation, r, root) => ActivateKeeps(s, g, generation, root);
    case MutateRootStep(g, root) => MutateRootKeeps(s, g, root);
    case RetractRootStep(g) => RetractRootKeeps(s, g);
    case RequeueStep => RequeueKeeps(s);
    case ReconcileStep => ReconcileChangesNothing(s);
  }

  /** A run: steps of any callers in any order, each taken or refused, from any point a crash left. */
  ghost function Run(s: State, steps: seq<Step>): State
    decreases |steps|
  {
    if steps == [] then s else Run(Attempt(s, steps[0]).state, steps[1..])
  }

  ghost predicate DisciplinedRun(s: State, steps: seq<Step>)
    decreases |steps|
  {
    steps == [] || (Disciplined(s, steps[0]) && DisciplinedRun(Attempt(s, steps[0]).state, steps[1..]))
  }

  lemma {:induction false} RunKeeps(s: State, steps: seq<Step>)
    requires Inv(s) && DisciplinedRun(s, steps)
    ensures Inv(Run(s, steps))
    decreases |steps|
  {
    hide Inv, Attempt, Disciplined;
    if steps != [] {
      StepKeeps(s, steps[0]);
      RunKeeps(Attempt(s, steps[0]).state, steps[1..]);
    }
  }

  lemma EmptyHolds()
    ensures Inv(EMPTY)
  {
  }

  /** Every store reachable from a fresh one satisfies the invariant. */
  lemma ReachableHolds(steps: seq<Step>)
    requires DisciplinedRun(EMPTY, steps)
    ensures Inv(Run(EMPTY, steps))
  {
    EmptyHolds();
    RunKeeps(EMPTY, steps);
  }
}
