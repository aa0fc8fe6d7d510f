/** Bounded history, current generations, and reseeding a lost identifier row. */
module StoreLedgers {
  import opened StoreModel
  import opened StoreInvariant
  import opened StorePreservation
  import opened StoreEffects

  // ---- compaction --------------------------------------------------------

  /** As many as asked for, and all newer than what is not among them. */
  ghost predicate AreNewest(positions: set<nat>, kept: set<nat>, count: nat) {
    && kept <= positions && |kept| == (if |positions| < count then |positions| else count)
    && forall gone, k :: gone in positions && gone !in kept && k in kept ==> gone < k
  }

  lemma {:induction false} NewestAreNewest(positions: set<nat>, count: nat)
    ensures AreNewest(positions, Newest(positions, count), count)
    decreases count
  {
    if count != 0 && positions != {} {
      hide AreNewest;
      var top := Above(positions) - 1;
      NewestAreNewest(positions - {top}, count - 1);
      TopIsNewest(positions, Newest(positions - {top}, count - 1), count);
    }
  }

  lemma TopIsNewest(positions: set<nat>, rest: set<nat>, count: nat)
    requires count != 0 && positions != {} && AreNewest(positions - {Above(positions) - 1}, rest, count - 1)
    ensures AreNewest(positions, {Above(positions) - 1} + rest, count)
  {
    var top := Above(positions) - 1;
    assert |positions - {top}| == |positions| - 1;
    assert top !in rest;
    assert |{top} + rest| == 1 + |rest|;
  }

  /** `events'` is the newest `retention` entries of `events`, unchanged. */
  ghost predicate KeepsNewest(events: map<nat, LoggedEvent>, events': map<nat, LoggedEvent>, retention: nat) {
    && |events'| == (if |events| < retention then |events| else retention)
    && (forall p :: p in events' ==> p in events && events'[p] == events[p])
    && (forall gone, kept :: gone in events && gone !in events' && kept in events' ==> gone < kept)
  }

  lemma RetiringKeepsNewest(events: map<nat, LoggedEvent>, retention: nat)
    ensures KeepsNewest(events, events - (events.Keys - Newest(events.Keys, retention)), retention)
  {
    var kept := Newest(events.Keys, retention);
    var events' := events - (events.Keys - kept);
    NewestAreNewest(events.Keys, retention);
    assert events'.Keys == kept;
    assert |events'| == |events'.Keys| && |events| == |events.Keys|;
  }

  function InRange(events: map<nat, LoggedEvent>, from: nat, until: nat): map<nat, LoggedEvent> {
    map p | p in events && from <= p < until :: events[p]
  }

  /**
    Compaction keeps exactly the newest `retention` events; with the others go
    exactly the containers at their positions and the acknowledged deliveries.
  */
  lemma CompactionKeepsNewest(s: State, retention: nat)
    ensures KeepsNewest(s.events, Compact(s, retention).state.events, retention)
    ensures CompactionLeft(s, Compact(s, retention).state)
  {
    hide KeepsNewest, CompactionLeft;
    RetiringKeepsNewest(s.events, retention);
    CompactionEffect(s, retention);
    if RetiredPositions(s, retention) == {} {
      assert s.events - {} == s.events;
    }
  }

  /** Above the cut the compacted history answers every range as the full one does. */
  lemma CompactionKeepsRanges(s: State, retention: nat, from: nat, until: nat)
    requires forall gone :: gone in s.events && gone !in Compact(s, retention).state.events ==> gone < from
    ensures InRange(Compact(s, retention).state.events, from, until) == InRange(s.events, from, until)
  {
    hide Compact;
    CompactionKeepsNewest(s, retention);
  }

  /** After compacting a reachable store, rebuilding the outbox still adds nothing. */
  lemma CompactionLeavesOutboxWhole(history: seq<Step>, retention: nat)
    requires DisciplinedRun(EMPTY, history)
    ensures var s' := Compact(Run(EMPTY, history), retention).state;
            && ReconcileOutbox(s') == Done(s')
            && (forall p :: Journalled(s', p) ==>
                  KeyOf(s'.events[p].event) in s'.outbox && s'.outbox[KeyOf(s'.events[p].event)].event == s'.events[p].event)
  {
    hide Inv, Run, DisciplinedRun, Compact;
    ReachableHolds(history);
    CompactKeeps(Run(EMPTY, history), retention);
    var s' := Compact(Run(EMPTY, history), retention).state;
    ReconcileChangesNothing(s');
    forall p | Journalled(s', p)
      ensures KeyOf(s'.events[p].event) in s'.outbox && s'.outbox[KeyOf(s'.events[p].event)].event == s'.events[p].event
    {
      JournalledCarried(s', p);
    }
  }

  // ---- generations -------------------------------------------------------

  /** Of all generations current in one place there is one. */
  ghost predicate CurrentAlone(live: map<nat, LiveGeneration>) {
    forall h, i :: h in live && i in live && Displaces(live[h], live[i]) ==> h == i
  }

  /**
    Unique current generation: in every reachable store, an activation into the
    current slot becomes the only current generation of its cluster, node and
    environment. The one it replaces becomes recent and so, in the same commit,
    does that one's root; every other generation and root is untouched.
  */
  lemma NewestActivationIsCurrent(history: seq<Step>, g: nat, generation: LiveGeneration, root: GcRoot)
    requires DisciplinedRun(EMPTY, history)
    requires RecordActivation(Run(EMPTY, history), g, generation, g, root).Done?
    ensures var s := Run(EMPTY, history);
            var s' := RecordActivation(s, g, generation, g, root).state;
            ActivationLeft(s, s', g, generation, g, root) && CurrentAlone(s'.live)
  {
    hide Inv, Run, DisciplinedRun, CanonicalClosure, ActivationLeft;
    ReachableHolds(history);
    var s := Run(EMPTY, history);
    ActivateKeeps(s, g, generation, root);
    CurrentOnce(RecordActivation(s, g, generation, g, root).state);
    ActivationEffect(s, g, generation, g, root);
  }

  lemma CurrentOnce(s: State)
    requires Inv(s)
    ensures CurrentAlone(s.live)
  {
    hide Sequenced, Born, Marked, Logged, Positioned, Carried, Awaited, Covered, Ending, BelowHighWater, CanonicalRows;
    forall h, i | h in s.live && i in s.live && Displaces(s.live[h], s.live[i]) ensures h == i {
      assert Supersedes(s.live[h], s.live[i]);
    }
  }

  // ---- reseeding a lost allocation row -----------------------------------

  function SeenDeployments(s: State): set<nat> {
    (set g | g in s.live :: s.live[g].deployment) + s.jobs.Keys
  }

  function SeenGenerations(s: State): set<nat> {
    s.live.Keys + set d | d in s.jobs :: s.jobs[d].generation
  }

  ghost function OneOrAbove(numbers: set<nat>): nat {
    if numbers == {} then 1 else Above(numbers)
  }

  /** The row written when the allocation family is empty at open. */
  ghost function Reseeded(s: State): Allocation {
    Allocation(OneOrAbove(SeenDeployments(s)), OneOrAbove(SeenGenerations(s)), Above(s.events.Keys))
  }

  /** Every identifier in any table, intent or reservation is below the row. */
  ghost predicate CoversStore(s: State, allocation: Allocation) {
    && BelowHighWater(s.records, s.jobs, s.live, s.roots, allocation)
    && (forall key :: key in s.intents ==> s.intents[key].position < allocation.nextPosition)
    && (forall p :: p in s.history.reserved ==> p < allocation.nextPosition)
    && (forall p :: p in s.events ==> p < allocation.nextPosition)
  }

  /** Some number the scan sees is at least this one. */
  ghost predicate Reached(seen: set<nat>, n: nat) {
    exists m :: m in seen && n <= m
  }

  /** What the reseed scan cannot see is matched by something at least as high that it can. */
  ghost predicate Witnessed(s: State) {
    && (forall d :: d in s.records ==> d == 0 || DeploymentSeen(s, d))
    && (forall d :: d in s.records ==> s.records[d].generation == 0 || GenerationSeen(s, s.records[d].generation))
    && (forall g :: g in s.roots ==> g == 0 || GenerationSeen(s, g))
    && (forall key :: key in s.intents ==> PositionSeen(s, s.intents[key].position))
    && (forall p :: p in s.history.reserved ==> PositionSeen(s, p))
  }

  /** A live generation or a restart cursor is of a deployment numbered as high. */
  ghost predicate DeploymentSeen(s: State, n: nat) {
    (exists g :: g in s.live && n <= s.live[g].deployment) || (exists d :: d in s.jobs && n <= d)
  }

  /** There is a live generation, or a restart cursor naming one, numbered as high. */
  ghost predicate GenerationSeen(s: State, n: nat) {
    (exists g :: g in s.live && n <= g) || (exists d :: d in s.jobs && n <= s.jobs[d].generation)
  }

  /** There is an entry as far along. */
  ghost predicate PositionSeen(s: State, n: nat) {
    exists p :: p in s.events && n <= p
  }

  lemma SeenAre(s: State, n: nat)
    ensures DeploymentSeen(s, n) <==> Reached(SeenDeployments(s), n)
    ensures GenerationSeen(s, n) <==> Reached(SeenGenerations(s), n)
    ensures PositionSeen(s, n) <==> Reached(s.events.Keys, n)
  {
    if g :| g in s.live && n <= s.live[g].deployment { assert s.live[g].deployment in SeenDeployments(s); }
    if d :| d in s.jobs && n <= d { assert d in SeenDeployments(s); }
    if g :| g in s.live && n <= g { assert g in SeenGenerations(s); }
    if d :| d in s.jobs && n <= s.jobs[d].generation { assert s.jobs[d].generation in SeenGenerations(s); }
    if p :| p in s.events && n <= p { assert p in s.events.Keys; }
  }

  lemma ReachedAbove(seen: set<nat>)
    ensures forall n: nat :: Reached(seen, n) <==> n < Above(seen)
  {
    forall n: nat ensures Reached(seen, n) <==> n < Above(seen) {
      if n < Above(seen) {
        assert Above(seen) - 1 in seen && n <= Above(seen) - 1;
      }
    }
  }

  lemma OneOrAboveReaches(seen: set<nat>, n: nat)
    ensures n < OneOrAbove(seen) <==> n == 0 || Reached(seen, n)
  {
    ReachedAbove(seen);
  }

  /**
    The reseed scans only live generations, jobs and events, so it is safe
    exactly when those already reach as high as every record, root, intent and
    reservation the scan does not see.
  */
  lemma ReseedSafeExactly(s: State)
    requires Inv(s)
    ensures Inv(s.(allocation := Reseeded(s))) <==> Witnessed(s)
  {
    hide Inv, Witnessed, CoversStore, Reseeded;
    SoundWhenCovered(s, Reseeded(s));
    ReseedCovers(s);
  }

  /** With another allocation row, a sound store is sound exactly when the row lies above everything. */
  lemma SoundWhenCovered(s: State, allocation: Allocation)
    requires Inv(s)
    ensures Inv(s.(allocation := allocation)) <==> CoversStore(s, allocation)
  {
    hide Sequenced, Born, Marked, Logged, Carried, Awaited, Covered, Ending, BelowHighWater, OneCurrent, CanonicalRows;
  }

  lemma ReseedCovers(s: State)
    requires Inv(s)
    ensures CoversStore(s, Reseeded(s)) <==> Witnessed(s)
  {
    hide Sequenced, Born, Marked, Logged, Positioned, Carried, Awaited, Covered, Ending, OneCurrent, CanonicalRows,
      Reseeded, SeenDeployments, SeenGenerations, Reached, DeploymentSeen, GenerationSeen, PositionSeen;
    ReseedReaches(s);
    forall n: nat
      ensures DeploymentSeen(s, n) <==> Reached(SeenDeployments(s), n)
      ensures GenerationSeen(s, n) <==> Reached(SeenGenerations(s), n)
      ensures PositionSeen(s, n) <==> Reached(s.events.Keys, n)
    {
      SeenAre(s, n);
    }
  }

  /** Which of the store's numbers the reseeded row lies above. */
  lemma ReseedReaches(s: State)
    ensures var row := Reseeded(s);
            && (forall d :: d in s.records ==> (d < row.nextDeployment <==> d == 0 || Reached(SeenDeployments(s), d)))
            && (forall d :: d in s.records ==>
                  (s.records[d].generation < row.nextGeneration <==>
                     s.records[d].generation == 0 || Reached(SeenGenerations(s), s.records[d].generation)))
            && (forall g :: g in s.roots ==> (g < row.nextGeneration <==> g == 0 || Reached(SeenGenerations(s), g)))
            && (forall key :: key in s.intents ==>
                  (s.intents[key].position < row.nextPosition <==> Reached(s.events.Keys, s.intents[key].position)))
            && (forall p :: p in s.history.reserved ==> (p < row.nextPosition <==> Reached(s.events.Keys, p)))
            && (forall g :: g in s.live ==> s.live[g].deployment < row.nextDeployment && g < row.nextGeneration)
            && (forall p :: p in s.events ==> p < row.nextPosition)
  {
    hide Above, OneOrAbove, SeenDeployments, SeenGenerations, Reached;
    ReachedAbove(s.events.Keys);
    SeenReached(s);
    EventsReached(s);
    var row := Reseeded(s);
    forall d | d in s.records
      ensures d < row.nextDeployment <==> d == 0 || Reached(SeenDeployments(s), d)
      ensures s.records[d].generation < row.nextGeneration <==>
                s.records[d].generation == 0 || Reached(SeenGenerations(s), s.records[d].generation)
    {
      OneOrAboveReaches(SeenDeployments(s), d);
      OneOrAboveReaches(SeenGenerations(s), s.records[d].generation);
    }
    forall g | g in s.roots ensures g < row.nextGeneration <==> g == 0 || Reached(SeenGenerations(s), g) {
      OneOrAboveReaches(SeenGenerations(s), g);
    }
    forall g | g in s.live ensures s.live[g].deployment < row.nextDeployment && g < row.nextGeneration {
      OneOrAboveReaches(SeenDeployments(s), s.live[g].deployment);
      OneOrAboveReaches(SeenGenerations(s), g);
    }
  }

  lemma SeenReached(s: State)
    ensures forall g :: g in s.live ==> Reached(SeenDeployments(s), s.live[g].deployment) && Reached(SeenGenerations(s), g)
  {
    forall g | g in s.live
      ensures Reached(SeenDeployments(s), s.live[g].deployment) && Reached(SeenGenerations(s), g)
    {
      assert s.live[g].deployment in SeenDeployments(s) && g in SeenGenerations(s);
    }
  }

  lemma EventsReached(s: State)
    ensures forall p :: p in s.events ==> Reached(s.events.Keys, p)
  {
  }

  /**
    It is not always safe: a store that has only rejected one request, reseeded,
    offers that request's identifier again, and the next admission is refused.
  */
  lemma ReseedReissues(identity: RequestIdentity, terminal: DeploymentTerminal, job: DeployJob)
    requires FreshJob(job) && job.phase == JobSubmitted && job.cluster == identity.cluster && job.node == identity.node
    ensures var s := BeginRejection(EMPTY, identity, terminal).state;
            var reseeded := s.(allocation := Reseeded(s));
            && EMPTY.allocation.nextDeployment in s.records
            && Reseeded(s).nextDeployment == EMPTY.allocation.nextDeployment
            && !Witnessed(s)
            && BeginAdmission(reseeded, identity, job) == Refused(reseeded, RowConflict)
  {
    hide FreshJob;
    var s := BeginRejection(EMPTY, identity, terminal).state;
    assert 1 in s.records && s.jobs == EMPTY.jobs && s.live == EMPTY.live;
    assert SeenDeployments(s) == {} && SeenGenerations(s) == {};
  }
}
