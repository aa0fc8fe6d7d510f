/**
  Where the store relies on its callers or on the commit log, and exactly what
  it relies on: each reliance is an if-and-only-if, beside a run in which it is
  not met and the store strands a transition.
*/
module StoreLimits {
  import opened StoreModel
  import opened StoreInvariant
  import opened StoreGroups
  import opened StorePreservation
  import opened StoreRecovery

  // ---- the commit log ----------------------------------------------------

  /** Every intent that still has to be bound finds its creating commit among those kept. */
  ghost predicate KeepsSources(s: State, kept: set<nat>) {
    forall key :: key in s.intents && !IsBound(s.intents[key]) && key in s.history.births ==>
      s.history.births[key] in kept
  }

  /**
    Compaction may drop the versioned log while another deployment's transition
    is unbound. What it drops can be missed at the next opening exactly when it
    held such a transition's creating commit.
  */
  lemma TruncationSafeExactly(s: State, kept: set<nat>, keys: seq<IntentKey>)
    requires Inv(s) && Recoverable(s) && Lists(keys, s)
    ensures Open(TruncateLog(s, kept), keys).Done? <==> KeepsSources(s, kept)
  {
    hide Inv, Settled, ViewOf, Quiescent, Open, Recoverable, RecoverableKey;
    StepKeeps(s, TruncateStep(kept));
    OpenSettles(TruncateLog(s, kept), keys);
    TruncatedRecoverable(s, kept);
  }

  lemma TruncatedRecoverable(s: State, kept: set<nat>)
    requires Inv(s) && Recoverable(s)
    ensures Recoverable(TruncateLog(s, kept)) <==> KeepsSources(s, kept)
  {
    hide Inv, EndsWell;
    var t := TruncateLog(s, kept);
    if Recoverable(t) {
      forall key | key in s.intents && !IsBound(s.intents[key]) && key in s.history.births
        ensures s.history.births[key] in kept
      {
        IntentFacts(s, key);
        assert RecoverableKey(t, key);
      }
    }
    if KeepsSources(s, kept) {
      forall key | key in t.intents && Unacknowledged(t.intents[key]) ensures RecoverableKey(t, key) {
        assert RecoverableKey(s, key);
      }
    }
  }

  /** When the whole log is dropped, a recoverable store still opens if and only if nothing is left to bind. */
  lemma DroppedLogOpensExactly(s: State, keys: seq<IntentKey>)
    requires Inv(s) && Recoverable(s) && Lists(keys, s)
    ensures Open(TruncateLog(s, {}), keys).Done? <==> forall key :: key in s.intents ==> IsBound(s.intents[key])
  {
    hide Inv, Recoverable, Open, Lists;
    TruncationSafeExactly(s, {}, keys);
    MarkersFact(s);
  }

  // ---- journal positions -------------------------------------------------

  /**
    Beginning a phase checks only that no entry occupies its position. What the
    store needs is that the position was issued and given to no transition: an
    accepted phase leaves the store sound if and only if it was.
  */
  lemma PhaseSafeExactly(s: State, d: nat, lifecycle: DeploymentPhase, job: DeployJob, event: PhaseEvent)
    requires Inv(s) && BeginPhase(s, d, lifecycle, d, job, event).Done?
    requires event.phase == lifecycle && CursorNames(s, d, job)
    ensures Inv(BeginPhase(s, d, lifecycle, d, job, event).state) <==> Unused(s, event.position)
  {
    hide Inv, BeginPhase;
    if Unused(s, event.position) {
      AdvanceKeeps(s, d, lifecycle, d, job, event);
    } else {
      PhaseBegun(s, d, lifecycle, job, event);
      SharedPositionUnsound(s, BeginPhase(s, d, lifecycle, d, job, event).state, d, event.position);
    }
  }

  lemma PhaseBegun(s: State, d: nat, lifecycle: DeploymentPhase, job: DeployJob, event: PhaseEvent)
    requires Inv(s) && BeginPhase(s, d, lifecycle, d, job, event).Done?
    ensures var s' := BeginPhase(s, d, lifecycle, d, job, event).state;
            && d in s.history.counts && s'.allocation == s.allocation
            && s'.intents.Keys == s.intents.Keys + {NextPhase(s, d)}
            && (forall other :: other in s.intents ==> other in s'.intents && s'.intents[other] == s.intents[other])
            && s'.intents[NextPhase(s, d)].position == event.position
    ensures NextPhase(s, d) !in s.intents
  {
    hide Born, Marked, Logged, Positioned, Carried, Awaited, Covered, Ending, BelowHighWater, OneCurrent, CanonicalRows;
    NextOrdinal(s.intents, s.records.Keys, s.history.counts, d);
    var s' := BeginPhase(s, d, lifecycle, d, job, event).state;
    assert s'.intents.Keys == s.intents.Keys + {NextPhase(s, d)};
  }

  function NextPhase(s: State, d: nat): IntentKey {
    IntentKey(d, if d in s.history.counts then s.history.counts[d] else 0)
  }

  lemma SharedPositionUnsound(s: State, s': State, d: nat, p: nat)
    requires Inv(s) && !Unused(s, p)
    requires var key := NextPhase(s, d);
             && s'.allocation == s.allocation
             && key !in s.intents && s'.intents.Keys == s.intents.Keys + {key}
             && (forall other :: other in s.intents ==> other in s'.intents && s'.intents[other] == s.intents[other])
             && s'.intents[key].position == p
    ensures !Inv(s')
  {
    hide Sequenced, Born, Marked, Logged, Carried, Awaited, Covered, Ending, BelowHighWater, OneCurrent, CanonicalRows;
    var key := NextPhase(s, d);
    if p < s.allocation.nextPosition {
      var owner := s.history.owners[p];
      assert owner in s.intents && s'.intents[owner].position == p && owner != key;
    }
  }

  // ---- journalling once more ---------------------------------------------

  /**
    Why only unacknowledged transitions may be journalled: journalling is not
    refused for an acknowledged one. It is then demoted, and when compaction has
    retired its event the event is journalled a second time.
  */
  lemma AppendIdempotentExactly(s: State, key: IntentKey)
    requires Inv(s) && key in s.intents && IsBound(s.intents[key])
    ensures Append(s, key).Done?
    ensures Append(s, key).state.sequence == s.sequence <==>
              s.intents[key].state == Appended && s.intents[key].position in s.events
  {
    hide Inv, EndsWell;
    IntentFacts(s, key);
  }

  lemma AppendDemotes(s: State, key: IntentKey)
    requires Inv(s) && key in s.intents && s.intents[key].state == Acknowledged
    ensures IsBound(s.intents[key]) && key in Append(s, key).state.intents
    ensures Append(s, key).state.intents[key].state == Appended
    ensures s.intents[key].position !in s.events ==>
              Append(s, key).state.events == s.events[s.intents[key].position := Deployment(EventOf(key, s.intents[key]))]
  {
    hide Inv, EndsWell;
    IntentFacts(s, key);
  }

  /** Acknowledging a settled transition again is accepted exactly while its event is retained, and changes nothing. */
  lemma AcknowledgeAgainExactly(s: State, key: IntentKey)
    requires Inv(s) && key in s.intents && s.intents[key].state == Acknowledged
    ensures Acknowledge(s, key).Done? <==> s.intents[key].position in s.events
    ensures Acknowledge(s, key).state == s
  {
    hide Inv, EndsWell;
    IntentFacts(s, key);
    if s.intents[key].position in s.events { RetainedDelivery(s, key); }
  }

  lemma RetainedDelivery(s: State, key: IntentKey)
    requires Inv(s) && key in s.intents && s.intents[key].position in s.events && IsBound(s.intents[key])
    ensures DeliveryKey(key, s.intents[key]) in s.outbox
  {
    hide Sequenced, Born, Marked, Logged, Carried, Awaited, Ending, BelowHighWater, OneCurrent, CanonicalRows;
    assert s.events[s.intents[key].position] == Deployment(EventOf(key, s.intents[key]));
  }
}
