/** Beginning a transition and delivering it at once, in a valid store. */
module StoreTransitions {
  import opened Options
  import opened StoreModel
  import opened StoreInvariant
  import opened StoreGroups
  import opened StorePreservation
  import opened StoreEffects
  import opened StoreRecovery
  import opened StoreSwitch

  /** Admitted as asked, with the first transition delivered, its marker recorded and the restart cursor in place. */
  ghost predicate FullyAdmitted(s: State, d: nat, generation: nat, identity: RequestIdentity, cursor: DeployJob) {
    var key := IntentKey(d, 0);
    && key in s.intents && s.intents[key].state == Acknowledged && s.intents[key].marker.Some?
    && d in s.records
    && s.records[d] == DeploymentRecord(generation, identity, s.intents[key].marker, Submitted, None, None)
    && d in s.jobs && s.jobs[d] == cursor.(generation := generation)
  }

  /** Ended as asked, with the transition delivered, its marker recorded and no restart cursor. */
  ghost predicate FullyTerminal(s: State, s': State, d: nat, terminal: DeploymentTerminal) {
    && d in s.records && d in s'.records
    && s'.records[d] == s.records[d].(lifecycle := LifecycleOf(terminal), terminal := Some(terminal),
                                      terminalMarker := s'.records[d].terminalMarker)
    && s'.records[d].terminalMarker.Some?
    && !EarlierPending(s'.intents, d)
    && d !in s'.jobs
  }

  /** An intent whose creating commit was just logged is delivered without fail. */
  lemma FreshDelivers(b: State, key: IntentKey)
    requires Inv(b) && key in b.intents && b.intents[key].state == Pending
    requires key in b.history.births && b.history.births[key] in b.log
    ensures Complete(b, key).Done?
    ensures var after := Complete(b, key).state;
            && Inv(after) && Settled(after) == Settled(b) && after.history == b.history
            && key in after.intents && after.intents[key].state == Acknowledged && after.intents[key].marker.Some?
    ensures !IsBound(b.intents[key])
  {
    hide Inv, Settled, Complete, Elsewhere, EndsWell, KnownDelivery;
    IntentFacts(b, key);
    DeliverableBound(b, key);
    CompleteDelivers(b, key);
    CompleteLedgers(b, key);
    IntentFacts(Complete(b, key).state, key);
  }

  lemma LastDelivered(s: State, key: IntentKey)
    requires Inv(s) && key in s.intents && s.intents[key].state == Acknowledged
    requires key.deployment in s.history.counts && s.history.counts[key.deployment] == key.ordinal + 1
    ensures key.deployment in s.records && !EarlierPending(s.intents, key.deployment)
    ensures var record := s.records[key.deployment]; var last := s.intents[key];
            && record.terminal == last.terminal && record.lifecycle == last.phase
            && (last.terminal.Some? ==>
                  record.terminalMarker == last.marker && record.lifecycle == LifecycleOf(record.terminal.value)
                  && key.deployment !in s.jobs)
            && (last.phase == Submitted ==> record.admissionMarker == last.marker)
  {
    hide Born, Logged, Positioned, Carried, Awaited, Covered, BelowHighWater, OneCurrent, CanonicalRows;
    assert LastOf(s.history.counts, key.deployment) == key;
    assert AgreesWithLast(s.records[key.deployment], s.intents[key], key.deployment in s.jobs);
  }

  /** The settled view of an intent being delivered shows the intent as it will be. */
  lemma SettledIntentAt(s: State, key: IntentKey)
    requires key in s.intents
    ensures key in Settled(s).intents
    ensures Settled(s).intents[key].terminal == s.intents[key].terminal
    ensures Settled(s).intents[key].phase == s.intents[key].phase
  {
    hide SettledEvents, SettledOutbox, SettledRecords, SettledJobs;
  }

  /** Delivering a deployment's last transition marks its record, and retires its cursor if it is terminal. */
  lemma DeliveredRows(b: State, after: State, key: IntentKey)
    requires Inv(b) && key in b.intents && b.intents[key].state == Pending && Inv(after)
    requires Settled(after) == Settled(b) && after.history == b.history
    requires key in after.intents && after.intents[key].state == Acknowledged
    requires key.deployment in b.history.counts && b.history.counts[key.deployment] == key.ordinal + 1
    ensures key in b.history.births && key.deployment in b.records && key.deployment in after.records
    ensures after.records[key.deployment]
              == MarkedRecord(b.records[key.deployment], b.intents[key], b.history.births[key])
    ensures key.deployment in b.jobs && b.intents[key].terminal.None? ==>
              key.deployment in after.jobs && after.jobs[key.deployment] == b.jobs[key.deployment]
    ensures after.intents[key].marker == Some(b.history.births[key])
  {
    hide Inv, Settled, EndsWell, KnownDelivery;
    IntentFacts(b, key);
    IntentFacts(after, key);
    PendingRows(b, key);
    SettledRows(after, key);
  }

  lemma PendingRows(b: State, key: IntentKey)
    requires PendingKey(b, key) && key.deployment in b.records
    requires key.deployment in b.history.counts && b.history.counts[key.deployment] == key.ordinal + 1
    ensures key.deployment in Settled(b).records
    ensures Settled(b).records[key.deployment]
              == MarkedRecord(b.records[key.deployment], b.intents[key], b.history.births[key])
    ensures key.deployment in b.jobs && b.intents[key].terminal.None? ==>
              key.deployment in Settled(b).jobs && Settled(b).jobs[key.deployment] == b.jobs[key.deployment]
  {
    hide SettledIntents, SettledEvents, SettledOutbox, MarkedRecord;
    assert LastOf(b.history.counts, key.deployment) == key;
  }

  lemma SettledRows(after: State, key: IntentKey)
    requires key in after.intents && after.intents[key].state == Acknowledged && key.deployment in after.records
    requires key.deployment in after.history.counts && after.history.counts[key.deployment] == key.ordinal + 1
    ensures key.deployment in Settled(after).records
    ensures Settled(after).records[key.deployment] == after.records[key.deployment]
    ensures key.deployment in Settled(after).jobs ==>
              key.deployment in after.jobs && Settled(after).jobs[key.deployment] == after.jobs[key.deployment]
  {
    hide SettledIntents, SettledEvents, SettledOutbox, MarkedRecord;
    assert LastOf(after.history.counts, key.deployment) == key;
    assert !PendingLast(after, key.deployment);
  }

  lemma AdmissionDelivers(s: State, identity: RequestIdentity, cursor: DeployJob)
    requires Inv(s) && BeginAdmission(s, identity, cursor).Done?
    ensures var b := BeginAdmission(s, identity, cursor).state;
            var key := IntentKey(s.allocation.nextDeployment, 0);
            && Complete(b, key).Done? && Inv(Complete(b, key).state)
            && FullyAdmitted(Complete(b, key).state, key.deployment, s.allocation.nextGeneration, identity, cursor)
  {
    hide Inv, Settled, Complete, CanonicalClosure, FreshJob;
    var b := BeginAdmission(s, identity, cursor).state;
    var key := IntentKey(s.allocation.nextDeployment, 0);
    StepKeeps(s, Admit(identity, cursor));
    FreshDelivers(b, key);
    DeliveredRows(b, Complete(b, key).state, key);
  }

  lemma TerminalDelivers(s: State, d: nat, terminal: DeploymentTerminal)
    requires Inv(s) && BeginTerminal(s, d, terminal).Done?
    ensures var b := BeginTerminal(s, d, terminal).state;
            var key := IntentKey(d, Above(OrdinalsOf(s.intents, d)));
            && Complete(b, key).Done? && Inv(Complete(b, key).state)
            && FullyTerminal(s, Complete(b, key).state, d, terminal)
  {
    hide Inv, Settled, Complete;
    var b := BeginTerminal(s, d, terminal).state;
    var key := IntentKey(d, Above(OrdinalsOf(s.intents, d)));
    StepKeeps(s, Terminate(d, terminal));
    FreshDelivers(b, key);
    LastDelivered(Complete(b, key).state, key);
    SettledIntentAt(b, key);
    SettledIntentAt(Complete(b, key).state, key);
    DeliveredRows(b, Complete(b, key).state, key);
  }

  /** A refused step changes nothing. */
  lemma RefusalUnchanged(s: State, step: Step)
    requires step.Admit? || step.Terminate?
    ensures Attempt(s, step).Refused? ==> Attempt(s, step).state == s
  {
  }

  // ---- one deployment's transition leaves the others alone ---------------

  /** Nothing but what belongs to deployment `d` differs, in the tables deployments share. */
  ghost predicate Apart(s: State, s': State, d: nat) {
    && s'.records - {d} == s.records - {d} && s'.jobs - {d} == s.jobs - {d}
    && s'.live == s.live && s'.roots == s.roots
    && forall key: IntentKey :: key.deployment != d ==>
         (key in s'.intents <==> key in s.intents) && (key in s.intents ==> s'.intents[key] == s.intents[key])
  }

  lemma ApartTwice(s: State, s': State, s'': State, d: nat)
    requires Apart(s, s', d) && Apart(s', s'', d)
    ensures Apart(s, s'', d)
  {
  }

  lemma TerminalApart(s: State, d: nat, terminal: DeploymentTerminal)
    ensures Apart(s, BeginTerminal(s, d, terminal).state, d)
  {
    if BeginTerminal(s, d, terminal).Refused? {} else {}
  }

  lemma BindApart(s: State, key: IntentKey)
    ensures Apart(s, Bind(s, key).state, key.deployment)
  {
    if Bind(s, key).state != s {}
  }

  lemma DispatchApart(s: State, key: IntentKey)
    ensures Apart(s, Dispatch(s, key).state, key.deployment)
  {
    if Dispatch(s, key).state != s {}
  }

  lemma AppendApart(s: State, key: IntentKey)
    ensures Apart(s, Append(s, key).state, key.deployment)
  {
    hide EventOf, Apart;
    var r := Append(s, key);
    if r.Done? && r.state != s {
      var appended := s.intents[key := s.intents[key].(state := Appended)];
      CommitApart(s, key, {IntentRow(key)}, appended, s.events);
      CommitApart(s, key, {EventRow(s.intents[key].position), IntentRow(key)}, appended, r.state.events);
    } else {
      ApartSame(s, key.deployment);
    }
  }

  lemma CommitApart(s: State, key: IntentKey, touched: set<RowName>, intents: map<IntentKey, Intent>,
                    events: map<nat, LoggedEvent>)
    requires key in intents && intents == s.intents[key := intents[key]]
    ensures Apart(s, Commit(s, touched).(intents := intents, events := events), key.deployment)
  {
  }

  lemma ApartSame(s: State, d: nat)
    ensures Apart(s, s, d)
  {
  }

  lemma AcknowledgeApart(s: State, key: IntentKey)
    ensures Apart(s, Acknowledge(s, key).state, key.deployment)
  {
    if Acknowledge(s, key).state != s {}
  }

  lemma CompleteApart(s: State, key: IntentKey)
    ensures Apart(s, Complete(s, key).state, key.deployment)
  {
    hide Bind, Dispatch, Append, Acknowledge, Apart;
    var d := key.deployment;
    BindApart(s, key);
    var s1 := Bind(s, key).state;
    DispatchApart(s1, key);
    var s2 := Dispatch(s1, key).state;
    AppendApart(s2, key);
    var s3 := Append(s2, key).state;
    AcknowledgeApart(s3, key);
    ApartTwice(s, s1, s2, d);
    ApartTwice(s, s2, s3, d);
    ApartTwice(s, s3, Acknowledge(s3, key).state, d);
  }

  /** A terminal transition, begun and delivered, concerns its own deployment only. */
  lemma TerminalStaysApart(s: State, d: nat, terminal: DeploymentTerminal)
    ensures var key := IntentKey(d, Above(OrdinalsOf(s.intents, d)));
            Apart(s, Complete(BeginTerminal(s, d, terminal).state, key).state, d)
  {
    hide BeginTerminal, Complete, Apart, Above, OrdinalsOf;
    var key := IntentKey(d, Above(OrdinalsOf(s.intents, d)));
    TerminalApart(s, d, terminal);
    CompleteApart(BeginTerminal(s, d, terminal).state, key);
    ApartTwice(s, BeginTerminal(s, d, terminal).state, Complete(BeginTerminal(s, d, terminal).state, key).state, d);
  }

  /** Ending a deployment gives no position back. */
  lemma EndingCounts(s: State, d: nat, terminal: DeploymentTerminal)
    requires Inv(s)
    ensures var b := BeginTerminal(s, d, terminal).state;
            var key := IntentKey(d, Above(OrdinalsOf(s.intents, d)));
            s.allocation.nextPosition <= Complete(b, key).state.allocation.nextPosition
  {
    hide Inv, Bind, Dispatch, Append, Acknowledge, Above, OrdinalsOf;
    var b := BeginTerminal(s, d, terminal).state;
    var key := IntentKey(d, Above(OrdinalsOf(s.intents, d)));
    TerminalEffect(s, d, terminal);
    BindLedgers(b, key);
    var b1 := Bind(b, key).state;
    DispatchLedgers(b1, key);
    var b2 := Dispatch(b1, key).state;
    AppendLedgers(b2, key);
    AcknowledgeLedgers(Append(b2, key).state, key);
  }

  lemma AdmissionApart(s: State, identity: RequestIdentity, cursor: DeployJob)
    ensures Apart(s, BeginAdmission(s, identity, cursor).state, s.allocation.nextDeployment)
  {
    hide FreshJob;
    if BeginAdmission(s, identity, cursor).Refused? {} else {}
  }

  /** An admission, begun and delivered, concerns the new deployment only. */
  lemma AdmissionStaysApart(s: State, identity: RequestIdentity, cursor: DeployJob)
    ensures var key := IntentKey(s.allocation.nextDeployment, 0);
            Apart(s, Complete(BeginAdmission(s, identity, cursor).state, key).state, key.deployment)
  {
    hide BeginAdmission, Complete, Apart;
    var key := IntentKey(s.allocation.nextDeployment, 0);
    AdmissionApart(s, identity, cursor);
    CompleteApart(BeginAdmission(s, identity, cursor).state, key);
    ApartTwice(s, BeginAdmission(s, identity, cursor).state,
               Complete(BeginAdmission(s, identity, cursor).state, key).state, key.deployment);
  }
}
