/** How each group of the store invariant survives the kinds of change a step makes to it. */
module StoreGroups {
  import opened StoreModel
  import opened StoreInvariant

  // ---- Sequenced ---------------------------------------------------------

  /** Under the invariant the next ordinal is the number of transitions so far. */
  lemma NextOrdinal(intents: map<IntentKey, Intent>, deployments: set<nat>, counts: map<nat, nat>, d: nat)
    requires Sequenced(intents, deployments, counts)
    ensures Above(OrdinalsOf(intents, d)) == if d in counts then counts[d] else 0
  {
    var ordinals := OrdinalsOf(intents, d);
    if d in counts {
      assert IntentKey(d, counts[d] - 1) in intents;
      assert counts[d] - 1 in ordinals;
    }
  }

  lemma SequencedNew(intents: map<IntentKey, Intent>, deployments: set<nat>, counts: map<nat, nat>,
                     key: IntentKey, intent: Intent)
    requires Sequenced(intents, deployments, counts)
    requires key.ordinal == (if key.deployment in counts then counts[key.deployment] else 0)
    requires !EarlierPending(intents, key.deployment)
    ensures key !in intents
    ensures Sequenced(intents[key := intent], deployments + {key.deployment},
                      counts[key.deployment := key.ordinal + 1])
  {
  }

  lemma SequencedUpdate(intents: map<IntentKey, Intent>, deployments: set<nat>, counts: map<nat, nat>,
                        key: IntentKey, intent: Intent)
    requires Sequenced(intents, deployments, counts)
    requires key in intents && (Unacknowledged(intent) ==> Unacknowledged(intents[key]))
    ensures Sequenced(intents[key := intent], deployments, counts)
  {
  }

  // ---- Born, Marked and Logged -------------------------------------------

  lemma BornNew(keys: set<IntentKey>, births: map<IntentKey, nat>, origins: map<nat, IntentKey>, sequence: nat,
                key: IntentKey)
    requires Born(keys, births, origins, sequence) && key !in keys
    requires forall later :: later in keys ==> !Precedes(key, later)
    ensures Born(keys + {key}, births[key := sequence + 1], origins[sequence + 1 := key], sequence + 1)
  {
  }

  lemma BornLater(keys: set<IntentKey>, births: map<IntentKey, nat>, origins: map<nat, IntentKey>, sequence: nat)
    requires Born(keys, births, origins, sequence)
    ensures Born(keys, births, origins, sequence + 1)
  {
  }

  lemma MarkedUpdate(intents: map<IntentKey, Intent>, births: map<IntentKey, nat>, key: IntentKey, intent: Intent)
    requires Marked(intents, births) && key in births && MarkedAt(intent, births[key])
    ensures Marked(intents[key := intent], births)
  {
  }

  lemma MarkedNew(intents: map<IntentKey, Intent>, births: map<IntentKey, nat>, key: IntentKey, intent: Intent, birth: nat)
    requires Marked(intents, births) && key !in intents && MarkedAt(intent, birth)
    ensures Marked(intents[key := intent], births[key := birth])
  {
  }

  /** A commit may name bound intents only. */
  lemma LoggedCommit(intents: map<IntentKey, Intent>, births: map<IntentKey, nat>,
                     log: map<nat, set<RowName>>, sequence: nat, touched: set<RowName>)
    requires Logged(intents, births, log, sequence)
    requires forall key :: IntentRow(key) in touched ==>
               key in intents && key in births && births[key] <= sequence && IsBound(intents[key])
    requires forall key :: key in births ==> births[key] <= sequence
    ensures Logged(intents, births, log[sequence + 1 := touched], sequence + 1)
  {
  }

  lemma LoggedBirth(intents: map<IntentKey, Intent>, births: map<IntentKey, nat>,
                    log: map<nat, set<RowName>>, sequence: nat, touched: set<RowName>, key: IntentKey, intent: Intent)
    requires Logged(intents, births, log, sequence) && births.Keys == intents.Keys && key !in intents
    requires CreatesIntent(touched, key) && forall other :: IntentRow(other) in touched ==> other == key
    requires forall other :: other in births ==> births[other] <= sequence
    ensures Logged(intents[key := intent], births[key := sequence + 1], log[sequence + 1 := touched], sequence + 1)
  {
  }

  lemma LoggedRebound(intents: map<IntentKey, Intent>, births: map<IntentKey, nat>,
                      log: map<nat, set<RowName>>, sequence: nat, key: IntentKey, intent: Intent)
    requires Logged(intents, births, log, sequence) && key in intents && IsBound(intent)
    ensures Logged(intents[key := intent], births, log, sequence)
  {
  }

  lemma LoggedTruncate(intents: map<IntentKey, Intent>, births: map<IntentKey, nat>,
                       log: map<nat, set<RowName>>, sequence: nat, kept: set<nat>)
    requires Logged(intents, births, log, sequence)
    ensures Logged(intents, births, map c | c in log && c in kept :: log[c], sequence)
  {
  }

  /** An unbound intent's candidate commits are its creating commit, if that is still logged. */
  lemma SourcesOfUnbound(intents: map<IntentKey, Intent>, births: map<IntentKey, nat>,
                         log: map<nat, set<RowName>>, sequence: nat, key: IntentKey)
    requires Logged(intents, births, log, sequence) && key in births
    requires key in intents && !IsBound(intents[key])
    ensures SourceCommits(log, key) == if births[key] in log then {births[key]} else {}
  {
  }

  // ---- Positioned --------------------------------------------------------

  /** No intent was given the position and no entry occupies it. */
  predicate Unclaimed(owners: map<nat, IntentKey>, events: map<nat, LoggedEvent>, next: nat, p: nat) {
    p >= next || (p !in owners && p !in events)
  }

  lemma PositionedNew(intents: map<IntentKey, Intent>, owners: map<nat, IntentKey>, reserved: set<nat>,
                      events: map<nat, LoggedEvent>, next: nat, next': nat, key: IntentKey, intent: Intent)
    requires Positioned(intents, owners, reserved, events, next)
    requires key !in intents && next <= next' && intent.position < next'
    requires Unclaimed(owners, events, next, intent.position)
    ensures Positioned(intents[key := intent], owners[intent.position := key], reserved - {intent.position},
                       events, next')
  {
  }

  lemma PositionedUpdate(intents: map<IntentKey, Intent>, owners: map<nat, IntentKey>, reserved: set<nat>,
                         events: map<nat, LoggedEvent>, next: nat, key: IntentKey, intent: Intent)
    requires Positioned(intents, owners, reserved, events, next)
    requires key in intents && intent.position == intents[key].position
    requires intent.position in events ==> Holds(events[intent.position], key, intents[key := intent])
    ensures Positioned(intents[key := intent], owners, reserved, events, next)
  {
  }

  lemma PositionedEvent(intents: map<IntentKey, Intent>, owners: map<nat, IntentKey>, reserved: set<nat>,
                        events: map<nat, LoggedEvent>, next: nat, key: IntentKey, intent: Intent)
    requires Positioned(intents, owners, reserved, events, next)
    requires key in intents && intent.position == intents[key].position
    requires IsBound(intent) && intent.state == Appended
    requires intent.position !in events
    ensures Positioned(intents[key := intent], owners, reserved,
                       events[intent.position := Deployment(EventOf(key, intent))], next)
  {
  }

  lemma PositionedOther(intents: map<IntentKey, Intent>, owners: map<nat, IntentKey>, reserved: set<nat>,
                        events: map<nat, LoggedEvent>, next: nat, next': nat, p: nat, entry: LoggedEvent)
    requires Positioned(intents, owners, reserved, events, next)
    requires !entry.Deployment? && next <= next' && p < next'
    requires p !in owners && p !in events
    ensures Positioned(intents, owners, reserved - {p}, events[p := entry], next')
  {
  }

  lemma PositionedReserve(intents: map<IntentKey, Intent>, owners: map<nat, IntentKey>, reserved: set<nat>,
                          events: map<nat, LoggedEvent>, next: nat)
    requires Positioned(intents, owners, reserved, events, next)
    ensures Positioned(intents, owners, reserved + {next}, events, next + 1)
  {
  }

  lemma PositionedRetire(intents: map<IntentKey, Intent>, owners: map<nat, IntentKey>, reserved: set<nat>,
                         events: map<nat, LoggedEvent>, next: nat, retired: set<nat>)
    requires Positioned(intents, owners, reserved, events, next)
    ensures Positioned(intents, owners, reserved, events - retired, next)
  {
  }

  // ---- Carried, Awaited and Covered --------------------------------------

  lemma CarriedNew(intents: map<IntentKey, Intent>, origins: map<nat, IntentKey>,
                   outbox: map<OutboxKey, OutboxRow>, key: IntentKey, intent: Intent, commit: nat)
    requires Carried(intents, origins, outbox)
    requires key !in intents && commit !in origins
    ensures Carried(intents[key := intent], origins[commit := key], outbox)
  {
  }

  lemma CarriedBind(intents: map<IntentKey, Intent>, origins: map<nat, IntentKey>,
                    outbox: map<OutboxKey, OutboxRow>, key: IntentKey, intent: Intent)
    requires Carried(intents, origins, outbox)
    requires key in intents && !IsBound(intents[key]) && IsBound(intent) && intent.state == Bound
    requires intent.marker.value in origins && origins[intent.marker.value] == key
    ensures Carried(intents[key := intent], origins,
                    outbox[DeliveryKey(key, intent) := OutboxRow(EventOf(key, intent), Undelivered, 0)])
  {
  }

  /** Redelivery changes neither payloads nor which rows are acknowledged. */
  predicate SameDelivery(row: OutboxRow, row': OutboxRow) {
    row.event == row'.event && (row.delivery == Delivered <==> row'.delivery == Delivered)
  }

  lemma CarriedAgain(intents: map<IntentKey, Intent>, origins: map<nat, IntentKey>,
                     outbox: map<OutboxKey, OutboxRow>, outbox': map<OutboxKey, OutboxRow>)
    requires Carried(intents, origins, outbox) && outbox.Keys == outbox'.Keys
    requires forall o :: o in outbox' ==> SameDelivery(outbox[o], outbox'[o])
    ensures Carried(intents, origins, outbox')
  {
  }

  lemma AwaitedAgain(intents: map<IntentKey, Intent>, outbox: map<OutboxKey, OutboxRow>, outbox': map<OutboxKey, OutboxRow>)
    requires Awaited(intents, outbox) && outbox.Keys <= outbox'.Keys
    ensures Awaited(intents, outbox')
  {
  }

  lemma CoveredAgain(events: map<nat, LoggedEvent>, outbox: map<OutboxKey, OutboxRow>, outbox': map<OutboxKey, OutboxRow>)
    requires Covered(events, outbox) && outbox.Keys <= outbox'.Keys
    ensures Covered(events, outbox')
  {
  }

  /** Only the delivery state of an unacknowledged bound intent changes. */
  lemma CarriedState(intents: map<IntentKey, Intent>, origins: map<nat, IntentKey>,
                     outbox: map<OutboxKey, OutboxRow>, key: IntentKey)
    requires Carried(intents, origins, outbox)
    requires key in intents && IsBound(intents[key]) && Unacknowledged(intents[key])
    ensures Carried(intents[key := intents[key].(state := Appended)], origins, outbox)
  {
  }

  lemma CarriedAcknowledge(intents: map<IntentKey, Intent>, births: map<IntentKey, nat>, origins: map<nat, IntentKey>,
                           outbox: map<OutboxKey, OutboxRow>, key: IntentKey)
    requires Carried(intents, origins, outbox) && Marked(intents, births)
    requires forall m :: m in origins ==> origins[m] in births && births[origins[m]] == m
    requires forall other :: other in births ==> births[other] in origins && origins[births[other]] == other
    requires key in intents && IsBound(intents[key]) && DeliveryKey(key, intents[key]) in outbox
    ensures var delivery := DeliveryKey(key, intents[key]);
            Carried(intents[key := intents[key].(state := Acknowledged)], origins,
                    outbox[delivery := outbox[delivery].(delivery := Delivered)])
  {
    var delivery := DeliveryKey(key, intents[key]);
    var intents' := intents[key := intents[key].(state := Acknowledged)];
    var outbox' := outbox[delivery := outbox[delivery].(delivery := Delivered)];
    assert MarkedAt(intents[key], births[key]) && origins[births[key]] == key;
    forall o | o in outbox' ensures CarriedAt(intents', origins, o, outbox'[o]) {
      assert CarriedAt(intents, origins, o, outbox[o]);
      assert births[origins[o.marker]] == o.marker;
    }
  }

  lemma CarriedFewer(intents: map<IntentKey, Intent>, origins: map<nat, IntentKey>,
                     outbox: map<OutboxKey, OutboxRow>, dropped: set<OutboxKey>)
    requires Carried(intents, origins, outbox)
    ensures Carried(intents, origins, outbox - dropped)
  {
  }

  lemma AwaitedUpdate(intents: map<IntentKey, Intent>, outbox: map<OutboxKey, OutboxRow>, key: IntentKey, intent: Intent)
    requires Awaited(intents, outbox)
    requires IsBound(intent) && Unacknowledged(intent) ==> DeliveryKey(key, intent) in outbox
    ensures Awaited(intents[key := intent], outbox)
  {
  }

  /** Retiring acknowledged deliveries drops none that is still awaited. */
  lemma AwaitedFewer(intents: map<IntentKey, Intent>, births: map<IntentKey, nat>, origins: map<nat, IntentKey>,
                     outbox: map<OutboxKey, OutboxRow>, dropped: set<OutboxKey>)
    requires Awaited(intents, outbox) && Carried(intents, origins, outbox) && Marked(intents, births)
    requires forall key :: key in births ==> births[key] in origins && origins[births[key]] == key
    requires forall o :: o in dropped ==> o in outbox && outbox[o].delivery == Delivered
    ensures Awaited(intents, outbox - dropped)
  {
    forall key | key in intents && IsBound(intents[key]) && Unacknowledged(intents[key])
      ensures DeliveryKey(key, intents[key]) !in dropped
    {
      var o := DeliveryKey(key, intents[key]);
      assert MarkedAt(intents[key], births[key]) && origins[births[key]] == key;
      assert CarriedAt(intents, origins, o, outbox[o]);
    }
  }

  lemma CoveredEvent(events: map<nat, LoggedEvent>, outbox: map<OutboxKey, OutboxRow>, p: nat, entry: LoggedEvent)
    requires Covered(events, outbox) && (entry.Deployment? ==> KeyOf(entry.event) in outbox)
    ensures Covered(events[p := entry], outbox)
  {
  }

  /** Retiring the deliveries of retired positions leaves every remaining event covered. */
  lemma CoveredRetire(intents: map<IntentKey, Intent>, births: map<IntentKey, nat>, origins: map<nat, IntentKey>,
                      owners: map<nat, IntentKey>, reserved: set<nat>, events: map<nat, LoggedEvent>, next: nat,
                      outbox: map<OutboxKey, OutboxRow>, retired: set<nat>, dropped: set<OutboxKey>)
    requires Covered(events, outbox) && Carried(intents, origins, outbox) && Marked(intents, births)
    requires forall key :: key in births ==> births[key] in origins && origins[births[key]] == key
    requires Positioned(intents, owners, reserved, events, next)
    requires forall o :: o in dropped ==> o in outbox && RetiredDelivery(outbox[o], retired)
    ensures Covered(events - retired, outbox - dropped)
  {
    forall p | p in events && p !in retired && events[p].Deployment?
      ensures KeyOf(events[p].event) !in dropped
    {
      var key := owners[p];
      assert Holds(events[p], key, intents);
      assert MarkedAt(intents[key], births[key]) && origins[births[key]] == key;
      assert CarriedAt(intents, origins, KeyOf(events[p].event), outbox[KeyOf(events[p].event)]);
    }
  }

  // ---- Ending ------------------------------------------------------------

  /** What `Ending` asks of one deployment. */
  ghost predicate EndsWell(intents: map<IntentKey, Intent>, records: map<nat, DeploymentRecord>,
                           jobs: set<nat>, counts: map<nat, nat>, d: nat) {
    && d in records && d in counts && 1 <= counts[d] && LastOf(counts, d) in intents
    && AgreesWithLast(records[d], intents[LastOf(counts, d)], d in jobs)
    && (forall key :: key in intents && key.deployment == d ==>
          && (intents[key].terminal.Some? ==> key.ordinal + 1 == counts[d])
          && intents[key].generation == records[d].generation
          && (BoundAdmission(key, intents[key]) ==> records[d].admissionMarker.Some?))
  }

  lemma EndsWellBefore(intents: map<IntentKey, Intent>, records: map<nat, DeploymentRecord>,
                       jobs: set<nat>, counts: map<nat, nat>, d: nat)
    requires Ending(intents, records, jobs, counts) && d in records
    ensures EndsWell(intents, records, jobs, counts, d)
  {
  }

  /** A change confined to one deployment keeps `Ending` when that deployment still ends well. */
  lemma EndingAt(intents: map<IntentKey, Intent>, records: map<nat, DeploymentRecord>, jobs: set<nat>, counts: map<nat, nat>,
                 intents': map<IntentKey, Intent>, records': map<nat, DeploymentRecord>, jobs': set<nat>, counts': map<nat, nat>,
                 d: nat)
    requires Ending(intents, records, jobs, counts)
    requires EndsWell(intents', records', jobs', counts', d)
    requires records' == records[d := records'[d]] && counts' == counts[d := counts'[d]]
    requires jobs' <= jobs + {d} && jobs <= jobs' + {d}
    requires SameElsewhere(intents, intents', d)
    requires forall key :: key in intents ==> key.deployment in records
    ensures Ending(intents', records', jobs', counts')
  {
    forall e | e in records' && e != d ensures EndsWell(intents', records', jobs', counts', e) {
      EndsWellBefore(intents, records, jobs, counts, e);
      EndsWellElsewhere(intents, records, jobs, counts, intents', records', jobs', counts', d, e);
    }
    forall key | key in intents' ensures key.deployment in records' {
      if key.deployment != d { assert key in intents && key.deployment in records; }
    }
    EndingFromEach(intents', records', jobs', counts');
  }

  predicate SameElsewhere(intents: map<IntentKey, Intent>, intents': map<IntentKey, Intent>, d: nat) {
    && (forall key :: key in intents' && key.deployment != d ==> key in intents && intents[key] == intents'[key])
    && (forall key :: key in intents && key.deployment != d ==> key in intents')
  }

  lemma EndsWellElsewhere(
      intents: map<IntentKey, Intent>, records: map<nat, DeploymentRecord>, jobs: set<nat>, counts: map<nat, nat>,
      intents': map<IntentKey, Intent>, records': map<nat, DeploymentRecord>, jobs': set<nat>, counts': map<nat, nat>,
      d: nat, e: nat)
    requires d != e && EndsWell(intents, records, jobs, counts, e) && SameElsewhere(intents, intents', d)
    requires e in records' && records'[e] == records[e] && e in counts' && counts'[e] == counts[e]
    requires e in jobs' <==> e in jobs
    ensures EndsWell(intents', records', jobs', counts', e)
  {
  }

  lemma EndingFromEach(intents: map<IntentKey, Intent>, records: map<nat, DeploymentRecord>, jobs: set<nat>,
                       counts: map<nat, nat>)
    requires jobs <= records.Keys
    requires forall key :: key in intents ==> key.deployment in records
    requires forall d :: d in records ==> EndsWell(intents, records, jobs, counts, d)
    ensures Ending(intents, records, jobs, counts)
  {
  }
}
