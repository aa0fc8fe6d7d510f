/** What the loops of the store's methods have found when they end. */
module StoreScans {
  import opened StoreModel

  // ---- ordinals and commits ----------------------------------------------

  lemma AboveIs(numbers: set<nat>, bound: nat)
    requires forall n :: n in numbers ==> n < bound
    requires bound > 0 ==> bound - 1 in numbers
    ensures Above(numbers) == bound
  {
  }

  lemma NextOrdinalFound(intents: map<IntentKey, Intent>, deployment: nat, ordinal: nat)
    requires forall key :: key in intents && key.deployment == deployment ==> key.ordinal < ordinal
    requires ordinal > 0 ==> IntentKey(deployment, ordinal - 1) in intents
    ensures Above(OrdinalsOf(intents, deployment)) == ordinal
  {
    var ordinals := OrdinalsOf(intents, deployment);
    if ordinal > 0 {
      var key := IntentKey(deployment, ordinal - 1);
      assert key in intents && key.deployment == deployment;
      assert key.ordinal in ordinals;
    }
    AboveIs(ordinals, ordinal);
  }

  lemma OnlySource(s: State, key: IntentKey, marker: nat)
    requires key in s.intents && !IsBound(s.intents[key]) && SourceCommits(s.log, key) == {marker}
    ensures Bind(s, key) == BindTo(s, key, marker)
  {
    hide BindTo;
    assert marker in SourceCommits(s.log, key);
    assert forall m :: m in SourceCommits(s.log, key) ==> m == marker;
  }

  lemma MoreThanOne(s: State, key: IntentKey, marker: nat)
    requires key in s.intents && !IsBound(s.intents[key])
    requires marker in SourceCommits(s.log, key) && SourceCommits(s.log, key) != {marker}
    ensures Bind(s, key) == Refused(s, ManySourceCommits)
  {
    hide BindTo;
    var sources := SourceCommits(s.log, key);
    assert forall m :: sources == {m} ==> marker in {m};
  }

  // ---- compaction --------------------------------------------------------

  ghost predicate Ascending(sorted: seq<nat>) {
    forall i, j :: 0 <= i < j < |sorted| ==> sorted[i] < sorted[j]
  }

  function Members(sorted: seq<nat>): set<nat> {
    set n | n in sorted
  }

  /** The positions in ascending order, by inserting one after another. */
  method SortedPositions(positions: set<nat>) returns (sorted: seq<nat>)
    ensures Ascending(sorted) && Members(sorted) == positions
  {
    sorted := [];
    var rest := positions;
    while rest != {}
      invariant Ascending(sorted) && rest <= positions && Members(sorted) == positions - rest
    {
      var p :| p in rest;
      rest := rest - {p};
      var i := |sorted|;
      while i > 0 && sorted[i - 1] > p
        invariant 0 <= i <= |sorted| && forall j :: i <= j < |sorted| ==> p < sorted[j]
      {
        i := i - 1;
      }
      assert i > 0 ==> sorted[i - 1] in Members(sorted);
      assert p !in Members(sorted);
      Inserted(sorted, p, i);
      sorted := sorted[..i] + [p] + sorted[i..];
    }
  }

  lemma Inserted(sorted: seq<nat>, p: nat, i: nat)
    requires Ascending(sorted) && i <= |sorted|
    requires i > 0 ==> sorted[i - 1] < p
    requires forall j :: i <= j < |sorted| ==> p < sorted[j]
    ensures Ascending(sorted[..i] + [p] + sorted[i..])
    ensures Members(sorted[..i] + [p] + sorted[i..]) == Members(sorted) + {p}
  {
    var now := sorted[..i] + [p] + sorted[i..];
    forall n ensures n in now <==> n in sorted || n == p {
      if n in sorted {
        var j :| 0 <= j < |sorted| && sorted[j] == n;
        assert now[if j < i then j else j + 1] == n;
      }
      if n == p { assert now[i] == p; }
    }
  }

  /** The oldest positions in ascending order are those compaction retires. */
  lemma OldestAreRetired(sorted: seq<nat>, positions: set<nat>, retention: nat)
    requires Ascending(sorted) && Members(sorted) == positions
    ensures var retired := if |sorted| > retention then |sorted| - retention else 0;
            positions - Newest(positions, retention) == set i | 0 <= i < retired :: sorted[i]
  {
    var cut := if |sorted| > retention then |sorted| - retention else 0;
    NewestAreLast(sorted, positions, retention);
    forall n ensures n in positions - Newest(positions, retention) <==> n in (set i | 0 <= i < cut :: sorted[i]) {
      if n in positions {
        var i :| 0 <= i < |sorted| && sorted[i] == n;
        assert n in Newest(positions, retention) <==> i >= cut by {
          if n in Members(sorted[cut..]) {
            var k :| 0 <= k < |sorted[cut..]| && sorted[cut..][k] == n;
            assert sorted[cut + k] == n;
          }
          if i >= cut { assert sorted[cut..][i - cut] == n; }
        }
      } else {
        forall i | 0 <= i < cut ensures sorted[i] != n { assert sorted[i] in Members(sorted); }
      }
    }
  }

  lemma {:induction false} NewestAreLast(sorted: seq<nat>, positions: set<nat>, retention: nat)
    requires Ascending(sorted) && Members(sorted) == positions
    ensures var cut := if |sorted| > retention then |sorted| - retention else 0;
            Newest(positions, retention) == Members(sorted[cut..])
    decreases retention
  {
    hide Ascending, Members;
    if sorted == [] || retention == 0 {
      NoneKept(sorted, positions, retention);
    } else {
      var last := |sorted| - 1;
      WithoutLast(sorted, positions);
      assert Newest(positions, retention) == {sorted[last]} + Newest(positions - {sorted[last]}, retention - 1);
      NewestAreLast(sorted[..last], positions - {sorted[last]}, retention - 1);
      LastKept(sorted, if |sorted| > retention then |sorted| - retention else 0);
    }
  }

  lemma NoneKept(sorted: seq<nat>, positions: set<nat>, retention: nat)
    requires Members(sorted) == positions && (sorted == [] || retention == 0)
    ensures Newest(positions, retention) == {} && Members(sorted[if |sorted| > retention then |sorted| - retention else 0..]) == {}
  {
  }

  lemma WithoutLast(sorted: seq<nat>, positions: set<nat>)
    requires Ascending(sorted) && Members(sorted) == positions && sorted != []
    ensures var last := |sorted| - 1;
            && positions != {} && Above(positions) == sorted[last] + 1
            && Ascending(sorted[..last]) && Members(sorted[..last]) == positions - {sorted[last]}
  {
    var last := |sorted| - 1;
    assert sorted[last] in positions;
    forall n | n in positions ensures n < sorted[last] + 1 {
      var i :| 0 <= i < |sorted| && sorted[i] == n;
    }
    AboveIs(positions, sorted[last] + 1);
    forall n ensures n in Members(sorted[..last]) <==> n in positions - {sorted[last]} {
      if n in Members(sorted[..last]) {
        var i :| 0 <= i < last && sorted[..last][i] == n;
        assert sorted[i] == n;
      }
    }
  }

  lemma LastKept(sorted: seq<nat>, cut: nat)
    requires cut < |sorted|
    ensures Members(sorted[cut..]) == {sorted[|sorted| - 1]} + Members(sorted[..|sorted| - 1][cut..])
  {
    var last := |sorted| - 1;
    assert sorted[cut..] == sorted[..last][cut..] + [sorted[last]];
  }

  lemma {:induction false} OldestCount(sorted: seq<nat>, retired: nat)
    requires Ascending(sorted) && retired <= |sorted|
    ensures |set i | 0 <= i < retired :: sorted[i]| == retired
  {
    var oldest := set i | 0 <= i < retired :: sorted[i];
    if retired > 0 {
      OldestCount(sorted, retired - 1);
      var before := set i | 0 <= i < retired - 1 :: sorted[i];
      assert oldest == before + {sorted[retired - 1]};
      assert sorted[retired - 1] !in before;
    } else {
      assert oldest == {};
    }
  }

  // ---- rebuilding the outbox ---------------------------------------------

  /** What rebuilding has gathered from the journal positions already read. */
  ghost predicate AdditionsSoFar(s: State, read: set<nat>, additions: map<OutboxKey, OutboxRow>) {
    && (forall p :: p in read && Journalled(s, p) ==> Agreed(s, additions, s.events[p].event))
    && (forall o :: o in additions ==> o !in s.outbox && Gathered(s, read, o, additions[o]))
  }

  ghost predicate Agreed(s: State, additions: map<OutboxKey, OutboxRow>, event: PhaseEvent) {
    var key := KeyOf(event);
    if key in s.outbox then s.outbox[key].event == event
    else key in additions && additions[key].event == event
  }

  ghost predicate Gathered(s: State, read: set<nat>, o: OutboxKey, row: OutboxRow) {
    && row.delivery == Undelivered && row.retries == 0
    && exists p :: p in read && Journalled(s, p) && KeyOf(s.events[p].event) == o && s.events[p].event == row.event
  }

  lemma ConflictFound(s: State, read: set<nat>, additions: map<OutboxKey, OutboxRow>, p: nat)
    requires AdditionsSoFar(s, read, additions) && Journalled(s, p)
    requires var event := s.events[p].event; var key := KeyOf(event);
             (key in s.outbox && s.outbox[key].event != event)
             || (key !in s.outbox && key in additions && additions[key].event != event)
    ensures OutboxConflict(s)
  {
    var key := KeyOf(s.events[p].event);
    if key !in s.outbox {
      assert Gathered(s, read, key, additions[key]);
      var q :| q in read && Journalled(s, q) && KeyOf(s.events[q].event) == key
               && s.events[q].event == additions[key].event;
      assert Journalled(s, p) && Journalled(s, q) && KeyOf(s.events[p].event) == KeyOf(s.events[q].event);
    }
  }

  lemma AdditionsSkip(s: State, read: set<nat>, additions: map<OutboxKey, OutboxRow>, p: nat)
    requires AdditionsSoFar(s, read, additions) && !Journalled(s, p)
    ensures AdditionsSoFar(s, read + {p}, additions)
  {
    forall o | o in additions ensures Gathered(s, read + {p}, o, additions[o]) {
      assert Gathered(s, read, o, additions[o]);
    }
  }

  lemma AdditionsStep(s: State, read: set<nat>, additions: map<OutboxKey, OutboxRow>, p: nat)
    requires AdditionsSoFar(s, read, additions) && Journalled(s, p)
    requires var key := KeyOf(s.events[p].event);
             (key in s.outbox ==> s.outbox[key].event == s.events[p].event)
             && (key !in s.outbox && key in additions ==> additions[key].event == s.events[p].event)
    ensures var event := s.events[p].event;
            AdditionsSoFar(s, read + {p},
              if KeyOf(event) in s.outbox || KeyOf(event) in additions then additions
              else additions[KeyOf(event) := OutboxRow(event, Undelivered, 0)])
  {
    var event := s.events[p].event;
    var next := if KeyOf(event) in s.outbox || KeyOf(event) in additions then additions
                else additions[KeyOf(event) := OutboxRow(event, Undelivered, 0)];
    forall q | q in read + {p} && Journalled(s, q) ensures Agreed(s, next, s.events[q].event) {
      if q != p { assert Agreed(s, additions, s.events[q].event); }
    }
    forall o | o in next ensures o !in s.outbox && Gathered(s, read + {p}, o, next[o]) {
      if o in additions { assert Gathered(s, read, o, additions[o]); }
    }
  }

  /** With the whole journal read and no disagreement, the additions are those the model makes. */
  lemma AdditionsComplete(s: State, additions: map<OutboxKey, OutboxRow>)
    requires AdditionsSoFar(s, s.events.Keys, additions)
    ensures !OutboxConflict(s)
    ensures additions == map[] <==> MissingDeliveries(s) == {}
    ensures additions.Keys == set p | p in MissingDeliveries(s) :: KeyOf(s.events[p].event)
    ensures forall o :: o in additions ==>
              (exists p :: p in MissingDeliveries(s) && KeyOf(s.events[p].event) == o)
              && additions[o] == OutboxRow(MissingEvent(s, o), Undelivered, 0)
  {
    forall p | Journalled(s, p) ensures Agreed(s, additions, s.events[p].event) {}
    var missing := MissingDeliveries(s);
    forall p | p in missing ensures KeyOf(s.events[p].event) in additions {
      assert Journalled(s, p);
    }
    forall o | o in additions
      ensures (exists p :: p in missing && KeyOf(s.events[p].event) == o)
      ensures additions[o] == OutboxRow(MissingEvent(s, o), Undelivered, 0)
    {
      assert Gathered(s, s.events.Keys, o, additions[o]);
      var q :| q in s.events.Keys && Journalled(s, q) && KeyOf(s.events[q].event) == o
               && s.events[q].event == additions[o].event;
      assert q in missing;
      assert forall p :: p in missing && KeyOf(s.events[p].event) == o ==> Journalled(s, p);
    }
    if missing == {} { assert additions.Keys == {}; }
  }

  lemma NothingGathered(s: State)
    ensures AdditionsSoFar(s, s.events.Keys - s.events.Keys, map[])
  {
  }

  /** Committing the additions is what the model commits. */
  lemma AdditionsAre(s: State, additions: map<OutboxKey, OutboxRow>)
    requires AdditionsSoFar(s, s.events.Keys, additions) && additions != map[]
    ensures ReconcileOutbox(s) == Done(Commit(s, set o | o in additions :: OutboxRowName(o)).(
              outbox := s.outbox + additions))
  {
    hide AdditionsSoFar, OutboxConflict;
    AdditionsComplete(s, additions);
    var keys := set p | p in MissingDeliveries(s) :: KeyOf(s.events[p].event);
    assert (set o | o in keys :: OutboxRowName(o)) == set o | o in additions :: OutboxRowName(o);
    assert (map o | o in keys :: OutboxRow(MissingEvent(s, o), Undelivered, 0)) == additions;
  }
}
