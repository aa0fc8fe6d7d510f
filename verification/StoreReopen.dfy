/**
  Opening is itself a run of delivery steps, finished or refused part way, so a
  history of steps may contain any number of crashes and reopenings.
*/
module StoreReopen {
  import opened StoreModel
  import opened StoreInvariant
  import opened StorePreservation
  import opened StoreRecovery

  lemma {:induction false} RunTwice(s: State, first: seq<Step>, second: seq<Step>)
    requires DisciplinedRun(s, first) && DisciplinedRun(Run(s, first), second)
    ensures DisciplinedRun(s, first + second) && Run(s, first + second) == Run(Run(s, first), second)
    decreases |first|
  {
    hide Attempt, Disciplined;
    if first == [] {
      assert first + second == second;
    } else {
      assert (first + second)[1..] == first[1..] + second && (first + second)[0] == first[0];
      RunTwice(Attempt(s, first[0]).state, first[1..], second);
    }
  }

  lemma RunOne(s: State, step: Step)
    requires Disciplined(s, step)
    ensures DisciplinedRun(s, [step]) && Run(s, [step]) == Attempt(s, step).state
  {
    hide Attempt, Disciplined;
    assert [step][1..] == [];
    assert Run(Attempt(s, step).state, []) == Attempt(s, step).state;
    assert DisciplinedRun(Attempt(s, step).state, []);
  }

  /** A run that has brought `s` to `s'` by delivery steps alone. */
  ghost predicate Reaches(s: State, steps: seq<Step>, s': State) {
    DisciplinedRun(s, steps) && Deliveries(steps) && Run(s, steps) == s'
  }

  lemma ReachesThen(s: State, steps: seq<Step>, s': State, step: Step)
    requires Reaches(s, steps, s') && Disciplined(s', step) && IsDelivery(step)
    ensures Reaches(s, steps + [step], Attempt(s', step).state)
  {
    hide Attempt, Disciplined;
    RunOne(s', step);
    RunTwice(s, steps, [step]);
  }

  lemma ReachesTwice(s: State, first: seq<Step>, s1: State, second: seq<Step>, s2: State)
    requires Reaches(s, first, s1) && Reaches(s1, second, s2)
    ensures Reaches(s, first + second, s2)
  {
    hide Attempt, Disciplined, Run, DisciplinedRun;
    RunTwice(s, first, second);
  }

  lemma CompleteIsARun(s: State, key: IntentKey) returns (steps: seq<Step>)
    requires Inv(s) && key in s.intents && Unacknowledged(s.intents[key])
    ensures Reaches(s, steps, Complete(s, key).state)
  {
    hide Inv, Reaches, Bind, Dispatch, Append, Acknowledge, Elsewhere, Settled;
    ReachesNothing(s);
    steps := [BindStep(key)];
    ReachesThen(s, [], s, BindStep(key));
    assert [] + [BindStep(key)] == steps;
    if Bind(s, key).Refused? { return; }
    BindCompletes(s, key);
    var s1 := Bind(s, key).state;
    ReachesThen(s, steps, s1, DispatchStep(key));
    steps := steps + [DispatchStep(key)];
    if Dispatch(s1, key).Refused? { return; }
    DispatchCompletes(s1, key);
    var s2 := Dispatch(s1, key).state;
    ReachesThen(s, steps, s2, AppendStep(key));
    steps := steps + [AppendStep(key)];
    if Append(s2, key).Refused? { return; }
    var s3 := Append(s2, key).state;
    ReachesThen(s, steps, s3, AcknowledgeStep(key));
    steps := steps + [AcknowledgeStep(key)];
  }

  lemma ReachesNothing(s: State)
    ensures Reaches(s, [], s)
  {
  }

  lemma {:induction false} CompleteAllIsARun(s: State, snapshot: map<IntentKey, Intent>, keys: seq<IntentKey>)
    returns (steps: seq<Step>)
    requires Inv(s) && StillListed(s, snapshot, keys)
    ensures Reaches(s, steps, CompleteAll(s, snapshot, keys).state)
    decreases |keys|
  {
    hide Inv, Reaches, Complete, Deliverable, Elsewhere, Settled;
    if keys == [] {
      ReachesNothing(s);
      steps := [];
    } else if !Unacknowledged(snapshot[keys[0]]) {
      StillListedTail(s, s, snapshot, keys);
      steps := CompleteAllIsARun(s, snapshot, keys[1..]);
    } else {
      steps := CompleteIsARun(s, keys[0]);
      if Complete(s, keys[0]).Done? {
        CompleteDelivers(s, keys[0]);
        var s' := Complete(s, keys[0]).state;
        ElsewhereIntents(s, s', keys[0]);
        StillListedTail(s, s', snapshot, keys);
        var rest := CompleteAllIsARun(s', snapshot, keys[1..]);
        ReachesTwice(s, steps, s', rest, CompleteAll(s', snapshot, keys[1..]).state);
        steps := steps + rest;
      }
    }
  }

  lemma OpenIsARun(s: State, keys: seq<IntentKey>) returns (steps: seq<Step>)
    requires Inv(s) && Lists(keys, s)
    ensures Reaches(s, steps, Open(s, keys).state)
  {
    hide Inv, Reaches, CompleteAll, ReconcileOutbox, Settled;
    var r := Requeue(s);
    RequeueKeeps(s);
    ReachesNothing(s);
    ReachesThen(s, [], s, RequeueStep);
    assert StillListed(r, r.intents, keys);
    var middle := CompleteAllIsARun(r, r.intents, keys);
    var c := CompleteAll(r, r.intents, keys);
    ReachesTwice(s, [] + [RequeueStep], r, middle, c.state);
    steps := [] + [RequeueStep] + middle;
    if c.Done? {
      ReachesThen(s, steps, c.state, ReconcileStep);
      steps := steps + [ReconcileStep];
    }
  }

  /** A store reopened after a crash, whether or not the opening was refused, was reached by a history. */
  lemma ReopenedIsReachable(history: seq<Step>, keys: seq<IntentKey>) returns (longer: seq<Step>)
    requires DisciplinedRun(EMPTY, history) && Lists(keys, Run(EMPTY, history))
    ensures |history| <= |longer| && longer[..|history|] == history
    ensures DisciplinedRun(EMPTY, longer) && Run(EMPTY, longer) == Open(Run(EMPTY, history), keys).state
  {
    hide Inv, Run, DisciplinedRun, Open, Lists;
    ReachableHolds(history);
    var steps := OpenIsARun(Run(EMPTY, history), keys);
    RunTwice(EMPTY, history, steps);
    longer := history + steps;
  }
}
