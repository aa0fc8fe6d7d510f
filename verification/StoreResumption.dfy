/** When a self-switch row can still be reconciled, and what puts it out of reach. */
module StoreResumption {
  import opened StoreModel
  import opened StoreInvariant
  import opened StorePreservation
  import opened StoreRecovery
  import opened StoreSwitch
  import opened StoreTransitions

  /** The activation is recorded, or can be: its closures are canonical and its identifier is new. */
  predicate Recordable(s: State, w: Switch) {
    || w.identifier in s.roots
    || (CanonicalClosure(w.generation.closure) && CanonicalClosure(w.root.closure)
        && CanTake(w.generation.deployment) && CanTake(w.identifier) && w.identifier !in s.live)
  }

  /** The deployment has not ended and its next transition can be begun. */
  ghost predicate Endable(s: State, d: nat) {
    && d in s.records && s.records[d].terminal.None? && !EarlierPending(s.intents, d)
    && Above(OrdinalsOf(s.intents, d)) <= MAX_U64 && CanTake(s.allocation.nextPosition)
  }

  /** What an earlier attempt recorded is this activation, and the deployment has no other. */
  predicate OwnActivation(s: State, w: Switch) {
    && (w.identifier in s.roots ==>
          s.roots[w.identifier] == w.root && w.identifier in s.live && s.live[w.identifier] == w.generation)
    && GenerationsOf(s, w.deployment) <= {w.identifier}
  }

  lemma EndableExactly(s: State, d: nat)
    ensures BeginTerminal(s, d, Succeeded).Done? <==> Endable(s, d)
  {
  }

  lemma ActivatedExactly(s: State, w: Switch)
    requires Inv(s)
    ensures ActivationTried(s, w).Done? <==> Recordable(s, w)
    ensures var a := ActivationTried(s, w).state;
            && Inv(a) && a.records == s.records && a.intents == s.intents && a.history == s.history
            && a.allocation.nextPosition == s.allocation.nextPosition
  {
    hide Inv, CanonicalClosure;
    if w.identifier !in s.roots {
      ActivateKeeps(s, w.identifier, w.generation, w.root);
      if RecordActivation(s, w.identifier, w.generation, w.identifier, w.root).Done? {}
    }
  }

  /**
    An attempt to reconcile a row is carried through if and only if its
    activation is recorded or can be and its deployment can be ended. It then
    leaves the deployment reconciled if and only if what was recorded before is
    this activation and the deployment has no other.
  */
  lemma SwitchAcceptedExactly(s: State, w: Switch)
    requires Inv(s) && w.generation.deployment == w.deployment && w.deployment in s.records
    ensures Reconcile(s, w).Done? <==> Recordable(s, w) && Endable(s, w.deployment)
    ensures Reconcile(s, w).Done? ==> (Reconciled(Reconcile(s, w).state, w) <==> OwnActivation(s, w))
  {
    hide Inv, ActivationTried, Recordable, Endable, Complete, BeginTerminal, Reconciled, OwnActivation, FullyTerminal, Apart;
    ActivatedExactly(s, w);
    var a := ActivationTried(s, w).state;
    EndableExactly(a, w.deployment);
    EndableAlike(s, a, w.deployment);
    NextOf(s, w.deployment);
    if ActivationTried(s, w).Done? && BeginTerminal(a, w.deployment, Succeeded).Done? {
      TerminalDelivers(a, w.deployment, Succeeded);
      TerminalStaysApart(a, w.deployment, Succeeded);
      ReconciledAlike(a, Reconcile(s, w).state, w);
      ActivatedOwn(s, w);
    }
  }

  lemma EndableAlike(s: State, a: State, d: nat)
    requires a.records == s.records && a.intents == s.intents && a.allocation.nextPosition == s.allocation.nextPosition
    ensures Endable(a, d) <==> Endable(s, d)
  {
  }

  /** The store holds the activation whole, as the one generation of its deployment. */
  predicate ActivationHeld(s: State, w: Switch) {
    && GenerationsOf(s, w.deployment) == {w.identifier}
    && w.identifier in s.live && s.live[w.identifier] == w.generation
    && w.identifier in s.roots && s.roots[w.identifier] == w.root
  }

  lemma ReconciledAlike(a: State, s: State, w: Switch)
    requires FullyTerminal(a, s, w.deployment, Succeeded) && Apart(a, s, w.deployment)
    ensures Reconciled(s, w) <==> ActivationHeld(a, w)
  {
    hide EarlierPending;
    assert GenerationsOf(s, w.deployment) == GenerationsOf(a, w.deployment);
  }

  lemma ActivatedOwn(s: State, w: Switch)
    requires ActivationTried(s, w).Done? && w.generation.deployment == w.deployment
    ensures ActivationHeld(ActivationTried(s, w).state, w) <==> OwnActivation(s, w)
  {
    hide CanonicalClosure;
    var a := ActivationTried(s, w).state;
    if w.identifier in s.roots {
      if w.identifier in s.live && s.live[w.identifier] == w.generation {
        assert w.identifier in GenerationsOf(s, w.deployment);
      }
    } else {
      GenerationsAfter(s, w);
    }
  }

  lemma GenerationsAfter(s: State, w: Switch)
    requires w.identifier !in s.roots && RecordActivation(s, w.identifier, w.generation, w.identifier, w.root).Done?
    requires w.generation.deployment == w.deployment
    ensures GenerationsOf(RecordActivation(s, w.identifier, w.generation, w.identifier, w.root).state, w.deployment)
              == GenerationsOf(s, w.deployment) + {w.identifier}
  {
    hide CanonicalClosure;
    var a := RecordActivation(s, w.identifier, w.generation, w.identifier, w.root).state;
    forall g ensures g in GenerationsOf(a, w.deployment) <==> g in GenerationsOf(s, w.deployment) + {w.identifier} {
      if g in s.live && g != w.identifier { assert a.live[g].deployment == s.live[g].deployment; }
    }
  }

  // ---- out of reach ------------------------------------------------------

  /** A live generation whose root was retracted. */
  predicate Rootless(s: State, g: nat) {
    g in s.live && g !in s.roots
  }

  lemma RootlessStep(s: State, step: Step, g: nat)
    requires Inv(s) && Disciplined(s, step) && Rootless(s, g)
    ensures Rootless(Attempt(s, step).state, g)
  {
    hide Inv, FreshJob, CanonicalClosure;
    if IsDelivery(step) {
      DeliveryLedgers(s, step);
    } else if step.ActivateStep? || step.MutateRootStep? || step.RetractRootStep? {
      RootlessLedger(s, step, g);
    } else {
      QuietLedgers(s, step);
    }
  }

  lemma RootlessLedger(s: State, step: Step, g: nat)
    requires Disciplined(s, step) && Rootless(s, g)
    requires step.ActivateStep? || step.MutateRootStep? || step.RetractRootStep?
    ensures Rootless(Attempt(s, step).state, g)
  {
    hide CanonicalClosure;
    var s' := Attempt(s, step).state;
    if s' != s {}
  }

  lemma QuietLedgers(s: State, step: Step)
    requires !IsDelivery(step) && !step.ActivateStep? && !step.MutateRootStep? && !step.RetractRootStep?
    ensures Attempt(s, step).state.live == s.live && Attempt(s, step).state.roots == s.roots
  {
    hide FreshJob;
    var s' := Attempt(s, step).state;
    if s' != s {}
  }

  /**
    Retracting the root of a recorded activation puts its row out of reach for
    good: in no later store can an attempt be carried through.
  */
  lemma {:induction false} RetractedRootStrands(s: State, w: Switch, later: seq<Step>)
    requires Inv(s) && Rootless(s, w.identifier) && DisciplinedRun(s, later)
    ensures ActivationTried(Run(s, later), w).Refused? && Reconcile(Run(s, later), w).Refused?
    decreases |later|
  {
    hide Inv, Attempt, Disciplined;
    if later == [] {
      RootlessRefused(s, w);
    } else {
      StepKeeps(s, later[0]);
      RootlessStep(s, later[0], w.identifier);
      RetractedRootStrands(Attempt(s, later[0]).state, w, later[1..]);
    }
  }

  lemma RootlessRefused(s: State, w: Switch)
    requires Rootless(s, w.identifier)
    ensures ActivationTried(s, w).Refused?
  {
    hide CanonicalClosure;
  }
}
