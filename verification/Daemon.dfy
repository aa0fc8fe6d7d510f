/**
  The daemon's start: what it does with each persisted job row. The verdict on
  a row comes from outside, from the units observed and the pipelines resumed.
*/
module Daemon {
  import opened Options
  import opened StoreModel
  import opened StoreInvariant
  import opened StorePreservation
  import opened StoreEffects
  import opened StoreLogging
  import opened StoreRefusals
  import opened StoreSwitch
  import opened StoreTransitions
  import opened StoreTables

  datatype Resumption = Resumes | Refuses | Fails

  /** What the daemon makes of one row. */
  datatype Verdict =
    | Observed(terminal: DeploymentTerminal)
    | SelfSwitched(switch: Switch)
    | LeftForPoll
    | RestartPipeline(resumption: Resumption)
    | AlreadyTerminal

  /** How many of the first `count` rows are resumptions that go ahead if there is room. */
  function ResumesAmong(rows: seq<nat>, verdicts: map<nat, Verdict>, count: nat): nat
    requires count <= |rows|
  {
    if count == 0 then 0
    else
      ResumesAmong(rows, verdicts, count - 1)
      + (if rows[count - 1] in verdicts && verdicts[rows[count - 1]] == RestartPipeline(Resumes) then 1 else 0)
  }

  /** The pipelines active once the first `count` rows are handled: every resumption so far, up to the cap. */
  function ActiveAfter(active: nat, cap: nat, resumed: nat): nat {
    if active >= cap then active else if active + resumed < cap then active + resumed else cap
  }

  /**
    One row's handling touches no other deployment's record, row or transitions,
    gives back no position and drops no root.
  */
  ghost predicate RowsApart(s: State, s': State, d: nat) {
    (forall other :: other != d ==> SameRow(s, s', other)) && Grows(s, s')
  }

  /** What no handling takes back. */
  ghost predicate Grows(s: State, s': State) {
    s.allocation.nextPosition <= s'.allocation.nextPosition && s.roots.Keys <= s'.roots.Keys
  }

  lemma RowElsewhere(s: State, s': State, d: nat, other: nat)
    requires RowsApart(s, s', d) && other != d
    ensures SameRow(s, s', other) && Grows(s, s')
  {
  }

  lemma GrowsTwice(s: State, here: State, s': State, d: nat)
    requires Grows(s, here) && RowsApart(here, s', d)
    ensures Grows(s, s')
  {
  }

  /** The record, the row and the transitions of a deployment are as they were. */
  ghost predicate SameRow(s: State, s': State, d: nat) {
    && SameKey(s.jobs, s'.jobs, d) && SameKey(s.records, s'.records, d)
    && forall key: IntentKey :: key.deployment == d ==> SameKey(s.intents, s'.intents, key)
  }

  /** The deployment is there, has not ended, and nothing of it stands in the way of ending it. */
  ghost predicate MayEnd(s: State, d: nat) {
    && d in s.records && s.records[d].terminal.None?
    && !HasPending(s, d) && !OrdinalsSpent(s, d)
  }

  /** It has ended with this terminal, marked and with its row gone, and is otherwise the same deployment. */
  ghost predicate EndedWith(s: State, s': State, d: nat, terminal: DeploymentTerminal) {
    && d in s.records && d in s'.records && d !in s'.jobs
    && s'.records[d].terminal == Some(terminal) && Tells(s'.records[d].lifecycle, Some(terminal))
    && s'.records[d].terminalMarker.Some? && s'.records[d].admissionMarker == s.records[d].admissionMarker
    && s'.records[d].identity == s.records[d].identity && s'.records[d].generation == s.records[d].generation
  }

  lemma MayEndAlike(s: State, s': State, d: nat)
    requires SameRow(s, s', d)
    ensures MayEnd(s, d) <==> MayEnd(s', d)
  {
  }

  lemma EndsFully(s: State, s': State, d: nat, terminal: DeploymentTerminal)
    requires FullyTerminal(s, s', d, terminal)
    ensures EndedWith(s, s', d, terminal)
  {
  }

  lemma EndableExactly(s: State, d: nat, terminal: DeploymentTerminal)
    ensures BeginTerminal(s, d, terminal).Done? <==> MayEnd(s, d) && !Spent(s.allocation.nextPosition)
  {
    hide BeginTerminal, HasPending, OrdinalsSpent;
    TerminalRefused(s, d, terminal);
  }

  lemma ApartRows(s: State, s': State, d: nat)
    requires Apart(s, s', d) && s.allocation.nextPosition <= s'.allocation.nextPosition
    ensures RowsApart(s, s', d)
  {
    hide SameKey;
    SameElsewhere(s.jobs, s'.jobs, d);
    SameElsewhere(s.records, s'.records, d);
    forall key: IntentKey | key.deployment != d ensures SameKey(s.intents, s'.intents, key) {
      OneKey(s, s', d, key);
    }
  }

  lemma OneKey(s: State, s': State, d: nat, key: IntentKey)
    requires Apart(s, s', d) && key.deployment != d
    ensures SameKey(s.intents, s'.intents, key)
  {
  }

  lemma NothingTouched(s: State, d: nat)
    ensures RowsApart(s, s, d) && SameRow(s, s, d)
  {
  }

  lemma ActivationApart(s: State, w: Switch)
    ensures var s' := RecordActivation(s, w.identifier, w.generation, w.identifier, w.root).state;
            && RowsApart(s, s', w.deployment) && SameRow(s, s', w.deployment)
            && (RecordActivation(s, w.identifier, w.generation, w.identifier, w.root).Done? ==> w.identifier in s'.roots)
            && s'.allocation.nextPosition == s.allocation.nextPosition
  {
    hide RecordActivation, RowsApart;
    ActivationEffect(s, w.identifier, w.generation, w.identifier, w.root);
    DeploymentsAlike(s, RecordActivation(s, w.identifier, w.generation, w.identifier, w.root).state, w.deployment);
    NothingTouched(s, w.deployment);
  }

  lemma DeploymentsAlike(s: State, s': State, d: nat)
    requires DeploymentsKept(s, s') && s.allocation.nextPosition <= s'.allocation.nextPosition && s.roots.Keys <= s'.roots.Keys
    ensures RowsApart(s, s', d) && SameRow(s, s', d)
  {
  }

  lemma ApartTwice(s: State, here: State, s': State, d: nat)
    requires RowsApart(s, here, d) && RowsApart(here, s', d)
    ensures RowsApart(s, s', d)
  {
    hide SameRow;
    forall other | other != d ensures SameRow(s, s', other) { SameRowTwice(s, here, s', other); }
  }

  /** What an attempt to reconcile a self-switch leaves of its row. */
  ghost predicate Switched(s: State, s': State, w: Switch) {
    && (SameRow(s, s', w.deployment)
        || (EndedWith(s, s', w.deployment, Succeeded) && w.identifier in s'.roots))
    && (!MayEnd(s, w.deployment) ==> SameRow(s, s', w.deployment))
    && (w.identifier in s.roots && MayEnd(s, w.deployment) && !Spent(s'.allocation.nextPosition) ==>
          EndedWith(s, s', w.deployment, Succeeded))
  }

  lemma SwitchEnds(s: State, activated: State, s': State, w: Switch, ended: bool)
    requires RowsApart(s, activated, w.deployment) && SameRow(s, activated, w.deployment)
    requires w.identifier in activated.roots && activated.allocation.nextPosition == s.allocation.nextPosition
    requires ended <==> MayEnd(activated, w.deployment) && !Spent(activated.allocation.nextPosition)
    requires !ended ==> s' == activated
    requires ended ==>
               && FullyTerminal(activated, s', w.deployment, Succeeded) && Apart(activated, s', w.deployment)
               && activated.allocation.nextPosition <= s'.allocation.nextPosition
    ensures RowsApart(s, s', w.deployment) && Switched(s, s', w)
  {
    hide FullyTerminal, Apart, MayEnd, RowsApart;
    MayEndAlike(s, activated, w.deployment);
    if ended {
      EndsFully(activated, s', w.deployment, Succeeded);
      ApartRows(activated, s', w.deployment);
      ApartTwice(s, activated, s', w.deployment);
      RootsApart(activated, s', w.deployment);
    }
  }

  lemma Unswitched(s: State, w: Switch)
    requires w.identifier !in s.roots
    ensures Switched(s, s, w)
  {
  }

  lemma RootsApart(s: State, s': State, d: nat)
    requires Apart(s, s', d)
    ensures s'.roots == s.roots
  {
  }

  class DeployJobs {
    const store: Store
    const cap: nat
    var activeCount: nat

    constructor (store: Store, cap: nat)
      ensures this.store == store && this.cap == cap && activeCount == 0
    {
      this.store, this.cap, this.activeCount := store, cap, 0;
    }

    predicate AtCapacity()
      reads this
    {
      activeCount >= cap
    }

    /**
      End a deployment whose unit reported an outcome, with that outcome; where
      it cannot be ended the row stays for the next start and nothing changes.
    */
    method Terminalize(d: nat, terminal: DeploymentTerminal)
      requires store.Valid()
      modifies store
      ensures store.Valid() && RowsApart(old(store.database), store.database, d)
      ensures if MayEnd(old(store.database), d) && !Spent(old(store.database).allocation.nextPosition)
              then EndedWith(old(store.database), store.database, d, terminal)
              else store.database == old(store.database)
    {
      hide Inv, BeginTerminal, RowsApart, MayEnd, EndedWith, FullyTerminal, Apart, Complete;
      ghost var before := store.database;
      EndableExactly(before, d, terminal);
      var error := store.TerminalizeDeployment(d, terminal);
      if error.None? {
        EndsFully(before, store.database, d, terminal);
        ApartRows(before, store.database, d);
      } else {
        NothingTouched(before, d);
      }
    }

    /**
      Record the activation unless its root is recorded, then terminalize as
      succeeded. Neither failing erases the row; a waiting self-switch is
      reconciled.
    */
    method PersistReconciledSelfSwitch(w: Switch)
      requires store.Valid()
      modifies store
      ensures store.Valid() && RowsApart(old(store.database), store.database, w.deployment)
      ensures Switched(old(store.database), store.database, w)
      ensures old(Waiting(store.database, w)) ==> Reconciled(store.database, w)
    {
      hide Inv, BeginTerminal, Complete, RecordActivation, Waiting, Reconciled, RowsApart, MayEnd, EndedWith, SameRow;
      hide FullyTerminal, Apart, ActivationLeft, Switched;
      ghost var before := store.database;
      ghost var waits := Waiting(before, w);
      NothingTouched(before, w.deployment);
      if waits { ActivatedWaits(before, w); BegunPends(before, w); }
      if w.identifier !in store.database.roots {
        ActivationApart(before, w);
        StepKeeps(before, ActivateStep(w.identifier, w.generation, w.identifier, w.root));
        var error := store.RecordActivationOf(w.identifier, w.generation, w.identifier, w.root);
        if error.Some? {
          RefusedActivation(before, w);
          Unswitched(before, w);
          return;
        }
      }
      ghost var activated := store.database;
      MayEndAlike(before, activated, w.deployment);
      EndableExactly(activated, w.deployment, Succeeded);
      var error := store.TerminalizeDeployment(w.deployment, Succeeded);
      if waits {
        WaitingActivated(activated, w);
        SwitchReconciled(activated, store.database, w);
      }
      SwitchEnds(before, activated, store.database, w, error.None?);
    }

    /** Handle one row as its verdict says. */
    method HandleRow(d: nat, verdict: Verdict)
      requires store.Valid() && (verdict.SelfSwitched? ==> verdict.switch.deployment == d)
      modifies this, store
      ensures store.Valid() && RowsApart(old(store.database), store.database, d)
      ensures Handled(old(store.database), store.database, d, verdict, old(activeCount) < cap)
      ensures activeCount == old(activeCount) + if verdict == RestartPipeline(Resumes) && old(activeCount) < cap then 1 else 0
    {
      hide Inv, RowsApart, SameRow, MayEnd, EndedWith, Switched;
      NothingTouched(store.database, d);
      match verdict {
        case Observed(terminal) => Terminalize(d, terminal);
        case SelfSwitched(switch) => PersistReconciledSelfSwitch(switch);
        case LeftForPoll =>
        case AlreadyTerminal => Retract(d);
        case RestartPipeline(resumption) =>
          if !AtCapacity() {
            match resumption
            case Resumes => activeCount := activeCount + 1;
            case Refuses => Retract(d);
            case Fails =>
          }
      }
    }

    /** Handle every persisted row once. */
    method ReconcilePersistedJobs(rows: seq<nat>, verdicts: map<nat, Verdict>)
      requires store.Valid()
      requires forall i, j :: 0 <= i < j < |rows| ==> rows[i] != rows[j]
      requires forall i :: 0 <= i < |rows| ==> rows[i] in verdicts
      requires forall d :: d in verdicts && verdicts[d].SelfSwitched? ==> verdicts[d].switch.deployment == d
      modifies this, store
      ensures store.Valid()
      ensures activeCount == ActiveAfter(old(activeCount), cap, ResumesAmong(rows, verdicts, |rows|))
      ensures forall d :: d !in rows ==> SameRow(old(store.database), store.database, d)
      ensures forall i :: 0 <= i < |rows| ==>
                Handled(old(store.database), store.database, rows[i], verdicts[rows[i]],
                        old(activeCount) + ResumesAmong(rows, verdicts, i) < cap)
    {
      hide Inv, Handled, SameRow, RowsApart, AllHandled, Grows;
      ghost var before := store.database;
      NoneHandled(before, rows, verdicts, activeCount, cap);
      var i := 0;
      while i < |rows|
        invariant 0 <= i <= |rows| && store.Valid()
        invariant activeCount == ActiveAfter(old(activeCount), cap, ResumesAmong(rows, verdicts, i))
        invariant AllHandled(before, store.database, rows, verdicts, i, old(activeCount), cap)
      {
        ghost var here := store.database;
        HandleRow(rows[i], verdicts[rows[i]]);
        NextHandled(before, here, store.database, rows, verdicts, i, old(activeCount), cap);
        i := i + 1;
      }
      LastHandled(before, store.database, rows, verdicts, old(activeCount), cap);
    }

    method Retract(d: nat)
      requires store.Valid()
      modifies store
      ensures store.Valid() && RowsApart(old(store.database), store.database, d)
      ensures RowTaken(old(store.database), store.database, d)
    {
      hide Inv;
      ghost var before := store.database;
      StepKeeps(store.database, RetractStep(d));
      store.RetractDeployJob(d);
      OthersUnwritten(before, store.database, d);
    }
  }

  /** The row is gone, and nothing else of the deployment has changed. */
  ghost predicate RowTaken(s: State, s': State, d: nat) {
    && d !in s'.jobs && SameKey(s.records, s'.records, d)
    && forall key: IntentKey :: key.deployment == d ==> SameKey(s.intents, s'.intents, key)
  }

  /**
    What became of a row whose verdict was carried out, with or without room for
    one more pipeline. An observed outcome ends the deployment with that
    outcome, unless it cannot be ended or the positions ran out. A stale row
    goes, a refused resumption goes exactly when there was room to try it, and
    any other row stays as it was.
  */
  ghost predicate Handled(s: State, s': State, d: nat, verdict: Verdict, room: bool) {
    match verdict
    case Observed(terminal) =>
      && (!MayEnd(s, d) ==> SameRow(s, s', d))
      && (MayEnd(s, d) && !Spent(s'.allocation.nextPosition) ==> EndedWith(s, s', d, terminal))
      && (SameRow(s, s', d) || EndedWith(s, s', d, terminal))
    case SelfSwitched(switch) => switch.deployment == d && Switched(s, s', switch)
    case LeftForPoll => SameRow(s, s', d)
    case AlreadyTerminal => RowTaken(s, s', d)
    case RestartPipeline(resumption) =>
      if resumption == Refuses && room then RowTaken(s, s', d) else SameRow(s, s', d)
  }

  /** The row at `k` is handled, with room if the pipelines before it leave some. */
  ghost predicate HandledAt(s: State, s': State, rows: seq<nat>, verdicts: map<nat, Verdict>, k: nat,
                            active: nat, cap: nat)
    requires k < |rows| && forall i :: 0 <= i < |rows| ==> rows[i] in verdicts
  {
    Handled(s, s', rows[k], verdicts[rows[k]], active + ResumesAmong(rows, verdicts, k) < cap)
  }

  /** Of the first `done` rows each is handled, and every other deployment is as it was. */
  ghost predicate AllHandled(s: State, s': State, rows: seq<nat>, verdicts: map<nat, Verdict>, done: nat,
                             active: nat, cap: nat)
    requires done <= |rows| && forall i :: 0 <= i < |rows| ==> rows[i] in verdicts
  {
    && (forall d :: d !in rows[..done] ==> SameRow(s, s', d)) && Grows(s, s')
    && (forall k :: 0 <= k < done ==> HandledAt(s, s', rows, verdicts, k, active, cap))
  }

  lemma NoneHandled(s: State, rows: seq<nat>, verdicts: map<nat, Verdict>, active: nat, cap: nat)
    requires forall i :: 0 <= i < |rows| ==> rows[i] in verdicts
    ensures AllHandled(s, s, rows, verdicts, 0, active, cap)
  {
  }

  lemma NextHandled(s: State, here: State, s': State, rows: seq<nat>, verdicts: map<nat, Verdict>, i: nat,
                    active: nat, cap: nat)
    requires i < |rows| && forall k :: 0 <= k < |rows| ==> rows[k] in verdicts
    requires forall k, l :: 0 <= k < l < |rows| ==> rows[k] != rows[l]
    requires AllHandled(s, here, rows, verdicts, i, active, cap) && RowsApart(here, s', rows[i])
    requires Handled(here, s', rows[i], verdicts[rows[i]], ActiveAfter(active, cap, ResumesAmong(rows, verdicts, i)) < cap)
    ensures AllHandled(s, s', rows, verdicts, i + 1, active, cap)
  {
    hide Handled, HandledAt, SameRow, RowsApart, ResumesAmong, ActiveAfter;
    var d := rows[i];
    OthersSame(s, here, s', rows[..i], d);
    GrowsTwice(s, here, s', d);
    assert rows[..i + 1] == rows[..i] + [d];
    assert d !in rows[..i];
    HandledHere(s, here, s', rows, verdicts, i, active, cap);
    EarlierHandled(s, here, s', rows, verdicts, i, active, cap);
  }

  lemma HandledHere(s: State, here: State, s': State, rows: seq<nat>, verdicts: map<nat, Verdict>, i: nat,
                    active: nat, cap: nat)
    requires i < |rows| && forall k :: 0 <= k < |rows| ==> rows[k] in verdicts
    requires SameRow(s, here, rows[i]) && Grows(s, here)
    requires Handled(here, s', rows[i], verdicts[rows[i]], ActiveAfter(active, cap, ResumesAmong(rows, verdicts, i)) < cap)
    ensures HandledAt(s, s', rows, verdicts, i, active, cap)
  {
    hide Handled, SameRow, ResumesAmong;
    HandledFrom(s, here, s', rows[i], verdicts[rows[i]], active + ResumesAmong(rows, verdicts, i) < cap);
  }

  lemma OthersSame(s: State, here: State, s': State, done: seq<nat>, d: nat)
    requires RowsApart(here, s', d) && forall other :: other !in done ==> SameRow(s, here, other)
    ensures forall other :: other !in done + [d] ==> SameRow(s, s', other)
  {
    hide SameRow, RowsApart;
    forall other | other !in done + [d] ensures SameRow(s, s', other) {
      RowElsewhere(here, s', d, other);
      SameRowTwice(s, here, s', other);
    }
  }

  lemma EarlierHandled(s: State, here: State, s': State, rows: seq<nat>, verdicts: map<nat, Verdict>, i: nat,
                       active: nat, cap: nat)
    requires i < |rows| && forall k :: 0 <= k < |rows| ==> rows[k] in verdicts
    requires forall k :: 0 <= k < i ==> rows[k] != rows[i]
    requires RowsApart(here, s', rows[i])
    requires forall k :: 0 <= k < i ==> HandledAt(s, here, rows, verdicts, k, active, cap)
    ensures forall k :: 0 <= k < i ==> HandledAt(s, s', rows, verdicts, k, active, cap)
  {
    hide Handled, SameRow, RowsApart, ResumesAmong;
    forall k | 0 <= k < i ensures HandledAt(s, s', rows, verdicts, k, active, cap) {
      assert HandledAt(s, here, rows, verdicts, k, active, cap);
      RowElsewhere(here, s', rows[i], rows[k]);
      HandledStays(s, here, s', rows[k], verdicts[rows[k]], active + ResumesAmong(rows, verdicts, k) < cap);
    }
  }

  lemma LastHandled(s: State, s': State, rows: seq<nat>, verdicts: map<nat, Verdict>, active: nat, cap: nat)
    requires forall i :: 0 <= i < |rows| ==> rows[i] in verdicts
    requires AllHandled(s, s', rows, verdicts, |rows|, active, cap)
    ensures forall d :: d !in rows ==> SameRow(s, s', d)
    ensures forall k :: 0 <= k < |rows| ==>
              Handled(s, s', rows[k], verdicts[rows[k]], active + ResumesAmong(rows, verdicts, k) < cap)
  {
    hide Handled, SameRow, ResumesAmong;
    assert rows[..|rows|] == rows;
    forall k | 0 <= k < |rows|
      ensures Handled(s, s', rows[k], verdicts[rows[k]], active + ResumesAmong(rows, verdicts, k) < cap)
    {
      assert HandledAt(s, s', rows, verdicts, k, active, cap);
    }
  }

  lemma SameRowTwice(s: State, here: State, s': State, d: nat)
    requires SameRow(s, here, d) && SameRow(here, s', d)
    ensures SameRow(s, s', d)
  {
  }

  /** What was done to a row stays done while other rows are handled. */
  lemma HandledStays(s: State, here: State, s': State, d: nat, verdict: Verdict, room: bool)
    requires Handled(s, here, d, verdict, room) && SameRow(here, s', d) && Grows(here, s')
    ensures Handled(s, s', d, verdict, room)
  {
    hide MayEnd;
    if SameRow(s, here, d) { SameRowTwice(s, here, s', d); }
  }

  /** What is done to a row that is as it was is done as from the start. */
  lemma HandledFrom(s: State, here: State, s': State, d: nat, verdict: Verdict, room: bool)
    requires SameRow(s, here, d) && Grows(s, here) && Handled(here, s', d, verdict, room)
    ensures Handled(s, s', d, verdict, room)
  {
    hide MayEnd;
    MayEndAlike(s, here, d);
    if SameRow(here, s', d) { SameRowTwice(s, here, s', d); }
  }

  lemma RefusedActivation(s: State, w: Switch)
    ensures Waiting(s, w) && w.identifier !in s.roots ==> RecordActivation(s, w.identifier, w.generation, w.identifier, w.root).Done?
    ensures RecordActivation(s, w.identifier, w.generation, w.identifier, w.root).Refused? ==>
              RecordActivation(s, w.identifier, w.generation, w.identifier, w.root).state == s
  {
  }

  lemma SwitchReconciled(activated: State, s: State, w: Switch)
    requires FullyTerminal(activated, s, w.deployment, Succeeded) && Apart(activated, s, w.deployment)
    requires GenerationsOf(activated, w.deployment) == {w.identifier}
    requires w.identifier in activated.live && activated.live[w.identifier] == w.generation
    requires w.identifier in activated.roots && activated.roots[w.identifier] == w.root
    ensures Reconciled(s, w)
  {
    hide EarlierPending;
    assert GenerationsOf(s, w.deployment) == GenerationsOf(activated, w.deployment);
  }

  /**
    A row whose resumption would be refused stays when a resumption before it
    takes the last place, and goes at a start that has room.
  */
  method RefusedRowWaits(store: Store, first: nat, second: nat)
    requires store.Valid() && first != second && second in store.database.jobs
    modifies store
    ensures store.Valid() && second !in store.database.jobs
  {
    hide Inv;
    var verdicts := map[first := RestartPipeline(Resumes), second := RestartPipeline(Refuses)];
    var rows := [first, second];
    assert ResumesAmong(rows, verdicts, 0) == 0 && ResumesAmong(rows, verdicts, 1) == 1;
    var full := new DeployJobs(store, 1);
    ghost var before := store.database;
    full.ReconcilePersistedJobs(rows, verdicts);
    assert Handled(before, store.database, rows[1], verdicts[rows[1]], false);
    assert second in store.database.jobs && store.database.jobs[second] == before.jobs[second];
    var roomy := new DeployJobs(store, 2);
    ghost var waiting := store.database;
    roomy.ReconcilePersistedJobs(rows, verdicts);
    assert Handled(waiting, store.database, rows[1], verdicts[rows[1]], true);
  }
}
