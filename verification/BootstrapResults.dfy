/** The main results about bootstrapping: for every request, every sequence of runs and every place a run may die. */
module BootstrapResults {
  import opened Options
  import opened BootstrapModel
  import opened BootstrapSafety

  /** `h` is what some number of interrupted runs of a fresh request left. */
  ghost predicate Reached(r: Request, start: Host, path: seq<Action>, h: Host) {
    Fresh(start) && Allowed(r, start, path) && After(r, start, path) == h
  }

  lemma ReachedSound(r: Request, start: Host, path: seq<Action>, h: Host)
    requires Reached(r, start, path, h)
    ensures Sound(r, h)
  {
    hide Sound, Guard, Apply;
    FreshSound(r, start);
    PathSound(r, start, path);
  }

  lemma {:induction false} PathAppended(r: Request, start: Host, path: seq<Action>, action: Action)
    requires Allowed(r, start, path) && Enabled(r, After(r, start, path), action)
    ensures Allowed(r, start, path + [action])
    ensures After(r, start, path + [action]) == Apply(r, After(r, start, path), action)
    decreases |path|
  {
    hide Guard, Apply;
    if path == [] {
      assert [action][1..] == [];
      assert Allowed(r, Apply(r, start, action), []);
      assert path + [action] == [action];
    } else {
      assert (path + [action])[1..] == path[1..] + [action];
      PathAppended(r, Apply(r, start, path[0]), path[1..], action);
    }
  }

  /** What is reached and goes on is reached. */
  lemma ReachedOn(r: Request, start: Host, path: seq<Action>, h: Host, action: Action)
    requires Reached(r, start, path, h) && Enabled(r, h, action)
    ensures Reached(r, start, path + [action], Apply(r, h, action))
  {
    hide Guard, Apply;
    PathAppended(r, start, path, action);
  }

  // ---- effects -----------------------------------------------------------

  /**
    Once a staged or final root is there, the command that makes it is never
    issued again, whatever crashes and re-runs follow, and a final name is
    linked once.
  */
  lemma RootMadeOnce(r: Request, h: Host, path: seq<Action>)
    requires Allowed(r, h, path)
    ensures h.staging.Some? || h.root.Some? ==>
              forall succeeded, link :: !Enabled(r, After(r, h, path), MakeRoot(succeeded, link))
    ensures h.root.Some? ==> !Enabled(r, After(r, h, path), LinkRoot)
  {
    hide Apply;
    PathKept(r, h, path);
  }

  /**
    A closure that is on the remote is copied again exactly when this run was
    last told, falsely, that it is not there: a query that fails is read so.
  */
  lemma CopiedAgainExactly(r: Request, start: Host, before: seq<Action>, mid: Host, path: seq<Action>, end: Host)
    requires Reached(r, start, before, mid) && Allowed(r, mid, path) && After(r, mid, path) == end
    requires mid.directory.Holding? && mid.directory.journal.closure.Some?
    requires mid.directory.journal.closure.value in mid.remote
    ensures end.directory.Holding? && end.directory.journal.closure == mid.directory.journal.closure
    ensures mid.directory.journal.closure.value in end.remote
    ensures forall succeeded, landed :: Enabled(r, end, CopyClosure(succeeded, landed)) <==>
              end.memory.answer == Some(ClosureAsked(mid.directory.journal.closure.value, false))
  {
    hide Apply, Chained, Bound, CallsAgree, Concluded, Remembered;
    PathKept(r, mid, path);
    ReachedSound(r, start, before, mid);
    PathSound(r, mid, path);
  }

  /**
    A unit that was ever loaded is dispatched again exactly when this run was
    last told that it is not found; while it is loaded that answer was false,
    and the dispatch is refused and changes nothing of the unit.
  */
  lemma DispatchedAgainExactly(r: Request, start: Host, before: seq<Action>, mid: Host, path: seq<Action>, end: Host)
    requires Reached(r, start, before, mid) && Allowed(r, mid, path) && After(r, mid, path) == end
    requires !mid.service.Unloaded?
    ensures !end.service.Unloaded?
    ensures forall succeeded, landed :: Enabled(r, end, Dispatch(succeeded, landed)) <==>
              end.memory.answer == Some(UnitAsked(NotFound)) && (end.service.Loaded? ==> !succeeded && !landed)
    ensures end.service.Loaded? ==>
              forall succeeded, landed :: Enabled(r, end, Dispatch(succeeded, landed)) ==>
                Apply(r, end, Dispatch(succeeded, landed)).service == end.service
  {
    hide Chained, CallsAgree, Concluded, Remembered;
    PathKept(r, mid, path);
    ReachedSound(r, start, before, mid);
    PathSound(r, mid, path);
    LoadedHolds(r, end);
  }

  lemma LoadedHolds(r: Request, h: Host)
    requires Sound(r, h) && !h.service.Unloaded?
    ensures h.directory.Holding?
  {
  }

  /** Every question on the path is answered as things stand. */
  ghost predicate Truthful(r: Request, h: Host, path: seq<Action>)
    decreases |path|
  {
    path == [] || (AnswersTruly(h, path[0]) && Truthful(r, Apply(r, h, path[0]), path[1..]))
  }

  predicate AnswersTruly(h: Host, action: Action) {
    match action
    case AskClosure(present) =>
      h.directory.Holding? ==> present == (SavedClosure(h.directory.journal) in h.remote)
    case AskUnit(state) => state == StateOf(h.service)
    case _ => true
  }

  /** What this run was last told is absent is absent. */
  predicate ToldTruly(h: Host) {
    && (h.memory.answer.Some? && h.memory.answer.value.ClosureAsked? && !h.memory.answer.value.present ==>
          h.memory.answer.value.closure !in h.remote)
    && (h.memory.answer == Some(UnitAsked(NotFound)) ==> !h.service.Loaded?)
  }

  lemma ToldTrulyStep(r: Request, h: Host, action: Action)
    requires Enabled(r, h, action) && ToldTruly(h) && AnswersTruly(h, action)
    ensures ToldTruly(Apply(r, h, action))
  {
    hide At, PastRoot, MayConfigure, EvidenceMatches;
    if action.Put? {
      WriteAnswersNothing(r, h, action.write);
    }
  }

  lemma WriteAnswersNothing(r: Request, h: Host, write: Write)
    ensures var h' := Apply(r, h, Put(write));
            && h'.memory.answer == h.memory.answer && h'.calls == h.calls
            && h'.remote == h.remote && h'.service == h.service
  {
    match h.directory
    case Absent =>
    case Empty =>
    case Holding(_) =>
      match write
      case First =>
      case Record(event) => RecordAnswersNothing(h.memory, event);
      case SaveOverrides(_) =>
      case SaveClosure(_) =>
      case SaveRootReceipt =>
      case SetTerminal(_) =>
  }

  lemma RecordAnswersNothing(m: Memory, event: Event)
    ensures Recorded(m.(sequence := m.sequence + 1), event).answer == m.answer
  {
  }

  /**
    So where queries answer truthfully, each effect is asked for only while it
    is not there: over any crashes and re-runs from a fresh host, no copy is
    issued for a closure on the remote and no dispatch for a loaded unit.
  */
  lemma EffectsAtMostOnce(r: Request, start: Host, path: seq<Action>, end: Host)
    requires Reached(r, start, path, end) && Truthful(r, start, path)
    ensures forall succeeded, landed :: Enabled(r, end, CopyClosure(succeeded, landed)) ==>
              end.directory.Holding? && SavedClosure(end.directory.journal) !in end.remote
    ensures forall succeeded, landed :: Enabled(r, end, Dispatch(succeeded, landed)) ==> !end.service.Loaded?
  {
    hide Apply, Truthful;
    TruthfulTold(r, start, path);
  }

  lemma {:induction false} TruthfulTold(r: Request, h: Host, path: seq<Action>)
    requires Allowed(r, h, path) && Truthful(r, h, path) && ToldTruly(h)
    ensures ToldTruly(After(r, h, path))
    decreases |path|
  {
    hide Guard, Apply, ToldTruly, AnswersTruly;
    if path != [] {
      ToldTrulyStep(r, h, path[0]);
      TruthfulTold(r, Apply(r, h, path[0]), path[1..]);
    }
  }

  function Turn(call: Call): nat {
    match call
    case TestRun(_) => 0
    case BuildRun(_, _) => 1
    case RootMade(_, _) => 2
    case ClosureAsked(_, _) => 3
    case ClosureCopied(_, _) => 3
    case UnitAsked(_) => 4
    case UnitDispatched(_, _) => 4
    case UnitSeen(_) => 5
  }

  ghost predicate InTurn(calls: seq<Call>) {
    forall i, j :: 0 <= i < j < |calls| ==> Turn(calls[i]) <= Turn(calls[j])
  }

  /** A command is issued only where no command of a later stage has been. */
  lemma CallInTurn(r: Request, h: Host, action: Action)
    requires Sound(r, h) && Enabled(r, h, action) && InTurn(h.calls)
    ensures InTurn(Apply(r, h, action).calls)
  {
    hide Chained, Bound, Concluded, Remembered, AnswerHolds;
    var h' := Apply(r, h, action);
    if action.Put? {
      WriteAnswersNothing(r, h, action.write);
    } else if h'.calls != h.calls {
      assert h'.calls[..|h.calls|] == h.calls && |h'.calls| == |h.calls| + 1;
      var call := h'.calls[|h.calls|];
      forall i | 0 <= i < |h.calls| ensures Turn(h.calls[i]) <= Turn(call) {
        assert CallAgrees(r, h.directory.journal, h.calls[i]);
        EarlierTurn(r, h, action, h.calls[i]);
      }
    }
  }

  lemma EarlierTurn(r: Request, h: Host, action: Action, earlier: Call)
    requires Sound(r, h) && Enabled(r, h, action) && h.directory.Holding? && CallAgrees(r, h.directory.journal, earlier)
    requires !action.Put? && |Apply(r, h, action).calls| == |h.calls| + 1
    ensures Turn(earlier) <= Turn(Apply(r, h, action).calls[|h.calls|])
  {
    hide CallsAgree, Concluded, Remembered, AnswerHolds, MayPut, Written;
    match action
    case RunTest(_) =>
    case Build(_) =>
    case MakeRoot(_, _) =>
    case AskClosure(_) => BeforeCopied(r, h, earlier);
    case CopyClosure(_, _) => BeforeCopied(r, h, earlier);
    case AskUnit(_) => BeforeScheduled(r, h, earlier);
    case Dispatch(_, _) => BeforeScheduled(r, h, earlier);
    case ObserveUnit(_) =>
    case LinkEvidence => assert false;
    case _ => assert false;
  }

  lemma BeforeCopied(r: Request, h: Host, earlier: Call)
    requires Sound(r, h) && h.directory.Holding? && CallAgrees(r, h.directory.journal, earlier)
    requires Due(r, h.directory.journal) == Some(Copied)
    ensures Turn(earlier) <= 3
  {
    hide CallsAgree, Concluded, Remembered, AnswerHolds, Bound;
  }

  lemma BeforeScheduled(r: Request, h: Host, earlier: Call)
    requires Sound(r, h) && h.directory.Holding? && CallAgrees(r, h.directory.journal, earlier)
    requires Due(r, h.directory.journal) == Some(BootOnceScheduled)
    ensures Turn(earlier) <= 4
  {
    hide CallsAgree, Concluded, Remembered, AnswerHolds, Bound;
  }

  /**
    Over all runs of a request together, commands and questions go stage by
    stage: tests, builds, the root, copies, dispatches, and then the unit's end. No
    crash or re-run goes back to an earlier stage.
  */
  lemma {:induction false} StagesNeverGoBack(r: Request, start: Host, path: seq<Action>)
    requires Sound(r, start) && InTurn(start.calls) && Allowed(r, start, path)
    ensures InTurn(After(r, start, path).calls)
    decreases |path|
  {
    hide Sound, Guard, Apply, InTurn;
    if path != [] {
      StepSound(r, start, path[0]);
      CallInTurn(r, start, path[0]);
      StagesNeverGoBack(r, Apply(r, start, path[0]), path[1..]);
    }
  }

  lemma EffectsInOrder(r: Request, start: Host, path: seq<Action>, h: Host)
    requires Reached(r, start, path, h)
    ensures InTurn(h.calls)
  {
    hide Sound, Guard, Apply;
    FreshSound(r, start);
    StagesNeverGoBack(r, start, path);
  }

  // ---- what is saved -----------------------------------------------------

  /**
    Overrides once saved are, on every path and for every later run, exactly the
    list the write carried, none for a direct input, and every build there is
    ran with them.
  */
  lemma OverridesSavedForGood(r: Request, start: Host, before: seq<Action>, h: Host, overrides: seq<string>,
                              path: seq<Action>)
    requires Reached(r, start, before, h) && Enabled(r, h, Put(SaveOverrides(overrides)))
    requires Allowed(r, Apply(r, h, Put(SaveOverrides(overrides))), path)
    ensures var end := After(r, Apply(r, h, Put(SaveOverrides(overrides))), path);
            && end.directory.Holding? && end.directory.journal.overrides == Some(overrides)
            && (r.input == Direct ==> overrides == [])
            && forall i :: 0 <= i < |end.calls| && end.calls[i].BuildRun? ==> end.calls[i].overrides == overrides
  {
    hide Sound, Apply, Guard;
    var saved := Apply(r, h, Put(SaveOverrides(overrides)));
    OverridesAreAsWritten(r, h, overrides);
    ReachedOn(r, start, before, h, Put(SaveOverrides(overrides)));
    ReachedSound(r, start, before + [Put(SaveOverrides(overrides))], saved);
    PathKept(r, saved, path);
    PathSound(r, saved, path);
    var end := After(r, saved, path);
    CommandsAreAbout(r, end);
    forall i | 0 <= i < |end.calls| && end.calls[i].BuildRun? ensures end.calls[i].overrides == overrides {
      assert IsAbout(end.directory.journal, end.calls[i]);
    }
  }

  lemma OverridesAreAsWritten(r: Request, h: Host, overrides: seq<string>)
    requires Enabled(r, h, Put(SaveOverrides(overrides)))
    ensures var saved := Apply(r, h, Put(SaveOverrides(overrides)));
            saved.directory.Holding? && saved.directory.journal.overrides == Some(overrides)
  {
  }

  /** Over all runs, every build was with the saved overrides and every later command about the saved closure. */
  lemma CommandsAgree(r: Request, start: Host, path: seq<Action>, h: Host)
    requires Reached(r, start, path, h)
    ensures h.calls != [] ==> h.directory.Holding?
    ensures h.directory.Holding? ==> forall i :: 0 <= i < |h.calls| ==> IsAbout(h.directory.journal, h.calls[i])
  {
    hide Sound, Apply, Guard;
    ReachedSound(r, start, path, h);
    CommandsAreAbout(r, h);
  }

  predicate IsAbout(j: Journal, call: Call) {
    match call
    case BuildRun(overrides, _) => j.overrides == Some(overrides)
    case RootMade(closure, _) => j.closure == Some(closure)
    case ClosureAsked(closure, _) => j.closure == Some(closure)
    case ClosureCopied(closure, _) => j.closure == Some(closure)
    case UnitDispatched(closure, _) => j.closure == Some(closure)
    case _ => true
  }

  lemma CommandsAreAbout(r: Request, h: Host)
    requires Sound(r, h)
    ensures h.calls != [] ==> h.directory.Holding?
    ensures h.directory.Holding? ==> forall i :: 0 <= i < |h.calls| ==> IsAbout(h.directory.journal, h.calls[i])
    ensures h.directory.Holding? && r.input == Direct && h.directory.journal.overrides.Some? ==>
              h.directory.journal.overrides == Some([])
  {
    hide Bound, Concluded, Remembered, AnswerHolds;
    if h.directory.Holding? {
      forall i | 0 <= i < |h.calls| ensures IsAbout(h.directory.journal, h.calls[i]) {
        assert CallAgrees(r, h.directory.journal, h.calls[i]);
      }
    }
  }

  // ---- what a terminal means ---------------------------------------------

  /** Each stage reached rests on every stage before it. */
  lemma ProgressChain(r: Request, start: Host, path: seq<Action>, h: Host)
    requires Reached(r, start, path, h) && h.directory.Holding?
    ensures var j := h.directory.journal;
            && (StageSucceeded(j, BootOnceActivated) ==> StageSucceeded(j, BootOnceScheduled))
            && (StageSucceeded(j, BootOnceScheduled) ==>
                  !h.service.Unloaded? && j.closure == Some(h.service.closure)
                  && (RemoteMode(r) ==> StageSucceeded(j, Copied)))
            && (StageSucceeded(j, Copied) || StageSucceeded(j, BootOnceScheduled) ==> StageSucceeded(j, GcRooted))
            && (StageSucceeded(j, Copied) ==> RemoteMode(r) && j.closure.Some? && j.closure.value in h.remote)
            && (StageSucceeded(j, GcRooted) ==> j.closure.Some? && h.root == j.closure && h.staging.None?)
            && (j.closure.Some? ==>
                  j.overrides.Some? && BuildRun(j.overrides.value, j.closure) in h.calls && TestsPassed(r, j))
            && (StageSucceeded(j, Tested) ==> TestRun(true) in h.calls && j.overrides.Some?)
  {
    hide Guard, Apply, CallsAgree, Concluded, Remembered;
    ReachedSound(r, start, path, h);
  }

  /** What `Succeeded` is worth: the root binds what was built, and a boot-once unit for it was seen ready. */
  lemma SucceededMeans(r: Request, start: Host, path: seq<Action>, h: Host)
    requires Reached(r, start, path, h) && h.directory.Holding? && h.directory.journal.terminal == Some(Succeeded)
    ensures var j := h.directory.journal;
            && j.overrides.Some? && j.closure.Some? && h.root == j.closure && BuildRun(j.overrides.value, j.closure) in h.calls
            && (TestPlanned(r) ==> TestRun(true) in h.calls)
            && (r.mode.BootOnce? ==> !h.service.Unloaded? && h.service.closure == j.closure.value && UnitSeen(Ready) in h.calls)
            && (RemoteMode(r) ==> j.closure.value in h.remote)
  {
    hide Guard, Apply, CallsAgree, Remembered;
    ReachedSound(r, start, path, h);
  }

  /** A build-only request never copies, dispatches or asks after a unit. */
  lemma BuildOnlyNeverActivates(r: Request, start: Host, path: seq<Action>, h: Host)
    requires Reached(r, start, path, h) && r.mode.BuildOnly?
    ensures h.service.Unloaded?
    ensures forall i :: 0 <= i < |h.calls| ==> Turn(h.calls[i]) <= 2
  {
    hide Guard, Apply, Chained, Concluded, Remembered;
    ReachedSound(r, start, path, h);
    if h.directory.Holding? {
      assert forall i :: 0 <= i < |h.calls| ==> CallAgrees(r, h.directory.journal, h.calls[i]);
    }
  }

  // ---- terminals and evidence --------------------------------------------

  /** After a terminal nothing more is done, and neither it nor the evidence of it changes. */
  lemma TerminalIsFinal(r: Request, start: Host, before: seq<Action>, mid: Host, path: seq<Action>, end: Host)
    requires Reached(r, start, before, mid) && Allowed(r, mid, path) && After(r, mid, path) == end
    requires mid.directory.Holding? && mid.directory.journal.terminal.Some?
    ensures end.directory.Holding? && end.directory.journal.terminal == mid.directory.journal.terminal
    ensures end.calls == mid.calls && end.root == mid.root
    ensures mid.evidence.Some? ==> end.evidence == mid.evidence && !Enabled(r, end, LinkEvidence)
  {
    hide Sound, Apply, Guard;
    PathKept(r, mid, path);
    TerminalKeepsRoot(r, mid, path);
    if mid.evidence.Some? { EvidenceOnce(r, end); }
  }

  lemma EvidenceOnce(r: Request, h: Host)
    requires h.evidence.Some?
    ensures !Enabled(r, h, LinkEvidence)
  {
  }

  lemma {:induction false} TerminalKeepsRoot(r: Request, h: Host, path: seq<Action>)
    requires Allowed(r, h, path) && h.directory.Holding? && h.directory.journal.terminal.Some?
    ensures After(r, h, path).root == h.root
    decreases |path|
  {
    hide Guard, Apply;
    if path != [] {
      TerminalStep(r, h, path[0]);
      TerminalKeepsRoot(r, Apply(r, h, path[0]), path[1..]);
    }
  }

  lemma TerminalStep(r: Request, h: Host, action: Action)
    requires Enabled(r, h, action) && h.directory.Holding? && h.directory.journal.terminal.Some?
    ensures var h' := Apply(r, h, action);
            h'.root == h.root && h'.directory.Holding? && h'.directory.journal.terminal.Some?
  {
  }

  /** Evidence reports the journal's own terminal, and exactly the outcomes of the stages that led to it. */
  lemma EvidenceTellsTheTruth(r: Request, start: Host, path: seq<Action>, h: Host)
    requires Reached(r, start, path, h) && h.directory.Holding? && h.evidence.Some?
    ensures h.directory.journal.terminal == Some(h.evidence.value.status) && h.evidence.value.hash == r.hash
    ensures h.evidence.value.effects == EarlierOutcomes(h.directory.journal.events)
    ensures h.evidence.value.status == Failed ==> HasFailure(h.directory.journal)
  {
    hide Guard, Apply, Chained, Bound, CallsAgree, Remembered;
    ReachedSound(r, start, path, h);
  }

  // ---- links -------------------------------------------------------------

  /** A final root name is never replaced or removed, from whatever host and by whatever runs. */
  lemma RootNeverReplaced(r: Request, h: Host, path: seq<Action>)
    requires Allowed(r, h, path)
    ensures LinksKept(h, After(r, h, path))
  {
    hide Guard, Apply;
    PathKept(r, h, path);
  }
}
