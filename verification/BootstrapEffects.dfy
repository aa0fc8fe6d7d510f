/**
  What each durable thing, and what a run remembers, can be changed by: the
  effect of every action, field by field.
*/
module BootstrapEffects {
  import opened Options
  import opened BootstrapModel

  /** The call an action leaves in the record of what was asked and answered. */
  predicate Answers(h: Host, action: Action, call: Call) {
    match action
    case RunTest(passed) => call == TestRun(passed)
    case Build(result) =>
      call.BuildRun? && call.printed == result && Journalled(h) && h.directory.journal.overrides == Some(call.overrides)
    case MakeRoot(succeeded, _) => call.RootMade? && call.succeeded == succeeded && AboutClosure(h, call.closure)
    case AskClosure(present) => call.ClosureAsked? && call.present == present && AboutClosure(h, call.closure)
    case CopyClosure(succeeded, _) => call.ClosureCopied? && call.succeeded == succeeded && AboutClosure(h, call.closure)
    case AskUnit(state) => call == UnitAsked(state)
    case Dispatch(succeeded, _) => call.UnitDispatched? && call.succeeded == succeeded && AboutClosure(h, call.closure)
    case ObserveUnit(state) => call == UnitSeen(state)
    case _ => false
  }

  predicate Journalled(h: Host) {
    h.directory.Holding?
  }

  predicate AboutClosure(h: Host, closure: string) {
    Journalled(h) && h.directory.journal.closure == Some(closure)
  }

  predicate Asks(action: Action) {
    action.RunTest? || action.Build? || action.MakeRoot? || action.AskClosure? || action.CopyClosure?
    || action.AskUnit? || action.Dispatch? || action.ObserveUnit?
  }

  /** The stage whose effect the action reports failed. */
  function FailedBy(action: Action): Option<Stage> {
    match action
    case FailMaterializing => Some(Materialized)
    case RunTest(passed) => if passed then None else Some(Tested)
    case Build(result) => if result.Some? then None else Some(Built)
    case MakeRoot(succeeded, _) => if succeeded then None else Some(GcRooted)
    case CopyClosure(succeeded, _) => if succeeded then None else Some(Copied)
    case ObserveUnit(state) => if state == UnitFailed then Some(BootOnceActivated) else None
    case _ => None
  }

  /** Inputs, links, configuration, temporaries and directory. */
  ghost predicate FilesChange(h: Host, h': Host, action: Action) {
    && h'.inputs == (h.inputs || action.MakeInputs?)
    && h'.staging == (if action.MakeRoot? then action.link else if action.DropStaging? then None else h.staging)
    && h'.root == (if action.LinkRoot? then h.staging else h.root)
    && h'.leftovers == (if action.DieWriting? then h.leftovers + {h.memory.sequence} else h.leftovers)
    && (if action.MakeConfiguration? then h'.configuration == Configuration(action.private, false)
        else if action.CloseConfiguration? then h'.configuration == Configuration(true, false)
        else if action.WriteConfiguration? then h'.configuration == Configuration(true, true)
        else h'.configuration == h.configuration)
    && (if action.MakeDirectory? then h.directory.Absent? && h'.directory.Empty?
        else if action.DropDirectory? then h.directory.Empty? && h'.directory.Absent?
        else if action.Put? then h'.directory.Holding? else h'.directory == h.directory)
  }

  /** The remote, the unit, the evidence and the record of answers. */
  ghost predicate WorldChanges(r: Request, h: Host, h': Host, action: Action) {
    && h.remote <= h'.remote
    && (forall closure :: closure in h'.remote && closure !in h.remote ==>
          action.CopyClosure? && (action.succeeded || action.landed) && AboutClosure(h, closure))
    && (action.CopyClosure? && (action.succeeded || action.landed) ==>
          exists closure :: AboutClosure(h, closure) && closure in h'.remote)
    && (if action.Dispatch? && (action.succeeded || action.landed)
        then h'.service.Loaded? && h'.service.progress == Running && AboutClosure(h, h'.service.closure) && !h.service.Loaded?
        else if action.ServiceMoves?
        then h.service.Loaded? && h.service.progress == Running && h'.service == Loaded(h.service.closure, action.progress)
        else if action.ServiceLost? then h.service.Loaded? && h'.service == Gone(h.service.closure)
        else h'.service == h.service)
    && (if action.LinkEvidence?
        then h.evidence.None? && h'.evidence.Some? && h'.evidence.value.hash == r.hash && Journalled(h)
             && h.directory.journal.terminal == Some(h'.evidence.value.status)
        else h'.evidence == h.evidence)
    && (if Asks(action)
        then |h'.calls| == |h.calls| + 1 && h'.calls[..|h.calls|] == h.calls && Answers(h, action, h'.calls[|h.calls|])
        else h'.calls == h.calls)
  }

  /** What the run under way remembers: nothing once it has died, and otherwise what the action told it. */
  ghost predicate MemoryChanges(h: Host, h': Host, action: Action) {
    var m, m' := h.memory, h'.memory;
    if action.Begin? || action.DieWriting? then
      && m'.rootSeen == h.root.Some? && m'.evidenceSeen == h.evidence.Some? && m'.sequence == 0
      && !m'.madeDirectory && !m'.madeInputs && !m'.savedOverrides && !m'.savedClosure && !m'.savedRoot && !m'.linkedRoot
      && !m'.madeConfiguration && !m'.closedConfiguration && !m'.configured
      && m'.stage.None? && !m'.received && m'.answer.None? && m'.failed.None? && !m'.noted
    else
      && m'.rootSeen == m.rootSeen && m'.evidenceSeen == m.evidenceSeen
      && m'.sequence == (if action.Put? || action.LinkEvidence? then m.sequence + 1 else m.sequence)
      && m'.madeDirectory == (action.MakeDirectory? || (m.madeDirectory && !action.DropDirectory?))
      && m'.madeInputs == (m.madeInputs || action.MakeInputs?)
      && m'.linkedRoot == (m.linkedRoot || action.LinkRoot?)
      && m'.madeConfiguration == (m.madeConfiguration || action.MakeConfiguration?)
      && m'.closedConfiguration == (m.closedConfiguration || action.CloseConfiguration?)
      && m'.configured == (m.configured || action.WriteConfiguration? || action.UseConfiguration?)
      && (if Asks(action) then h'.calls != [] && m'.answer == Some(h'.calls[|h'.calls| - 1]) else m'.answer == m.answer)
      && (FailedBy(action).Some? ==> m'.failed == FailedBy(action))
      && (!Asks(action) && !action.FailMaterializing? ==> m'.failed == m.failed)
  }

  /**
    Every action a run can take changes exactly what it is for: the files, the
    world outside and what the run remembers are otherwise as they were.
  */
  lemma ActionChanges(r: Request, h: Host, action: Action)
    requires Enabled(r, h, action)
    ensures var h' := Apply(r, h, action);
            FilesChange(h, h', action) && WorldChanges(r, h, h', action) && MemoryChanges(h, h', action)
  {
    hide FilesChange, WorldChanges, MemoryChanges, Apply, Guard, Enabled;
    if action.Put? { WriteChanges(r, h, action.write); }
    else if Asks(action) { AskChanges(r, h, action); }
    else { OtherChanges(r, h, action); }
  }

  lemma WriteChanges(r: Request, h: Host, write: Write)
    requires Enabled(r, h, Put(write))
    ensures var h' := Apply(r, h, Put(write));
            FilesChange(h, h', Put(write)) && WorldChanges(r, h, h', Put(write)) && MemoryChanges(h, h', Put(write))
  {
    hide MayRecord, At;
    match write
    case First =>
    case Record(_) =>
    case SaveOverrides(_) =>
    case SaveClosure(_) =>
    case SaveRootReceipt =>
    case SetTerminal(_) =>
  }

  lemma AskChanges(r: Request, h: Host, action: Action)
    requires Enabled(r, h, action) && Asks(action)
    ensures var h' := Apply(r, h, action);
            FilesChange(h, h', action) && WorldChanges(r, h, h', action) && MemoryChanges(h, h', action)
  {
    hide FilesChange, WorldChanges, MemoryChanges, Apply, Guard, Enabled;
    if action.RunTest? { TestChanges(r, h, action); }
    else if action.Build? { BuildChanges(r, h, action); }
    else if action.MakeRoot? { RootChanges(r, h, action); }
    else if action.AskClosure? || action.CopyClosure? { CopyChanges(r, h, action); }
    else { UnitChanges(r, h, action); }
  }

  lemma TestChanges(r: Request, h: Host, action: Action)
    requires Enabled(r, h, action)
    requires action.RunTest?
    ensures var h' := Apply(r, h, action);
            FilesChange(h, h', action) && WorldChanges(r, h, h', action) && MemoryChanges(h, h', action)
  {
    hide Due;
    match action
    case RunTest(_) =>
  }

  lemma BuildChanges(r: Request, h: Host, action: Action)
    requires Enabled(r, h, action)
    requires action.Build?
    ensures var h' := Apply(r, h, action);
            FilesChange(h, h', action) && WorldChanges(r, h, h', action) && MemoryChanges(h, h', action)
  {
    hide Due;
    DueNeeds(r, h);
    match action
    case Build(_) =>
  }

  lemma RootChanges(r: Request, h: Host, action: Action)
    requires Enabled(r, h, action)
    requires action.MakeRoot?
    ensures var h' := Apply(r, h, action);
            FilesChange(h, h', action) && WorldChanges(r, h, h', action) && MemoryChanges(h, h', action)
  {
    hide Due;
    DueNeeds(r, h);
    match action
    case MakeRoot(_, _) =>
  }

  lemma CopyChanges(r: Request, h: Host, action: Action)
    requires Enabled(r, h, action)
    requires action.AskClosure? || action.CopyClosure?
    ensures var h' := Apply(r, h, action);
            FilesChange(h, h', action) && WorldChanges(r, h, h', action) && MemoryChanges(h, h', action)
  {
    hide Due;
    match action
    case AskClosure(_) =>
    case CopyClosure(_, _) =>
  }

  lemma UnitChanges(r: Request, h: Host, action: Action)
    requires Enabled(r, h, action)
    requires action.AskUnit? || action.Dispatch? || action.ObserveUnit?
    ensures var h' := Apply(r, h, action);
            FilesChange(h, h', action) && WorldChanges(r, h, h', action) && MemoryChanges(h, h', action)
  {
    hide Due;
    match action
    case AskUnit(_) =>
    case Dispatch(_, _) =>
    case ObserveUnit(_) =>
  }

  /** A stage that is due has what the ones before it save. */
  lemma DueNeeds(r: Request, h: Host)
    ensures h.directory.Holding? && Due(r, h.directory.journal) == Some(Built) ==> h.directory.journal.overrides.Some?
    ensures h.directory.Holding? && Due(r, h.directory.journal) == Some(GcRooted) ==> h.directory.journal.closure.Some?
  {
  }

  lemma OtherChanges(r: Request, h: Host, action: Action)
    requires Enabled(r, h, action) && !Asks(action) && !action.Put?
    ensures var h' := Apply(r, h, action);
            FilesChange(h, h', action) && WorldChanges(r, h, h', action) && MemoryChanges(h, h', action)
  {
    hide FilesChange, WorldChanges, MemoryChanges, Apply, Guard, Enabled;
    if action.Begin? || action.DieWriting? { DeathChanges(r, h, action); }
    else if action.ServiceMoves? || action.ServiceLost? || action.LinkEvidence? { OutsideChanges(r, h, action); }
    else if action.MakeConfiguration? || action.CloseConfiguration? { ConfigurationChanges(r, h, action); }
    else if action.WriteConfiguration? || action.UseConfiguration? {
      ConfigurationUsed(r, h, action);
    } else if action.MakeDirectory? || action.DropDirectory? {
      DirectoryChanges(r, h, action);
    } else if action.MakeInputs? || action.FailMaterializing? {
      InputChanges(r, h, action);
    } else {
      LinkChanges(r, h, action);
    }
  }

  lemma DeathChanges(r: Request, h: Host, action: Action)
    requires Enabled(r, h, action)
    requires action.Begin? || action.DieWriting?
    ensures var h' := Apply(r, h, action);
            FilesChange(h, h', action) && WorldChanges(r, h, h', action) && MemoryChanges(h, h', action)
  {
    hide MayWrite;
    match action
    case Begin =>
    case DieWriting(_) =>
  }

  lemma OutsideChanges(r: Request, h: Host, action: Action)
    requires Enabled(r, h, action)
    requires action.ServiceMoves? || action.ServiceLost? || action.LinkEvidence?
    ensures var h' := Apply(r, h, action);
            FilesChange(h, h', action) && WorldChanges(r, h, h', action) && MemoryChanges(h, h', action)
  {
    hide Due, Outcomes;
    match action
    case ServiceMoves(_) =>
    case ServiceLost =>
    case LinkEvidence =>
  }

  lemma ConfigurationChanges(r: Request, h: Host, action: Action)
    requires Enabled(r, h, action)
    requires action.MakeConfiguration? || action.CloseConfiguration?
    ensures var h' := Apply(r, h, action);
            FilesChange(h, h', action) && WorldChanges(r, h, h', action) && MemoryChanges(h, h', action)
  {
    hide Due, Outcomes;
    match action
    case MakeConfiguration(_) =>
    case CloseConfiguration =>
  }

  lemma ConfigurationUsed(r: Request, h: Host, action: Action)
    requires Enabled(r, h, action)
    requires action.WriteConfiguration? || action.UseConfiguration?
    ensures var h' := Apply(r, h, action);
            FilesChange(h, h', action) && WorldChanges(r, h, h', action) && MemoryChanges(h, h', action)
  {
    hide Due, Outcomes;
    match action
    case WriteConfiguration =>
    case UseConfiguration =>
  }

  lemma DirectoryChanges(r: Request, h: Host, action: Action)
    requires Enabled(r, h, action)
    requires action.MakeDirectory? || action.DropDirectory?
    ensures var h' := Apply(r, h, action);
            FilesChange(h, h', action) && WorldChanges(r, h, h', action) && MemoryChanges(h, h', action)
  {
    hide Due, Outcomes;
    match action
    case MakeDirectory =>
    case DropDirectory =>
  }

  lemma InputChanges(r: Request, h: Host, action: Action)
    requires Enabled(r, h, action)
    requires action.MakeInputs? || action.FailMaterializing?
    ensures var h' := Apply(r, h, action);
            FilesChange(h, h', action) && WorldChanges(r, h, h', action) && MemoryChanges(h, h', action)
  {
    hide Due, Outcomes;
    match action
    case MakeInputs =>
    case FailMaterializing =>
  }

  lemma LinkChanges(r: Request, h: Host, action: Action)
    requires Enabled(r, h, action)
    requires action.LinkRoot? || action.DropStaging?
    ensures var h' := Apply(r, h, action);
            FilesChange(h, h', action) && WorldChanges(r, h, h', action) && MemoryChanges(h, h', action)
  {
    hide Due, Outcomes;
    match action
    case LinkRoot =>
    case DropStaging =>
  }
}
