/**
  After a crash, can a later run still succeed? Exactly when the host is not
  stuck in one of the windows listed by `Stuck`.
*/
module BootstrapProgress {
  import opened Options
  import opened BootstrapModel
  import opened BootstrapSafety
  import opened BootstrapResults

  /** Staged and final root both present, or staged but bound to something else. */
  predicate HandoffRefused(h: Host, j: Journal) {
    !StageSucceeded(j, GcRooted) && h.staging.Some? && (h.root.Some? || h.staging != j.closure)
  }

  /** The generated inputs exist and the overrides made from them were not saved. */
  predicate MaterializingInterrupted(r: Request, h: Host, j: Journal) {
    r.input == Horizon && j.overrides.None? && h.inputs
  }

  /** The configuration was created with a mode that is not private and never closed. */
  predicate ConfigurationRefused(r: Request, h: Host) {
    RemoteMode(r) && h.configuration.Configuration? && !h.configuration.private
  }

  /**
    The unit will not be seen ready: it broke, which nothing repairs, or it was
    lost after its dispatch was recorded, so that none follows. A broken unit
    whose dispatch is not recorded stands in the way until its machine loses it.
  */
  predicate UnitUnready(h: Host, j: Journal, loses: bool) {
    && !StageSucceeded(j, BootOnceActivated)
    && (match h.service
        case Unloaded => false
        case Loaded(_, progress) => progress == Broken && (loses ==> StageSucceeded(j, BootOnceScheduled))
        case Gone(_) => StageSucceeded(j, BootOnceScheduled))
  }

  /**
    How many journal writes one run must make, from its start, to conclude the
    longest stage that is left. Rooting takes four: intent, root receipt,
    receipt and outcome; every later stage takes three, and the terminal one.
  */
  function WritesNeeded(r: Request, j: Journal): nat {
    if !StageSucceeded(j, GcRooted) then 4
    else if r.mode.BootOnce? && !StageSucceeded(j, BootOnceActivated) then 3
    else 1
  }

  /**
    A dead run left a temporary under a number each later run will want. Each
    process numbers its temporaries from 0, and an existing one is not replaced.
  */
  ghost predicate NumberTaken(r: Request, h: Host, j: Journal) {
    exists n :: n in h.leftovers && n < WritesNeeded(r, j)
  }

  /**
    The windows a run cannot get out of: an output that was there before the
    first run, a journal directory without its state, a terminal failure,
    generated inputs whose overrides were not saved, a root handoff interrupted
    between linking the final name and dropping the staged one, a configuration
    left open, a unit that broke or was lost, and a journal temporary that was
    not renamed. `loses` is whether the machine of the unit may yet lose it.
  */
  ghost predicate Stuck(r: Request, h: Host, loses: bool) {
    match h.directory
    case Absent => h.root.Some? || h.evidence.Some?
    case Empty => true
    case Holding(j) =>
      || j.terminal == Some(Failed)
      || (j.terminal.None?
          && (MaterializingInterrupted(r, h, j) || HandoffRefused(h, j) || ConfigurationRefused(r, h)
              || UnitUnready(h, j, loses) || NumberTaken(r, h, j)))
  }

  ghost predicate HasSucceeded(h: Host) {
    h.directory.Holding? && h.directory.journal.terminal == Some(Succeeded)
  }

  // ---- stuck hosts stay stuck --------------------------------------------

  /** Some number below what is needed is taken, and this run has not passed it. */
  ghost predicate OutOfNumbers(r: Request, h: Host, j: Journal) {
    exists n :: n in h.leftovers && h.memory.sequence <= n < WritesNeeded(r, j)
  }

  /** Stuck, with a run in progress that will not get out either. */
  ghost predicate Wedged(r: Request, h: Host, loses: bool) {
    match h.directory
    case Absent => h.memory.rootSeen || h.memory.evidenceSeen
    case Empty => !h.memory.madeDirectory || h.memory.rootSeen || h.memory.evidenceSeen
    case Holding(j) =>
      || j.terminal == Some(Failed)
      || (j.terminal.None? && MaterializingInterrupted(r, h, j) && !h.memory.madeInputs)
      || (j.terminal.None? && HandoffRefused(h, j) && !h.memory.linkedRoot)
      || (j.terminal.None? && ConfigurationRefused(r, h) && !h.memory.madeConfiguration && !h.memory.configured)
      || (j.terminal.None? && UnitUnready(h, j, loses) && h.memory.answer != Some(UnitSeen(Ready)))
      || (j.terminal.None? && OutOfNumbers(r, h, j))
  }

  /** On this path no machine loses the unit. */
  predicate Steady(path: seq<Action>) {
    forall i :: 0 <= i < |path| ==> !path[i].ServiceLost?
  }

  ghost predicate SeenStillThere(h: Host) {
    (h.memory.rootSeen ==> h.root.Some?) && (h.memory.evidenceSeen ==> h.evidence.Some?)
  }

  lemma SeenStep(r: Request, h: Host, action: Action)
    requires Sound(r, h) && SeenStillThere(h) && Enabled(r, h, action)
    ensures SeenStillThere(Apply(r, h, action))
  {
    hide Guard, Sound, MayPut;
    StepKept(r, h, action);
    if action.Put? { PutSees(h, action.write); } else if action.Begin? || action.DieWriting? {} else { EffectSees(r, h, action); }
  }

  lemma PutSees(h: Host, write: Write)
    ensures Written(h, write).memory.rootSeen == h.memory.rootSeen
    ensures Written(h, write).memory.evidenceSeen == h.memory.evidenceSeen
  {
    match h.directory
    case Absent =>
    case Empty =>
    case Holding(_) =>
      match write
      case First =>
      case Record(_) =>
      case SaveOverrides(_) =>
      case SaveClosure(_) =>
      case SaveRootReceipt =>
      case SetTerminal(_) =>
  }

  lemma EffectSees(r: Request, h: Host, action: Action)
    requires !action.Put? && !action.Begin? && !action.DieWriting?
    ensures Apply(r, h, action).memory.rootSeen == h.memory.rootSeen
    ensures Apply(r, h, action).memory.evidenceSeen == h.memory.evidenceSeen
  {
    match action
    case MakeDirectory =>
    case DropDirectory =>
    case MakeInputs =>
    case FailMaterializing =>
    case RunTest(_) =>
    case Build(_) =>
    case MakeRoot(_, _) =>
    case LinkRoot =>
    case DropStaging =>
    case MakeConfiguration(_) =>
    case CloseConfiguration =>
    case WriteConfiguration =>
    case UseConfiguration =>
    case AskClosure(_) =>
    case CopyClosure(_, _) =>
    case AskUnit(_) =>
    case Dispatch(_, _) =>
    case ObserveUnit(_) =>
    case ServiceMoves(_) =>
    case ServiceLost =>
    case LinkEvidence =>
  }

  lemma UnreadableWedged(r: Request, loses: bool, h: Host, action: Action)
    requires Sound(r, h) && Wedged(r, h, loses) && SeenStillThere(h) && Enabled(r, h, action) && !h.directory.Holding?
    ensures Wedged(r, Apply(r, h, action), loses)
  {
  }

  lemma TerminalWedged(r: Request, loses: bool, h: Host, action: Action)
    requires Enabled(r, h, action) && h.directory.Holding? && h.directory.journal.terminal == Some(Failed)
    ensures Wedged(r, Apply(r, h, action), loses)
  {
    StepKept(r, h, action);
  }

  lemma InterruptedWedged(r: Request, loses: bool, h: Host, j: Journal, action: Action)
    requires Sound(r, h) && Enabled(r, h, action) && h.directory == Holding(j) && j.terminal.None?
    requires MaterializingInterrupted(r, h, j) && !h.memory.madeInputs
    ensures Wedged(r, Apply(r, h, action), loses)
  {
    hide Sound, OutOfNumbers, HandoffRefused, ConfigurationRefused, UnitUnready;
    if action.Put? {
      InterruptedPut(r, loses, h, j, action.write);
    } else {
      assert Apply(r, h, action).directory == h.directory;
    }
  }

  lemma InterruptedPut(r: Request, loses: bool, h: Host, j: Journal, write: Write)
    requires Enabled(r, h, Put(write)) && h.directory == Holding(j) && j.terminal.None?
    requires MaterializingInterrupted(r, h, j) && !h.memory.madeInputs
    ensures Wedged(r, Apply(r, h, Put(write)), loses)
  {
    hide OutOfNumbers, HandoffRefused, ConfigurationRefused, UnitUnready, MayRecord;
    match write
    case Record(_) =>
    case SaveOverrides(_) =>
    case SaveClosure(_) =>
    case SaveRootReceipt =>
    case SetTerminal(_) =>
  }

  lemma HandoffWedged(r: Request, loses: bool, h: Host, j: Journal, action: Action)
    requires Sound(r, h) && Enabled(r, h, action) && h.directory == Holding(j) && j.terminal.None?
    requires HandoffRefused(h, j) && !h.memory.linkedRoot
    ensures Wedged(r, Apply(r, h, action), loses)
  {
    hide Chained, CallsAgree, Concluded, Remembered, AnswerHolds, OutOfNumbers, MaterializingInterrupted, ConfigurationRefused, UnitUnready;
    if action.Put? {
      HandoffPut(r, loses, h, j, action.write);
    } else {
      assert Apply(r, h, action).directory == h.directory;
    }
  }

  lemma HandoffPut(r: Request, loses: bool, h: Host, j: Journal, write: Write)
    requires Bound(r, h, j) && Enabled(r, h, Put(write)) && h.directory == Holding(j) && j.terminal.None?
    requires HandoffRefused(h, j) && !h.memory.linkedRoot
    ensures Wedged(r, Apply(r, h, Put(write)), loses)
  {
    hide OutOfNumbers, MaterializingInterrupted, ConfigurationRefused, UnitUnready;
    match write
    case Record(event) => Appended(j, event);
    case SaveOverrides(overrides) => SameStages(j, j.(overrides := Some(overrides)));
    case SaveClosure(closure) => SameStages(j, j.(closure := Some(closure)));
    case SaveRootReceipt => SameStages(j, j.(rootReceipt := j.closure));
    case SetTerminal(status) => SameStages(j, j.(terminal := Some(status)));
  }

  lemma ConfigurationWedged(r: Request, loses: bool, h: Host, j: Journal, action: Action)
    requires Sound(r, h) && Enabled(r, h, action) && h.directory == Holding(j) && j.terminal.None?
    requires ConfigurationRefused(r, h) && !h.memory.madeConfiguration && !h.memory.configured
    ensures Wedged(r, Apply(r, h, action), loses)
  {
    hide Chained, Bound, CallsAgree, Concluded, Remembered, AnswerHolds, OutOfNumbers, MaterializingInterrupted, HandoffRefused;
    if action.Put? {
      ConfigurationPut(r, loses, h, j, action.write);
    } else {
      assert Apply(r, h, action).directory == h.directory;
    }
  }

  lemma ConfigurationPut(r: Request, loses: bool, h: Host, j: Journal, write: Write)
    requires Enabled(r, h, Put(write)) && h.directory == Holding(j) && j.terminal.None?
    requires ConfigurationRefused(r, h) && !h.memory.madeConfiguration && !h.memory.configured
    ensures Wedged(r, Apply(r, h, Put(write)), loses)
  {
    hide OutOfNumbers, MaterializingInterrupted, HandoffRefused, UnitUnready;
    match write
    case Record(_) =>
    case SaveOverrides(_) =>
    case SaveClosure(_) =>
    case SaveRootReceipt =>
    case SetTerminal(_) =>
  }

  lemma UnitWedged(r: Request, loses: bool, h: Host, j: Journal, action: Action)
    requires Sound(r, h) && Enabled(r, h, action) && h.directory == Holding(j) && j.terminal.None?
    requires UnitUnready(h, j, loses) && h.memory.answer != Some(UnitSeen(Ready)) && (action.ServiceLost? ==> loses)
    ensures Wedged(r, Apply(r, h, action), loses)
  {
    hide Chained, CallsAgree, Concluded, Remembered, AnswerHolds, OutOfNumbers, MaterializingInterrupted, HandoffRefused;
    hide ConfigurationRefused, MayPut, MayConfigure;
    if action.Put? {
      UnitPut(r, loses, h, j, action.write);
    } else {
      assert Apply(r, h, action).directory == h.directory;
    }
  }

  lemma UnitPut(r: Request, loses: bool, h: Host, j: Journal, write: Write)
    requires Bound(r, h, j) && Enabled(r, h, Put(write)) && h.directory == Holding(j) && j.terminal.None?
    requires UnitUnready(h, j, loses) && h.memory.answer != Some(UnitSeen(Ready))
    ensures Wedged(r, Apply(r, h, Put(write)), loses)
  {
    hide OutOfNumbers, MaterializingInterrupted, HandoffRefused, ConfigurationRefused;
    match write
    case Record(event) => Appended(j, event);
    case SaveOverrides(overrides) => SameStages(j, j.(overrides := Some(overrides)));
    case SaveClosure(closure) => SameStages(j, j.(closure := Some(closure)));
    case SaveRootReceipt => SameStages(j, j.(rootReceipt := j.closure));
    case SetTerminal(status) => SameStages(j, j.(terminal := Some(status)));
  }

  lemma NumbersWedged(r: Request, loses: bool, h: Host, j: Journal, action: Action)
    requires Sound(r, h) && Enabled(r, h, action) && h.directory == Holding(j) && j.terminal.None?
    requires OutOfNumbers(r, h, j)
    ensures Wedged(r, Apply(r, h, action), loses)
  {
    hide Chained, Bound, CallsAgree, Concluded, AnswerHolds, MaterializingInterrupted, HandoffRefused, ConfigurationRefused;
    var n :| n in h.leftovers && h.memory.sequence <= n < WritesNeeded(r, j);
    var h' := Apply(r, h, action);
    if action.Put? {
      NumbersPut(r, loses, h, j, action.write, n);
    } else {
      assert h'.directory == h.directory;
      assert n in h'.leftovers && h'.memory.sequence <= n < WritesNeeded(r, j);
    }
  }

  lemma NumbersPut(r: Request, loses: bool, h: Host, j: Journal, write: Write, n: nat)
    requires Remembered(r, h, j) && Enabled(r, h, Put(write)) && h.directory == Holding(j) && j.terminal.None?
    requires n in h.leftovers && h.memory.sequence <= n < WritesNeeded(r, j)
    ensures Wedged(r, Apply(r, h, Put(write)), loses)
  {
    hide MaterializingInterrupted, HandoffRefused, ConfigurationRefused, UnitUnready;
    assert h.memory.sequence < n;
    match write
    case Record(event) => NumbersRecord(r, loses, h, j, event, n);
    case SaveOverrides(overrides) => NumbersFact(r, loses, h, j, j.(overrides := Some(overrides)), write, n);
    case SaveClosure(closure) => NumbersFact(r, loses, h, j, j.(closure := Some(closure)), write, n);
    case SaveRootReceipt => NumbersFact(r, loses, h, j, j.(rootReceipt := j.closure), write, n);
    case SetTerminal(_) =>
  }

  lemma NumbersFact(r: Request, loses: bool, h: Host, j: Journal, j': Journal, write: Write, n: nat)
    requires h.directory == Holding(j) && j.terminal.None? && j'.terminal.None? && j'.events == j.events
    requires !write.Record? && !write.SetTerminal? && !write.First? && Written(h, write).directory == Holding(j')
    requires n in h.leftovers && h.memory.sequence < n < WritesNeeded(r, j)
    ensures Wedged(r, Written(h, write), loses)
  {
    hide MaterializingInterrupted, HandoffRefused, ConfigurationRefused, UnitUnready;
    SameStages(j, j');
    var h' := Written(h, write);
    assert h'.memory.sequence == h.memory.sequence + 1;
    assert n in h'.leftovers && h'.memory.sequence <= n < WritesNeeded(r, j');
  }

  lemma NumbersRecord(r: Request, loses: bool, h: Host, j: Journal, event: Event, n: nat)
    requires Remembered(r, h, j) && Enabled(r, h, Put(Record(event))) && h.directory == Holding(j) && j.terminal.None?
    requires n in h.leftovers && h.memory.sequence < n < WritesNeeded(r, j)
    ensures Wedged(r, Apply(r, h, Put(Record(event))), loses)
  {
    hide MaterializingInterrupted, HandoffRefused, ConfigurationRefused, UnitUnready;
    Appended(j, event);
    var h' := Apply(r, h, Put(Record(event)));
    assert n in h'.leftovers && h'.memory.sequence <= n < WritesNeeded(r, h'.directory.journal);
  }

  lemma WedgedStep(r: Request, loses: bool, h: Host, action: Action)
    requires Sound(r, h) && Wedged(r, h, loses) && SeenStillThere(h) && Enabled(r, h, action)
    requires action.ServiceLost? ==> loses
    ensures Wedged(r, Apply(r, h, action), loses)
  {
    hide Sound, Enabled, Apply, MaterializingInterrupted, HandoffRefused, ConfigurationRefused, OutOfNumbers, UnitUnready;
    if !h.directory.Holding? {
      UnreadableWedged(r, loses, h, action);
    } else {
      var j := h.directory.journal;
      if j.terminal.Some? {
        TerminalWedged(r, loses, h, action);
      } else if MaterializingInterrupted(r, h, j) && !h.memory.madeInputs {
        InterruptedWedged(r, loses, h, j, action);
      } else if HandoffRefused(h, j) && !h.memory.linkedRoot {
        HandoffWedged(r, loses, h, j, action);
      } else if OutOfNumbers(r, h, j) {
        NumbersWedged(r, loses, h, j, action);
      } else if UnitUnready(h, j, loses) && h.memory.answer != Some(UnitSeen(Ready)) {
        UnitWedged(r, loses, h, j, action);
      } else {
        ConfigurationWedged(r, loses, h, j, action);
      }
    }
  }

  lemma {:induction false} WedgedForever(r: Request, loses: bool, h: Host, path: seq<Action>)
    requires Sound(r, h) && Wedged(r, h, loses) && SeenStillThere(h) && Allowed(r, h, path)
    requires loses || Steady(path)
    ensures Wedged(r, After(r, h, path), loses)
    decreases |path|
  {
    hide Sound, Guard, Apply, Wedged, SeenStillThere;
    if path != [] {
      WedgedStep(r, loses, h, path[0]);
      SeenStep(r, h, path[0]);
      StepSound(r, h, path[0]);
      WedgedForever(r, loses, Apply(r, h, path[0]), path[1..]);
    }
  }

  // ---- every other host can be brought to success ------------------------

  /**
    The next action of runs whose commands all succeed and whose questions are
    answered truthfully, while a running unit finishes. Each run carries out one stage, so that the next begins
    again with its numbers.
  */
  function Next(r: Request, h: Host): Action {
    match h.directory
    case Absent => MakeDirectory
    case Empty => Put(First)
    case Holding(j) =>
      match h.memory.stage
      case None => NextOutside(r, h, j)
      case Some(stage) =>
        if Due(r, j) != Some(stage) || h.memory.received then NextEvent(h, stage) else NextInside(r, h, j, stage)
  }

  function NextEvent(h: Host, stage: Stage): Action {
    Put(Record(Event(stage, if h.memory.received then Outcome else Receipt, true)))
  }

  /** Between stages: a new run, the configuration, and then the stage that is due. */
  function NextOutside(r: Request, h: Host, j: Journal): Action {
    if h.memory.sequence > 0 then Begin
    else if RemoteMode(r) && StageSucceeded(j, GcRooted) && !h.memory.configured then
      if h.configuration.NoConfiguration? then MakeConfiguration(true)
      else if !h.memory.madeConfiguration then UseConfiguration
      else if h.memory.closedConfiguration then WriteConfiguration
      else CloseConfiguration
    else
      match Due(r, j)
      case None => Put(SetTerminal(Succeeded))
      case Some(stage) => Put(Record(Event(stage, Intent, true)))
  }

  function NextInside(r: Request, h: Host, j: Journal, stage: Stage): Action {
    match stage
    case Materialized => if h.memory.savedOverrides then NextEvent(h, stage) else NextInput(r, h)
    case Tested => if h.memory.answer == Some(TestRun(true)) then NextEvent(h, stage) else RunTest(true)
    case Built => NextBuild(h)
    case GcRooted => NextRoot(h, j)
    case Copied =>
      if h.memory.answer.None? then AskClosure(SavedClosure(j) in h.remote)
      else if h.memory.answer == Some(ClosureAsked(SavedClosure(j), false)) then CopyClosure(true, true)
      else NextEvent(h, stage)
    case BootOnceScheduled =>
      if h.memory.answer.None? then AskUnit(StateOf(h.service))
      else if h.memory.answer == Some(UnitAsked(NotFound)) then Dispatch(true, true)
      else NextEvent(h, stage)
    case BootOnceActivated =>
      if h.memory.answer == Some(UnitSeen(Ready)) then NextEvent(h, stage)
      else if StateOf(h.service) != Ready then ServiceMoves(Finished)
      else ObserveUnit(Ready)
    case _ => NextEvent(h, stage)
  }

  function NextInput(r: Request, h: Host): Action {
    if r.input == Horizon && !h.inputs then MakeInputs else Put(SaveOverrides([]))
  }

  function NextBuild(h: Host): Action {
    if h.memory.answer.Some? && h.memory.answer.value.BuildRun? && h.memory.answer.value.printed.Some?
    then Put(SaveClosure(h.memory.answer.value.printed.value))
    else Build(Some("/nix/store/item"))
  }

  function NextRoot(h: Host, j: Journal): Action {
    if h.root.None? then (if h.staging.None? then MakeRoot(true, j.closure) else LinkRoot)
    else if h.staging.Some? then DropStaging
    else if !h.memory.savedRoot then Put(SaveRootReceipt)
    else NextEvent(h, GcRooted)
  }

  /** How many stages are left. */
  function Rank(r: Request, j: Journal): nat {
    match Due(r, j)
    case None => 1
    case Some(stage) =>
      match stage
      case Materialized => 8
      case Tested => 7
      case Built => 6
      case GcRooted => 5
      case Copied => 4
      case BootOnceScheduled => 3
      case BootOnceActivated => 2
      case _ => 1
  }

  /** How much of a run is left, by its next action; finishing a stage whose fact is saved comes before all else. */
  function InRun(action: Action, finishing: bool): nat {
    match action
    case Begin => 17
    case MakeConfiguration(_) => 16
    case CloseConfiguration => 15
    case WriteConfiguration => 14
    case UseConfiguration => 14
    case Put(write) =>
      (match write
       case Record(event) =>
         if event.kind == Intent then 13
         else if event.kind == Receipt then (if finishing then 19 else 8)
         else (if finishing then 18 else 7)
       case SetTerminal(_) => 13
       case SaveRootReceipt => 9
       case _ => 11)
    case LinkRoot => 11
    case CopyClosure(_, _) => 11
    case Dispatch(_, _) => 11
    case ObserveUnit(_) => 11
    case DropStaging => 10
    case _ => 12
  }

  predicate Finishing(r: Request, h: Host, j: Journal) {
    h.memory.stage.Some? && Due(r, j) != h.memory.stage
  }

  /** A bound on the actions `Next` still has to take. */
  function Remaining(r: Request, h: Host): nat {
    match h.directory
    case Absent => 1000
    case Empty => 999
    case Holding(j) => if j.terminal.Some? then 0 else 20 * Rank(r, j) + InRun(Next(r, h), Finishing(r, h, j))
  }

  /** Nothing durable stands in the way of the run under way. */
  ghost predicate Clear(r: Request, h: Host, j: Journal) {
    && j.terminal.None?
    && (MaterializingInterrupted(r, h, j) ==> h.memory.madeInputs)
    && (!StageSucceeded(j, GcRooted) && h.staging.Some? ==>
          h.staging == j.closure && (h.root.Some? ==> h.memory.linkedRoot))
    && !ConfigurationRefused(r, h)
    && !UnitUnready(h, j, false)
    && !NumberTaken(r, h, j)
  }

  predicate AnswerFits(h: Host, j: Journal, stage: Stage) {
    && (stage == Built && h.memory.answer.Some? && h.memory.answer.value.BuildRun? ==>
          h.memory.answer.value.overrides == SavedOverrides(j))
    && (stage == Copied && h.memory.answer.Some? ==>
          h.memory.answer == Some(ClosureAsked(SavedClosure(j), true))
          || h.memory.answer == Some(ClosureAsked(SavedClosure(j), false))
          || h.memory.answer == Some(ClosureCopied(SavedClosure(j), true)))
    && (stage == BootOnceScheduled && h.memory.answer.Some? ==>
          if h.memory.answer == Some(UnitAsked(NotFound)) then !h.service.Loaded?
          else h.service.Loaded?
               && (h.memory.answer.value.UnitAsked? || h.memory.answer == Some(UnitDispatched(SavedClosure(j), true))))
  }

  /** Between stages; a run that has written nothing has saved and asked nothing. */
  predicate Outside(m: Memory) {
    && m.stage.None? && !m.received
    && (m.sequence == 0 ==> !m.savedOverrides && !m.savedClosure && !m.savedRoot && m.answer.None?)
  }

  /** At a stage, with exactly the writes it has made, or finishing one whose fact is saved. */
  predicate Inside(r: Request, h: Host, j: Journal, stage: Stage) {
    var m := h.memory;
    && m.stage == Some(stage) && m.sequence == WritesMade(m)
    && (if Due(r, j) == Some(stage)
        then AnswerFits(h, j, stage) && (m.received ==> Concludable(r, h, j, stage))
             && (ActivationStage(stage) ==> PastRoot(r, h, j))
        else (stage == Materialized && m.savedOverrides) || (stage == Built && m.savedClosure))
    && (!ActivationStage(stage) ==> !StageSucceeded(j, GcRooted))
  }

  /** A run is under way that nothing has stopped. */
  ghost predicate UnderWay(r: Request, h: Host) {
    match h.directory
    case Absent => !h.memory.rootSeen && !h.memory.evidenceSeen
    case Empty => h.memory.madeDirectory && !h.memory.rootSeen && !h.memory.evidenceSeen
    case Holding(j) =>
      && Clear(r, h, j) && h.memory.failed.None?
      && (match h.memory.stage
          case None => Outside(h.memory) && !MaterializingInterrupted(r, h, j) && !HandoffRefused(h, j)
          case Some(stage) => Inside(r, h, j, stage))
  }

  /** `action` is the next one, can be taken, and leaves less to do. */
  ghost predicate Advances(r: Request, h: Host, action: Action) {
    && Next(r, h) == action && Enabled(r, h, action)
    && Remaining(r, Apply(r, h, action)) < Remaining(r, h)
    && (UnderWay(r, Apply(r, h, action)) || HasSucceeded(Apply(r, h, action)))
  }

  /** The journal is that of a run under way on a sound host. */
  ghost predicate Reading(r: Request, h: Host, j: Journal) {
    Sound(r, h) && UnderWay(r, h) && h.directory == Holding(j)
  }

  lemma DirectoryAdvances(r: Request, h: Host)
    requires Sound(r, h) && UnderWay(r, h) && !h.directory.Holding?
    ensures Advances(r, h, Next(r, h))
  {
  }

  lemma BeginAdvances(r: Request, h: Host, j: Journal)
    requires Reading(r, h, j) && h.memory.stage.None? && h.memory.sequence > 0
    ensures Advances(r, h, Begin)
  {
    hide CallsAgree, Concluded, Chained, AnswerHolds, Bound;
    assert Apply(r, h, Begin) == h.(memory := Forgetting(h));
  }

  /** A run that still has to look at the configuration. */
  ghost predicate Unconfigured(r: Request, h: Host, j: Journal) {
    && Reading(r, h, j) && h.memory.stage.None? && h.memory.sequence == 0
    && RemoteMode(r) && StageSucceeded(j, GcRooted) && !h.memory.configured
  }

  lemma ConfigurationAdvances(r: Request, h: Host, j: Journal)
    requires Unconfigured(r, h, j)
    ensures Advances(r, h, Next(r, h))
  {
    hide Advances, Sound, UnderWay;
    if h.configuration.NoConfiguration? { MakeAdvances(r, h, j); }
    else if !h.memory.madeConfiguration { UseAdvances(r, h, j); }
    else if h.memory.closedConfiguration { WriteAdvances(r, h, j); }
    else { CloseAdvances(r, h, j); }
  }

  lemma MakeAdvances(r: Request, h: Host, j: Journal)
    requires Unconfigured(r, h, j) && h.configuration.NoConfiguration?
    ensures Advances(r, h, MakeConfiguration(true))
  {
    hide CallsAgree, Concluded, AnswerHolds;
  }

  lemma CloseAdvances(r: Request, h: Host, j: Journal)
    requires Unconfigured(r, h, j) && h.configuration.Configuration? && h.memory.madeConfiguration && !h.memory.closedConfiguration
    ensures Advances(r, h, CloseConfiguration)
  {
    hide CallsAgree, Concluded, AnswerHolds;
  }

  lemma WriteAdvances(r: Request, h: Host, j: Journal)
    requires Unconfigured(r, h, j) && h.configuration.Configuration? && h.memory.closedConfiguration && h.memory.madeConfiguration
    ensures Advances(r, h, WriteConfiguration)
  {
    hide CallsAgree, Concluded, AnswerHolds;
  }

  lemma UseAdvances(r: Request, h: Host, j: Journal)
    requires Unconfigured(r, h, j) && h.configuration.Configuration? && !h.memory.madeConfiguration
    ensures Advances(r, h, UseConfiguration)
  {
    hide CallsAgree, Concluded, AnswerHolds;
  }

  lemma NumbersFree(r: Request, h: Host, j: Journal)
    requires !NumberTaken(r, h, j)
    ensures forall n :: n in h.leftovers ==> n >= WritesNeeded(r, j)
  {
  }

  lemma IntentAdvances(r: Request, h: Host, j: Journal, stage: Stage)
    requires Reading(r, h, j) && h.memory.stage.None? && h.memory.sequence == 0 && Due(r, j) == Some(stage)
    requires RemoteMode(r) && StageSucceeded(j, GcRooted) ==> h.memory.configured
    ensures Advances(r, h, Put(Record(Event(stage, Intent, true))))
  {
    hide Sound, UnderWay, Due, Rank, Clear;
    var event := Event(stage, Intent, true);
    var j' := j.(events := j.events + [event]);
    DueStays(r, j, stage);
    IntentEnabled(r, h, j, stage);
    RecordForm(r, h, event);
    IntentUnderWay(r, h, j, stage);
    assert Rank(r, j') == Rank(r, j) by { RankIsDue(r, j, j'); }
  }

  lemma DueStays(r: Request, j: Journal, stage: Stage)
    requires Due(r, j) == Some(stage)
    ensures Due(r, j.(events := j.events + [Event(stage, Intent, true)])) == Some(stage)
    ensures stage != TerminalEvidenceWritten && stage != JournalCreated
  {
    Appended(j, Event(stage, Intent, true));
  }

  lemma RankIsDue(r: Request, j: Journal, j': Journal)
    requires Due(r, j) == Due(r, j')
    ensures Rank(r, j) == Rank(r, j')
  {
  }

  lemma IntentEnabled(r: Request, h: Host, j: Journal, stage: Stage)
    requires Reading(r, h, j) && h.memory.stage.None? && h.memory.sequence == 0 && Due(r, j) == Some(stage)
    requires RemoteMode(r) && StageSucceeded(j, GcRooted) ==> h.memory.configured
    requires stage != TerminalEvidenceWritten
    ensures Enabled(r, h, Put(Record(Event(stage, Intent, true)))) && MayRecord(r, h, j, Event(stage, Intent, true))
  {
    hide CallsAgree, Concluded, AnswerHolds, Remembered, Bound;
    NumbersFree(r, h, j);
    assert MayRecord(r, h, j, Event(stage, Intent, true));
  }

  lemma IntentUnderWay(r: Request, h: Host, j: Journal, stage: Stage)
    requires Reading(r, h, j) && h.memory.stage.None? && h.memory.sequence == 0 && Due(r, j) == Some(stage)
    requires Enabled(r, h, Put(Record(Event(stage, Intent, true)))) && MayRecord(r, h, j, Event(stage, Intent, true))
    ensures UnderWay(r, Apply(r, h, Put(Record(Event(stage, Intent, true)))))
  {
    hide CallsAgree, Concluded, AnswerHolds, Remembered, Apply, Guard, Bound;
    NumbersFree(r, h, j);
    Appended(j, Event(stage, Intent, true));
    RecordForm(r, h, Event(stage, Intent, true));
    DueStays(r, j, stage);
  }

  lemma TerminalAdvances(r: Request, h: Host, j: Journal)
    requires Reading(r, h, j) && h.memory.stage.None? && h.memory.sequence == 0 && Due(r, j).None?
    requires RemoteMode(r) ==> h.memory.configured
    ensures Advances(r, h, Put(SetTerminal(Succeeded)))
  {
    hide CallsAgree, Concluded, AnswerHolds;
    NumbersFree(r, h, j);
  }

  lemma InRunBounded(action: Action, finishing: bool)
    ensures InRun(action, finishing) <= 19
  {
  }

  /** Any action that leaves fewer stages leaves less to do. */
  lemma FewerStages(r: Request, h: Host, h': Host, j: Journal, j': Journal)
    requires h.directory == Holding(j) && h'.directory == Holding(j') && j.terminal.None? && j'.terminal.None?
    requires Rank(r, j') < Rank(r, j)
    ensures Remaining(r, h') < Remaining(r, h)
  {
    hide Rank, Next, InRun, Finishing;
    InRunBounded(Next(r, h'), Finishing(r, h', j'));
  }

  /** A stage that is concluded is no longer due, and neither is any before it. */
  lemma StageDone(r: Request, j: Journal, stage: Stage)
    requires Due(r, j) == Some(stage) && stage != Materialized && stage != Built
    ensures Rank(r, j.(events := j.events + [Event(stage, Outcome, true)])) < Rank(r, j)
    ensures Due(r, j.(events := j.events + [Event(stage, Outcome, true)])) != Some(stage)
  {
    Appended(j, Event(stage, Outcome, true));
    var j' := j.(events := j.events + [Event(stage, Outcome, true)]);
    assert StageSucceeded(j', stage);
    match stage
    case Tested =>
    case GcRooted =>
    case Copied =>
    case BootOnceScheduled =>
    case BootOnceActivated =>
  }

  /** The stage whose fact this run has just saved. */
  ghost predicate Saving(r: Request, h: Host, j: Journal, stage: Stage) {
    Reading(r, h, j) && h.memory.stage == Some(stage) && Due(r, j) != Some(stage)
  }

  lemma FinishAdvances(r: Request, h: Host, j: Journal, stage: Stage)
    requires Saving(r, h, j, stage)
    ensures Advances(r, h, NextEvent(h, stage))
  {
    if h.memory.received { FinishConcludes(r, h, j, stage); } else { FinishReceives(r, h, j, stage); }
  }

  lemma FinishReceives(r: Request, h: Host, j: Journal, stage: Stage)
    requires Saving(r, h, j, stage) && !h.memory.received
    ensures Advances(r, h, Put(Record(Event(stage, Receipt, true))))
  {
    hide CallsAgree, Concluded, AnswerHolds;
    NumbersFree(r, h, j);
    Appended(j, Event(stage, Receipt, true));
    assert h.memory.sequence == WritesMade(h.memory) < WritesNeeded(r, j);
    assert MayRecord(r, h, j, Event(stage, Receipt, true));
  }

  lemma FinishConcludes(r: Request, h: Host, j: Journal, stage: Stage)
    requires Saving(r, h, j, stage) && h.memory.received
    ensures Advances(r, h, Put(Record(Event(stage, Outcome, true))))
  {
    hide CallsAgree, Concluded, AnswerHolds;
    NumbersFree(r, h, j);
    Appended(j, Event(stage, Outcome, true));
    assert h.memory.sequence == WritesMade(h.memory) < WritesNeeded(r, j);
    assert MayRecord(r, h, j, Event(stage, Outcome, true));
  }

  lemma ReceiveAdvances(r: Request, h: Host, j: Journal, stage: Stage)
    requires Reading(r, h, j) && h.memory.stage == Some(stage) && Due(r, j) == Some(stage)
    requires !h.memory.received && Concludable(r, h, j, stage) && NextInside(r, h, j, stage) == NextEvent(h, stage)
    ensures Advances(r, h, Put(Record(Event(stage, Receipt, true))))
  {
    hide Sound, UnderWay, Due, Rank, Clear, Concludable, NextInside;
    var event := Event(stage, Receipt, true);
    var j' := j.(events := j.events + [event]);
    ReceiveEnabled(r, h, j, stage);
    RecordForm(r, h, event);
    ReceiveUnderWay(r, h, j, stage);
    assert Rank(r, j') == Rank(r, j) by { RankIsDue(r, j, j'); }
  }

  lemma ReceiveEnabled(r: Request, h: Host, j: Journal, stage: Stage)
    requires Reading(r, h, j) && h.memory.stage == Some(stage) && Due(r, j) == Some(stage)
    requires !h.memory.received && Concludable(r, h, j, stage)
    ensures Enabled(r, h, Put(Record(Event(stage, Receipt, true))))
    ensures stage != TerminalEvidenceWritten && stage != JournalCreated
  {
    hide CallsAgree, Concluded, AnswerHolds;
    NumbersFree(r, h, j);
    assert h.memory.sequence == WritesMade(h.memory) < WritesNeeded(r, j);
    assert MayRecord(r, h, j, Event(stage, Receipt, true));
  }

  lemma ReceiveUnderWay(r: Request, h: Host, j: Journal, stage: Stage)
    requires Reading(r, h, j) && h.memory.stage == Some(stage) && Due(r, j) == Some(stage)
    requires !h.memory.received && Concludable(r, h, j, stage)
    requires Enabled(r, h, Put(Record(Event(stage, Receipt, true))))
    ensures UnderWay(r, Apply(r, h, Put(Record(Event(stage, Receipt, true)))))
    ensures Due(r, j.(events := j.events + [Event(stage, Receipt, true)])) == Some(stage)
  {
    hide CallsAgree, Concluded, AnswerHolds, Bound, Apply, Guard, Enabled;
    NumbersFree(r, h, j);
    RecordForm(r, h, Event(stage, Receipt, true));
    Appended(j, Event(stage, Receipt, true));
    var h' := Apply(r, h, Put(Record(Event(stage, Receipt, true))));
    var j' := j.(events := j.events + [Event(stage, Receipt, true)]);
    assert h'.directory == Holding(j') && Due(r, j') == Some(stage);
  }

  lemma ConcludeAdvances(r: Request, h: Host, j: Journal, stage: Stage)
    requires Reading(r, h, j) && h.memory.stage == Some(stage) && Due(r, j) == Some(stage) && h.memory.received
    ensures Advances(r, h, Put(Record(Event(stage, Outcome, true))))
  {
    hide Rank, InRun, Sound;
    var event := Event(stage, Outcome, true);
    var j' := j.(events := j.events + [event]);
    ConcludeEnabled(r, h, j, stage);
    var h' := Apply(r, h, Put(Record(event)));
    assert h'.directory == Holding(j');
    StageDone(r, j, stage);
    FewerStages(r, h, h', j, j');
    ConcludeUnderWay(r, h, j, stage);
  }

  lemma ConcludeEnabled(r: Request, h: Host, j: Journal, stage: Stage)
    requires Reading(r, h, j) && h.memory.stage == Some(stage) && Due(r, j) == Some(stage) && h.memory.received
    ensures Enabled(r, h, Put(Record(Event(stage, Outcome, true)))) && stage != Materialized && stage != Built
    ensures stage != TerminalEvidenceWritten && stage != JournalCreated
  {
    hide CallsAgree, Concluded, AnswerHolds;
    NumbersFree(r, h, j);
    assert h.memory.sequence == WritesMade(h.memory) < WritesNeeded(r, j);
    assert MayRecord(r, h, j, Event(stage, Outcome, true));
  }

  lemma ConcludeUnderWay(r: Request, h: Host, j: Journal, stage: Stage)
    requires Reading(r, h, j) && h.memory.stage == Some(stage) && Due(r, j) == Some(stage) && h.memory.received
    requires stage != TerminalEvidenceWritten && stage != JournalCreated
    ensures UnderWay(r, Apply(r, h, Put(Record(Event(stage, Outcome, true)))))
  {
    hide CallsAgree, Concluded, AnswerHolds;
    NumbersFree(r, h, j);
    Appended(j, Event(stage, Outcome, true));
  }

  // ---- inside a stage ----------------------------------------------------

  ghost predicate Inner(r: Request, h: Host, j: Journal, stage: Stage) {
    Reading(r, h, j) && h.memory.stage == Some(stage) && Due(r, j) == Some(stage) && !h.memory.received
  }

  lemma MaterializedAdvances(r: Request, h: Host, j: Journal)
    requires Inner(r, h, j, Materialized)
    ensures Advances(r, h, Next(r, h))
  {
    hide CallsAgree, Concluded, AnswerHolds;
    NumbersFree(r, h, j);
  }

  lemma TestedAdvances(r: Request, h: Host, j: Journal)
    requires Inner(r, h, j, Tested)
    ensures Advances(r, h, Next(r, h))
  {
    if h.memory.answer == Some(TestRun(true)) {
      ReceiveAdvances(r, h, j, Tested);
    } else {
      hide CallsAgree, Concluded, AnswerHolds;
      assert Advances(r, h, RunTest(true));
    }
  }

  lemma BuiltAdvances(r: Request, h: Host, j: Journal)
    requires Inner(r, h, j, Built)
    ensures Advances(r, h, Next(r, h))
  {
    hide CallsAgree, Concluded, AnswerHolds;
    NumbersFree(r, h, j);
    if NextBuild(h).Build? {
      assert Advances(r, h, Build(Some("/nix/store/item")));
    } else {
      var closure := h.memory.answer.value.printed.value;
      var h' := Apply(r, h, Put(SaveClosure(closure)));
      SameStages(j, j.(closure := Some(closure)));
      assert UnderWay(r, h');
      assert Advances(r, h, Put(SaveClosure(closure)));
    }
  }

  lemma RootedAdvances(r: Request, h: Host, j: Journal)
    requires Inner(r, h, j, GcRooted)
    ensures Advances(r, h, Next(r, h))
  {
    if h.root.Some? && h.staging.None? {
      if h.memory.savedRoot {
        RootBoundBySaved(r, h, j);
        ReceiveAdvances(r, h, j, GcRooted);
      } else {
        RootSaveAdvances(r, h, j);
      }
    } else {
      LinkAdvances(r, h, j);
    }
  }

  lemma RootBoundBySaved(r: Request, h: Host, j: Journal)
    requires Inner(r, h, j, GcRooted) && h.root.Some? && h.staging.None? && h.memory.savedRoot
    ensures Concludable(r, h, j, GcRooted) && NextInside(r, h, j, GcRooted) == NextEvent(h, GcRooted)
  {
    hide CallsAgree, Concluded, AnswerHolds, Chained;
  }

  lemma RootSaveAdvances(r: Request, h: Host, j: Journal)
    requires Inner(r, h, j, GcRooted) && h.root.Some? && h.staging.None? && !h.memory.savedRoot
    ensures Advances(r, h, Put(SaveRootReceipt))
  {
    hide CallsAgree, Concluded, AnswerHolds, Chained;
    NumbersFree(r, h, j);
    SameStages(j, j.(rootReceipt := j.closure));
  }

  lemma LinkAdvances(r: Request, h: Host, j: Journal)
    requires Inner(r, h, j, GcRooted) && (h.root.None? || h.staging.Some?)
    ensures Advances(r, h, Next(r, h))
  {
    hide CallsAgree, Concluded, AnswerHolds, Chained;
    if h.root.None? && h.staging.None? {
      assert Advances(r, h, MakeRoot(true, j.closure));
    } else if h.root.None? {
      assert Advances(r, h, LinkRoot);
    } else {
      assert Advances(r, h, DropStaging);
    }
  }

  lemma CopiedAdvances(r: Request, h: Host, j: Journal)
    requires Inner(r, h, j, Copied)
    ensures Advances(r, h, Next(r, h))
  {
    hide CallsAgree, Concluded, AnswerHolds;
    if h.memory.answer.Some? && h.memory.answer != Some(ClosureAsked(SavedClosure(j), false)) {
      ReceiveAdvances(r, h, j, Copied);
    }
  }

  lemma ScheduledAdvances(r: Request, h: Host, j: Journal)
    requires Inner(r, h, j, BootOnceScheduled)
    ensures Advances(r, h, Next(r, h))
  {
    hide CallsAgree, Concluded, AnswerHolds;
    if h.memory.answer.Some? && h.memory.answer != Some(UnitAsked(NotFound)) {
      ReceiveAdvances(r, h, j, BootOnceScheduled);
    }
  }

  lemma ActivatedAdvances(r: Request, h: Host, j: Journal)
    requires Inner(r, h, j, BootOnceActivated)
    ensures Advances(r, h, Next(r, h))
  {
    if h.memory.answer == Some(UnitSeen(Ready)) {
      ReceiveAdvances(r, h, j, BootOnceActivated);
    } else {
      UnitAdvances(r, h, j);
    }
  }

  lemma UnitAdvances(r: Request, h: Host, j: Journal)
    requires Inner(r, h, j, BootOnceActivated) && h.memory.answer != Some(UnitSeen(Ready))
    ensures Advances(r, h, Next(r, h))
  {
    UnitIsLoaded(r, h, j);
    if StateOf(h.service) != Ready { FinishingAdvances(r, h, j); } else { SeeingAdvances(r, h, j); }
  }

  lemma UnitIsLoaded(r: Request, h: Host, j: Journal)
    requires Inner(r, h, j, BootOnceActivated)
    ensures h.service.Loaded? && h.service.progress != Broken
  {
    hide CallsAgree, Concluded, AnswerHolds, Remembered, Bound;
  }

  lemma FinishingAdvances(r: Request, h: Host, j: Journal)
    requires Inner(r, h, j, BootOnceActivated) && h.memory.answer != Some(UnitSeen(Ready))
    requires h.service.Loaded? && h.service.progress == Running
    ensures Advances(r, h, ServiceMoves(Finished))
  {
    hide Sound;
  }

  lemma SeeingAdvances(r: Request, h: Host, j: Journal)
    requires Inner(r, h, j, BootOnceActivated) && h.memory.answer != Some(UnitSeen(Ready)) && StateOf(h.service) == Ready
    ensures Advances(r, h, ObserveUnit(Ready))
  {
    hide Sound;
  }

  // ---- the main result ---------------------------------------------------

  lemma NextAdvances(r: Request, h: Host)
    requires Sound(r, h) && UnderWay(r, h)
    ensures Advances(r, h, Next(r, h))
  {
    if !h.directory.Holding? {
      DirectoryAdvances(r, h);
    } else {
      var j := h.directory.journal;
      if h.memory.stage.None? { OutsideAdvances(r, h, j); } else { InsideAdvances(r, h, j, h.memory.stage.value); }
    }
  }

  lemma OutsideAdvances(r: Request, h: Host, j: Journal)
    requires Reading(r, h, j) && h.memory.stage.None?
    ensures Advances(r, h, Next(r, h))
  {
    hide Advances, Sound, UnderWay;
    if h.memory.sequence > 0 {
      BeginAdvances(r, h, j);
    } else if RemoteMode(r) && StageSucceeded(j, GcRooted) && !h.memory.configured {
      ConfigurationAdvances(r, h, j);
    } else {
      match Due(r, j)
      case None => DoneIsRooted(r, j); TerminalAdvances(r, h, j);
      case Some(stage) => IntentAdvances(r, h, j, stage);
    }
  }

  lemma DoneIsRooted(r: Request, j: Journal)
    requires Due(r, j).None?
    ensures StageSucceeded(j, GcRooted)
  {
  }

  lemma InsideAdvances(r: Request, h: Host, j: Journal, stage: Stage)
    requires Reading(r, h, j) && h.memory.stage == Some(stage)
    ensures Advances(r, h, Next(r, h))
  {
    hide Advances, Sound, UnderWay, NextInside;
    if Due(r, j) != Some(stage) {
      FinishAdvances(r, h, j, stage);
    } else if h.memory.received {
      ConcludeAdvances(r, h, j, stage);
    } else {
      match stage
      case Materialized => MaterializedAdvances(r, h, j);
      case Tested => TestedAdvances(r, h, j);
      case Built => BuiltAdvances(r, h, j);
      case GcRooted => RootedAdvances(r, h, j);
      case Copied => CopiedAdvances(r, h, j);
      case BootOnceScheduled => ScheduledAdvances(r, h, j);
      case BootOnceActivated => ActivatedAdvances(r, h, j);
    }
  }

  lemma NextIsSteady(r: Request, h: Host)
    ensures !Next(r, h).ServiceLost?
  {
  }

  /** From every host a run is under way on, runs whose commands succeed reach success in finitely many actions. */
  lemma {:induction false} Finishes(r: Request, h: Host) returns (path: seq<Action>)
    requires Sound(r, h) && (UnderWay(r, h) || HasSucceeded(h))
    ensures Allowed(r, h, path) && Steady(path) && HasSucceeded(After(r, h, path))
    decreases Remaining(r, h)
  {
    hide Sound, Guard, Apply, UnderWay, Next, Remaining;
    if HasSucceeded(h) {
      path := [];
    } else {
      NextAdvances(r, h);
      NextIsSteady(r, h);
      StepSound(r, h, Next(r, h));
      var rest := Finishes(r, Apply(r, h, Next(r, h)));
      path := [Next(r, h)] + rest;
      assert path[1..] == rest;
    }
  }

  /** A new run, interrupted any number of times, that ends in success, with the unit lost on the way only if it may be. */
  ghost predicate Rescues(r: Request, h: Host, path: seq<Action>, loses: bool) {
    Allowed(r, Apply(r, h, Begin), path) && (loses || Steady(path)) && HasSucceeded(After(r, Apply(r, h, Begin), path))
  }

  /** No later run succeeds, however its commands end and its questions are answered. */
  ghost predicate Hopeless(r: Request, h: Host, loses: bool) {
    forall path :: !Rescues(r, h, path, loses)
  }

  /**
    A crashed request can still succeed if and only if it is not stuck, whether
    its machine may lose the unit or not.
  */
  lemma SucceedsUnlessStuck(r: Request, start: Host, before: seq<Action>, h: Host, loses: bool)
    requires Reached(r, start, before, h)
    ensures Stuck(r, h, loses) <==> Hopeless(r, h, loses)
  {
    hide Sound, Guard, Stuck, Wedged, UnderWay;
    ReachedSound(r, start, before, h);
    var again := Apply(r, h, Begin);
    BeginEnabled(r, h);
    StepSound(r, h, Begin);
    if Stuck(r, h, loses) {
      BeginWedges(r, h, loses);
      forall path ensures !Rescues(r, h, path, loses) {
        if Allowed(r, again, path) && (loses || Steady(path)) { StaysHopeless(r, loses, again, path); }
      }
    } else {
      var path := Rescue(r, h, loses);
      assert Rescues(r, h, path, loses);
    }
  }

  lemma StaysHopeless(r: Request, loses: bool, h: Host, path: seq<Action>)
    requires Sound(r, h) && Wedged(r, h, loses) && SeenStillThere(h) && Allowed(r, h, path) && (loses || Steady(path))
    ensures !HasSucceeded(After(r, h, path))
  {
    hide Apply, Guard;
    WedgedForever(r, loses, h, path);
  }

  /** From a host that is not stuck: a unit that stands in the way is lost first. */
  lemma Rescue(r: Request, h: Host, loses: bool) returns (path: seq<Action>)
    requires Sound(r, Apply(r, h, Begin)) && !Stuck(r, h, loses)
    ensures Rescues(r, h, path, loses)
  {
    hide Sound, Guard;
    var again := Apply(r, h, Begin);
    if Stuck(r, h, false) {
      LosingFrees(r, h);
      StepSound(r, again, ServiceLost);
      var rest := Finishes(r, Apply(r, again, ServiceLost));
      path := [ServiceLost] + rest;
      assert path[1..] == rest;
    } else {
      BeginGoesOn(r, h);
      path := Finishes(r, again);
    }
  }

  lemma BeginEnabled(r: Request, h: Host)
    ensures Enabled(r, h, Begin)
  {
  }

  lemma BeginWedges(r: Request, h: Host, loses: bool)
    requires Stuck(r, h, loses)
    ensures SeenStillThere(Apply(r, h, Begin)) && Wedged(r, Apply(r, h, Begin), loses)
  {
    if h.directory.Holding? && NumberTaken(r, h, h.directory.journal) {
      var n :| n in h.leftovers && n < WritesNeeded(r, h.directory.journal);
      assert Apply(r, h, Begin).memory.sequence <= n;
    }
  }

  lemma BeginGoesOn(r: Request, h: Host)
    requires !Stuck(r, h, false)
    ensures UnderWay(r, Apply(r, h, Begin)) || HasSucceeded(Apply(r, h, Begin))
  {
    if h.directory.Holding? && h.directory.journal.terminal.Some? {
      assert h.directory.journal.terminal.value == Succeeded || h.directory.journal.terminal.value == Failed;
    }
  }

  /** The one window a loss leads out of: a broken unit whose dispatch is not recorded. */
  lemma LosingFrees(r: Request, h: Host)
    requires Stuck(r, h, false) && !Stuck(r, h, true)
    ensures Enabled(r, Apply(r, h, Begin), ServiceLost)
    ensures UnderWay(r, Apply(r, Apply(r, h, Begin), ServiceLost))
  {
    assert h.directory.Holding? && h.service.Loaded?;
    var lost := Apply(r, Apply(r, h, Begin), ServiceLost);
    assert lost.service.Gone? && lost.directory == h.directory && lost.leftovers == h.leftovers;
  }
}
