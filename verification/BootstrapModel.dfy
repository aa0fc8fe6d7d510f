/**
  One bootstrap request and everything it leaves behind: a private journal on
  one side, and on the other what its commands make. Each action is one durable
  write, one effect or one answer; a run may die between any two of them or in
  the middle of a journal write, and the next run starts over knowing only what
  is durable.

  `Guard` lists what the pipeline has read or just done when it takes an action.
  That a run takes no other action is proved in `BootstrapRuns`.
*/
module BootstrapModel {
  import opened Options

  datatype Backend = Remote | Local

  datatype Mode = BuildOnly | BootOnce(backend: Backend, tested: bool)

  /** A direct input materializes nothing; a Horizon input generates a directory of inputs. */
  datatype Input = Direct | Horizon

  datatype Request = Request(hash: string, mode: Mode, input: Input)

  datatype Stage =
    | JournalCreated | Materialized | Tested | Built | GcRooted | Copied
    | BootOnceScheduled | BootOnceActivated | TerminalEvidenceWritten

  datatype Kind = Intent | Receipt | Outcome

  datatype Event = Event(stage: Stage, kind: Kind, succeeded: bool)

  datatype Status = Succeeded | Failed

  datatype Journal = Journal(
    events: seq<Event>,
    overrides: Option<seq<string>>,
    closure: Option<string>,
    rootReceipt: Option<string>,
    terminal: Option<Status>)

  /** The journal directory may exist without the state file that makes it readable. */
  datatype JournalDirectory = Absent | Empty | Holding(journal: Journal)

  /**
    The private SSH configuration: created empty with whatever mode the process
    gives files, then closed to others, then written with the request's policy.
  */
  datatype Configuration = NoConfiguration | Configuration(private: bool, written: bool)

  datatype UnitState = NotFound | Ready | Waiting | UnitFailed

  datatype Progress = Running | Finished | Broken

  /** The unit of the request: never loaded, loaded, or lost since by the machine, as a reboot does. */
  datatype Service = Unloaded | Loaded(closure: string, progress: Progress) | Gone(closure: string)

  datatype Effect = Effect(stage: Stage, succeeded: bool)

  datatype Evidence = Evidence(hash: string, status: Status, effects: seq<Effect>)

  /** What the outside answered, in the order it was asked. */
  datatype Call =
    | TestRun(passed: bool)
    | BuildRun(overrides: seq<string>, printed: Option<string>)
    | RootMade(closure: string, succeeded: bool)
    | ClosureAsked(closure: string, present: bool)
    | ClosureCopied(closure: string, succeeded: bool)
    | UnitAsked(state: UnitState)
    | UnitDispatched(closure: string, succeeded: bool)
    | UnitSeen(state: UnitState)

  /**
    What one run remembers and a crash forgets. `sequence` numbers the
    temporaries of this process; `stage` is the stage intended and not yet
    concluded, `received` whether its receipt is written, and `answer` the last
    answer from outside.
  */
  datatype Memory = Memory(
    rootSeen: bool,
    evidenceSeen: bool,
    madeDirectory: bool,
    madeInputs: bool,
    savedOverrides: bool,
    savedClosure: bool,
    savedRoot: bool,
    linkedRoot: bool,
    madeConfiguration: bool,
    closedConfiguration: bool,
    configured: bool,
    sequence: nat,
    stage: Option<Stage>,
    received: bool,
    answer: Option<Call>,
    failed: Option<Stage>,
    noted: bool)

  /**
    `staging` and `root` are links, given by what they point at. `leftovers`
    are the numbers of journal temporaries that dead runs did not rename.
  */
  datatype Host = Host(
    directory: JournalDirectory,
    leftovers: set<nat>,
    inputs: bool,
    staging: Option<string>,
    root: Option<string>,
    configuration: Configuration,
    remote: set<string>,
    service: Service,
    evidence: Option<Evidence>,
    calls: seq<Call>,
    memory: Memory)

  /** A journal write: a numbered temporary is created and renamed over the state file. */
  datatype Write =
    | First
    | Record(event: Event)
    | SaveOverrides(overrides: seq<string>)
    | SaveClosure(closure: string)
    | SaveRootReceipt
    | SetTerminal(status: Status)

  datatype Action =
    | Begin
    | MakeDirectory
    | DropDirectory
    | Put(write: Write)
    | DieWriting(write: Write)
    | MakeInputs
    | FailMaterializing
    | RunTest(passed: bool)
    | Build(result: Option<string>)
    | MakeRoot(succeeded: bool, link: Option<string>)
    | LinkRoot
    | DropStaging
    | MakeConfiguration(private: bool)
    | CloseConfiguration
    | WriteConfiguration
    | UseConfiguration
    | AskClosure(present: bool)
    | CopyClosure(succeeded: bool, landed: bool)
    | AskUnit(state: UnitState)
    | Dispatch(succeeded: bool, landed: bool)
    | ObserveUnit(state: UnitState)
    | ServiceMoves(progress: Progress)
    | ServiceLost
    | LinkEvidence

  // ---- reading -----------------------------------------------------------

  predicate StageSucceeded(j: Journal, stage: Stage) {
    Event(stage, Outcome, true) in j.events
  }

  predicate TestPlanned(r: Request) {
    r.mode.BootOnce? && r.mode.tested
  }

  predicate TestsPassed(r: Request, j: Journal) {
    TestPlanned(r) ==> StageSucceeded(j, Tested)
  }

  predicate RemoteMode(r: Request) {
    r.mode.BootOnce? && r.mode.backend == Remote
  }

  function StateOf(service: Service): UnitState {
    match service
    case Unloaded => NotFound
    case Loaded(_, Running) => Waiting
    case Loaded(_, Finished) => Ready
    case Loaded(_, Broken) => UnitFailed
    case Gone(_) => NotFound
  }

  /**
    A unit that is running finishes or breaks, and stays so until it is lost: a
    finished one stays loaded, and nothing restarts or resets a broken one.
  */
  predicate MayMove(service: Service, progress: Progress) {
    service.Loaded? && service.progress == Running && progress != Running
  }

  /** A query of the unit that fails is read as a unit not found; any other answer is the unit's state. */
  predicate MayAnswer(service: Service, state: UnitState) {
    state == NotFound || state == StateOf(service)
  }

  /** The outcomes recorded so far, as evidence reports them. */
  function Outcomes(events: seq<Event>): seq<Effect> {
    if events == [] then []
    else
      var last := events[|events| - 1];
      Outcomes(events[..|events| - 1]) + (if last.kind == Outcome then [Effect(last.stage, last.succeeded)] else [])
  }

  /** The root link and its receipt both bind the saved closure. */
  predicate RootBound(h: Host, j: Journal) {
    j.closure.Some? && h.root == j.closure && j.rootReceipt == j.closure
  }

  predicate Rooted(h: Host, j: Journal) {
    StageSucceeded(j, GcRooted) && RootBound(h, j)
  }

  /** The first stage of this mode that is still to be carried out. */
  function Due(r: Request, j: Journal): Option<Stage> {
    if j.overrides.None? then Some(Materialized)
    else if !TestsPassed(r, j) then Some(Tested)
    else if j.closure.None? then Some(Built)
    else if !StageSucceeded(j, GcRooted) then Some(GcRooted)
    else if r.mode.BuildOnly? then None
    else if RemoteMode(r) && !StageSucceeded(j, Copied) then Some(Copied)
    else if !StageSucceeded(j, BootOnceScheduled) then Some(BootOnceScheduled)
    else if !StageSucceeded(j, BootOnceActivated) then Some(BootOnceActivated)
    else None
  }

  /** The stages reached only past the root, over the configuration where there is one. */
  predicate PastRoot(r: Request, h: Host, j: Journal) {
    Rooted(h, j) && (RemoteMode(r) ==> h.memory.configured)
  }

  predicate ActivationStage(stage: Stage) {
    stage == Copied || stage == BootOnceScheduled || stage == BootOnceActivated
  }

  // ---- guards ------------------------------------------------------------

  /** The journal is not terminal and no effect of this run has failed. */
  predicate Executing(h: Host, j: Journal) {
    j.terminal.None? && h.memory.failed.None?
  }

  /** This run has intended the stage, which is due, and not received it. */
  predicate At(r: Request, h: Host, j: Journal, stage: Stage) {
    Executing(h, j) && h.memory.stage == Some(stage) && !h.memory.received && Due(r, j) == Some(stage)
  }

  /** What must be so for a stage to be received and concluded as a success. */
  predicate Concludable(r: Request, h: Host, j: Journal, stage: Stage) {
    match stage
    case JournalCreated => false
    case Materialized => h.memory.savedOverrides
    case Tested => Due(r, j) == Some(Tested) && h.memory.answer == Some(TestRun(true))
    case Built => h.memory.savedClosure
    case GcRooted => Due(r, j) == Some(GcRooted) && h.memory.savedRoot && RootBound(h, j) && h.staging.None?
    case Copied =>
      && Due(r, j) == Some(Copied) && PastRoot(r, h, j)
      && (h.memory.answer == Some(ClosureAsked(j.closure.value, true))
          || h.memory.answer == Some(ClosureCopied(j.closure.value, true)))
    case BootOnceScheduled =>
      && Due(r, j) == Some(BootOnceScheduled) && PastRoot(r, h, j) && h.memory.answer.Some?
      && ((h.memory.answer.value.UnitAsked? && h.memory.answer.value.state != NotFound)
          || h.memory.answer == Some(UnitDispatched(j.closure.value, true)))
    case BootOnceActivated =>
      Due(r, j) == Some(BootOnceActivated) && PastRoot(r, h, j) && h.memory.answer == Some(UnitSeen(Ready))
    case TerminalEvidenceWritten => false
  }

  predicate EvidenceMatches(r: Request, h: Host, j: Journal) {
    h.evidence.Some? && j.terminal == Some(h.evidence.value.status) && h.evidence.value.hash == r.hash
  }

  predicate MayIntend(r: Request, h: Host, j: Journal, stage: Stage) {
    && h.memory.stage.None?
    && (if stage == TerminalEvidenceWritten then j.terminal.Some? && !StageSucceeded(j, TerminalEvidenceWritten)
        else Executing(h, j) && Due(r, j) == Some(stage) && (ActivationStage(stage) ==> PastRoot(r, h, j)))
  }

  predicate MayReceive(r: Request, h: Host, j: Journal, stage: Stage) {
    && h.memory.stage == Some(stage)
    && (if stage == TerminalEvidenceWritten
        then EvidenceMatches(r, h, j) && !StageSucceeded(j, TerminalEvidenceWritten)
        else Executing(h, j) && Concludable(r, h, j, stage))
  }

  predicate MayRecord(r: Request, h: Host, j: Journal, event: Event) {
    match event.kind
    case Intent => event.succeeded && MayIntend(r, h, j, event.stage)
    case Receipt => event.succeeded && !h.memory.received && MayReceive(r, h, j, event.stage)
    case Outcome =>
      if event.succeeded then h.memory.received && MayReceive(r, h, j, event.stage)
      else j.terminal.None? && h.memory.failed == Some(event.stage) && !h.memory.noted
  }

  predicate MayWrite(r: Request, h: Host, j: Journal, write: Write) {
    match write
    case First => false
    case Record(event) => MayRecord(r, h, j, event)
    case SaveOverrides(overrides) =>
      At(r, h, j, Materialized) && (if r.input == Horizon then h.memory.madeInputs else overrides == [])
    case SaveClosure(closure) => At(r, h, j, Built) && h.memory.answer == Some(BuildRun(SavedOverrides(j), Some(closure)))
    case SaveRootReceipt =>
      At(r, h, j, GcRooted) && !h.memory.savedRoot && h.staging.None? && h.root == j.closure
    case SetTerminal(status) =>
      if status == Succeeded
      then Executing(h, j) && h.memory.stage.None? && Due(r, j).None? && PastRoot(r, h, j)
      else j.terminal.None? && h.memory.failed.Some? && h.memory.noted
  }

  /** A write needs its number free among the temporaries: an existing one is never replaced. */
  predicate MayPut(r: Request, h: Host, write: Write) {
    && h.memory.sequence !in h.leftovers
    && (match h.directory
        case Absent => false
        case Empty => write == First && h.memory.madeDirectory && !h.memory.rootSeen && !h.memory.evidenceSeen
        case Holding(j) => MayWrite(r, h, j, write))
  }

  /** Whether a run can come to this action on this host. */
  ghost predicate Enabled(r: Request, h: Host, action: Action) {
    action in Choices(r, h)
  }

  ghost function Choices(r: Request, h: Host): iset<Action> {
    iset action | Guard(r, h, action)
  }

  predicate Guard(r: Request, h: Host, action: Action) {
    match action
    case Begin => true
    case MakeDirectory => h.directory.Absent?
    case DropDirectory => h.directory.Empty? && h.memory.madeDirectory && (h.memory.rootSeen || h.memory.evidenceSeen)
    case Put(write) => MayPut(r, h, write)
    case DieWriting(write) => MayPut(r, h, write)
    case ServiceMoves(progress) => MayMove(h.service, progress)
    case ServiceLost => h.service.Loaded?
    case _ => h.directory.Holding? && MayEffect(r, h, h.directory.journal, action)
  }

  /**
    The effects and questions of a run whose journal is readable. A dispatch
    under the name of a loaded unit is refused by the service manager.
  */
  predicate MayEffect(r: Request, h: Host, j: Journal, action: Action) {
    match action
    case MakeInputs => At(r, h, j, Materialized) && r.input == Horizon && !h.inputs
    case FailMaterializing => At(r, h, j, Materialized) && r.input == Horizon
    case RunTest(_) => At(r, h, j, Tested)
    case Build(_) => At(r, h, j, Built)
    case MakeRoot(_, _) => At(r, h, j, GcRooted) && h.staging.None? && h.root.None?
    case LinkRoot => At(r, h, j, GcRooted) && h.staging == j.closure && h.root.None?
    case DropStaging => At(r, h, j, GcRooted) && h.memory.linkedRoot && h.staging == j.closure && h.root == j.closure
    case MakeConfiguration(_) => MayConfigure(r, h, j) && h.configuration.NoConfiguration?
    case CloseConfiguration =>
      MayConfigure(r, h, j) && h.configuration.Configuration? && h.memory.madeConfiguration && !h.memory.closedConfiguration
    case WriteConfiguration =>
      MayConfigure(r, h, j) && h.configuration.Configuration? && h.memory.madeConfiguration && h.memory.closedConfiguration
    case UseConfiguration =>
      MayConfigure(r, h, j) && h.configuration.Configuration? && h.configuration.private && !h.memory.madeConfiguration
    case AskClosure(present) =>
      At(r, h, j, Copied) && PastRoot(r, h, j) && (present ==> j.closure.value in h.remote)
    case CopyClosure(_, _) =>
      At(r, h, j, Copied) && PastRoot(r, h, j) && h.memory.answer == Some(ClosureAsked(j.closure.value, false))
    case AskUnit(state) => At(r, h, j, BootOnceScheduled) && PastRoot(r, h, j) && MayAnswer(h.service, state)
    case Dispatch(succeeded, landed) =>
      && At(r, h, j, BootOnceScheduled) && PastRoot(r, h, j) && h.memory.answer == Some(UnitAsked(NotFound))
      && (h.service.Loaded? ==> !succeeded && !landed)
    case ObserveUnit(state) => At(r, h, j, BootOnceActivated) && PastRoot(r, h, j) && MayAnswer(h.service, state)
    case LinkEvidence =>
      h.memory.stage == Some(TerminalEvidenceWritten) && !h.memory.received && j.terminal.Some?
      && !h.memory.evidenceSeen && h.evidence.None?
    case _ => false
  }

  /** The configuration is looked at once a run, past the root and before any further stage. */
  predicate MayConfigure(r: Request, h: Host, j: Journal) {
    Executing(h, j) && RemoteMode(r) && Rooted(h, j) && h.memory.stage.None? && !h.memory.configured
  }

  // ---- effects -----------------------------------------------------------

  function Forgetting(h: Host): Memory {
    Memory(h.root.Some?, h.evidence.Some?, false, false, false, false, false, false, false, false, false,
           0, None, false, None, None, false)
  }

  function SavedClosure(j: Journal): string {
    if j.closure.Some? then j.closure.value else ""
  }

  function SavedOverrides(j: Journal): seq<string> {
    if j.overrides.Some? then j.overrides.value else []
  }

  function Answered(h: Host, call: Call, failed: Option<Stage>): Host {
    h.(calls := h.calls + [call], memory := h.memory.(answer := Some(call), failed := failed))
  }

  /** What this run knows once an event is written. */
  function Recorded(m: Memory, event: Event): Memory {
    var concludes := event.kind == Outcome && event.succeeded;
    m.(stage := if event.kind == Intent then Some(event.stage) else if concludes then None else m.stage,
       received := event.kind == Receipt || (m.received && !concludes),
       noted := m.noted || (event.kind == Outcome && !event.succeeded))
  }

  function Written(h: Host, write: Write): Host {
    var m := h.memory.(sequence := h.memory.sequence + 1);
    match h.directory
    case Absent => h
    case Empty =>
      h.(directory := Holding(Journal([Event(JournalCreated, Outcome, true)], None, None, None, None)), memory := m)
    case Holding(j) =>
      match write
      case First => h
      case Record(event) =>
        h.(directory := Holding(j.(events := j.events + [event])), memory := Recorded(m, event))
      case SaveOverrides(overrides) =>
        h.(directory := Holding(j.(overrides := Some(overrides))), memory := m.(savedOverrides := true))
      case SaveClosure(closure) =>
        h.(directory := Holding(j.(closure := Some(closure))), memory := m.(savedClosure := true))
      case SaveRootReceipt =>
        h.(directory := Holding(j.(rootReceipt := j.closure)), memory := m.(savedRoot := true))
      case SetTerminal(status) =>
        h.(directory := Holding(j.(terminal := Some(status))), memory := m.(stage := None, received := false))
  }

  /** The host after an action; only what `Enabled` admits is ever applied. */
  function Apply(r: Request, h: Host, action: Action): Host {
    match action
    case Begin => h.(memory := Forgetting(h))
    case MakeDirectory => h.(directory := Empty, memory := h.memory.(madeDirectory := true))
    case DropDirectory => h.(directory := Absent, memory := h.memory.(madeDirectory := false))
    case Put(write) => Written(h, write)
    case DieWriting(_) => h.(leftovers := h.leftovers + {h.memory.sequence}, memory := Forgetting(h))
    case ServiceMoves(progress) =>
      if h.service.Loaded? then h.(service := h.service.(progress := progress)) else h
    case ServiceLost => if h.service.Loaded? then h.(service := Gone(h.service.closure)) else h
    case _ => if h.directory.Holding? then ApplyTo(r, h, h.directory.journal, action) else h
  }

  function ApplyTo(r: Request, h: Host, j: Journal, action: Action): Host {
    match action
    case MakeInputs => h.(inputs := true, memory := h.memory.(madeInputs := true))
    case FailMaterializing => h.(memory := h.memory.(failed := Some(Materialized)))
    case RunTest(passed) => Answered(h, TestRun(passed), if passed then None else Some(Tested))
    case Build(result) => Answered(h, BuildRun(SavedOverrides(j), result), if result.Some? then None else Some(Built))
    case MakeRoot(succeeded, link) =>
      Answered(h, RootMade(SavedClosure(j), succeeded), if succeeded then None else Some(GcRooted)).(staging := link)
    case LinkRoot => h.(root := h.staging, memory := h.memory.(linkedRoot := true))
    case DropStaging => h.(staging := None)
    case MakeConfiguration(private) =>
      h.(configuration := Configuration(private, false), memory := h.memory.(madeConfiguration := true))
    case CloseConfiguration =>
      h.(configuration := Configuration(true, false), memory := h.memory.(closedConfiguration := true))
    case WriteConfiguration =>
      h.(configuration := Configuration(true, true), memory := h.memory.(configured := true))
    case UseConfiguration => h.(memory := h.memory.(configured := true))
    case AskClosure(present) => Answered(h, ClosureAsked(SavedClosure(j), present), None)
    case CopyClosure(succeeded, landed) =>
      Answered(h, ClosureCopied(SavedClosure(j), succeeded), if succeeded then None else Some(Copied)).(
        remote := if succeeded || landed then h.remote + {SavedClosure(j)} else h.remote)
    case AskUnit(state) => Answered(h, UnitAsked(state), None)
    case Dispatch(succeeded, landed) =>
      Answered(h, UnitDispatched(SavedClosure(j), succeeded), None).(
        service := if succeeded || landed then Loaded(SavedClosure(j), Running) else h.service)
    case ObserveUnit(state) =>
      Answered(h, UnitSeen(state), if state == UnitFailed then Some(BootOnceActivated) else None)
    case LinkEvidence =>
      if j.terminal.Some? then
        h.(evidence := Some(Evidence(r.hash, j.terminal.value, Outcomes(j.events))),
           memory := h.memory.(sequence := h.memory.sequence + 1))
      else h
    case _ => h
  }

  // ---- any number of runs ------------------------------------------------

  ghost predicate Allowed(r: Request, h: Host, path: seq<Action>)
    decreases |path|
  {
    path == [] || (Enabled(r, h, path[0]) && Allowed(r, Apply(r, h, path[0]), path[1..]))
  }

  ghost function After(r: Request, h: Host, path: seq<Action>): Host
    decreases |path|
  {
    if path == [] then h else After(r, Apply(r, h, path[0]), path[1..])
  }

  /** A request that has never run, whatever is at its output paths and on the remote. */
  ghost predicate Fresh(h: Host) {
    h.directory.Absent? && h.leftovers == {} && !h.inputs && h.staging.None? && h.configuration.NoConfiguration?
    && h.service.Unloaded? && h.calls == [] && h.memory == Forgetting(h)
  }
}
