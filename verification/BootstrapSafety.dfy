/**
  What holds however often one bootstrap request is run and wherever each run
  dies: an invariant of every reachable host, and what no action takes back.
*/
module BootstrapSafety {
  import opened Options
  import opened BootstrapModel

  // ---- the invariant -----------------------------------------------------

  /** Before the journal is readable nothing has been done. */
  ghost predicate Untouched(h: Host) {
    && !h.inputs && h.staging.None? && h.configuration.NoConfiguration? && h.service.Unloaded? && h.calls == []
    && (h.directory.Absent? || h.memory.madeDirectory ==> h.leftovers == {} && h.memory.sequence == 0)
    && (!h.memory.rootSeen ==> h.root.None?) && (!h.memory.evidenceSeen ==> h.evidence.None?)
    && h.memory == Memory(h.memory.rootSeen, h.memory.evidenceSeen, h.memory.madeDirectory, false, false, false, false,
                          false, false, false, false, h.memory.sequence, None, false, None, None, false)
  }

  /** Each saved fact rests on the stages before it. */
  ghost predicate Chained(r: Request, h: Host, j: Journal) {
    && (StageSucceeded(j, Tested) ==> j.overrides.Some? && TestRun(true) in h.calls)
    && (j.closure.Some? ==> j.overrides.Some? && TestsPassed(r, j) && BuildRun(j.overrides.value, j.closure) in h.calls)
    && (j.overrides.Some? && r.input == Direct ==> j.overrides == Some([]))
    && (StageSucceeded(j, GcRooted) ==> RootBound(h, j) && h.staging.None?)
    && (StageSucceeded(j, Copied) ==> RemoteMode(r) && StageSucceeded(j, GcRooted) && j.closure.value in h.remote)
    && (StageSucceeded(j, BootOnceScheduled) ==> !h.service.Unloaded?)
    && (StageSucceeded(j, BootOnceActivated) ==> StageSucceeded(j, BootOnceScheduled) && UnitSeen(Ready) in h.calls)
  }

  /** Links, configuration and unit are for the saved closure, and exist only once their stage was reached. */
  ghost predicate Bound(r: Request, h: Host, j: Journal) {
    && (h.staging.Some? || h.root.Some? ==> j.closure.Some?)
    && (h.root.Some? ==> h.root == j.closure)
    && (j.rootReceipt.Some? ==> j.rootReceipt == j.closure && h.root == j.closure)
    && (h.configuration.Configuration? ==> RemoteMode(r) && StageSucceeded(j, GcRooted))
    && (!h.service.Unloaded? ==>
          && r.mode.BootOnce? && StageSucceeded(j, GcRooted) && (RemoteMode(r) ==> StageSucceeded(j, Copied))
          && j.closure == Some(h.service.closure))
  }

  ghost predicate CallAgrees(r: Request, j: Journal, call: Call) {
    match call
    case TestRun(_) => TestPlanned(r)
    case BuildRun(overrides, _) => j.overrides == Some(overrides) && TestsPassed(r, j)
    case RootMade(closure, _) => j.closure == Some(closure)
    case ClosureAsked(closure, _) => j.closure == Some(closure) && RemoteMode(r) && StageSucceeded(j, GcRooted)
    case ClosureCopied(closure, _) => j.closure == Some(closure) && RemoteMode(r) && StageSucceeded(j, GcRooted)
    case UnitAsked(_) => UnitReached(r, j)
    case UnitDispatched(closure, _) => j.closure == Some(closure) && UnitReached(r, j)
    case UnitSeen(_) => UnitReached(r, j) && StageSucceeded(j, BootOnceScheduled)
  }

  predicate UnitReached(r: Request, j: Journal) {
    r.mode.BootOnce? && StageSucceeded(j, GcRooted) && (RemoteMode(r) ==> StageSucceeded(j, Copied))
  }

  ghost predicate CallsAgree(r: Request, h: Host, j: Journal) {
    forall i :: 0 <= i < |h.calls| ==> CallAgrees(r, j, h.calls[i])
  }

  /** The outcomes of every stage but the writing of evidence. */
  function EarlierOutcomes(events: seq<Event>): seq<Effect> {
    if events == [] then []
    else
      var last := events[|events| - 1];
      EarlierOutcomes(events[..|events| - 1])
      + (if last.kind == Outcome && last.stage != TerminalEvidenceWritten then [Effect(last.stage, last.succeeded)] else [])
  }

  predicate HasFailure(j: Journal) {
    exists i :: 0 <= i < |j.events| && j.events[i].kind == Outcome && !j.events[i].succeeded
  }

  predicate EvidenceOutcome(event: Event) {
    event.stage == TerminalEvidenceWritten && event.kind == Outcome
  }

  /** Every stage this mode calls for has been carried out. */
  predicate Complete(r: Request, h: Host, j: Journal) {
    Rooted(h, j) && (r.mode.BootOnce? ==> StageSucceeded(j, BootOnceActivated))
  }

  /** The terminal tells the truth, and so does the evidence of it. */
  ghost predicate Concluded(r: Request, h: Host, j: Journal) {
    && (j.terminal == Some(Succeeded) ==> Complete(r, h, j))
    && (j.terminal == Some(Failed) ==> HasFailure(j))
    && (h.evidence.Some? ==>
          j.terminal == Some(h.evidence.value.status) && h.evidence.value.hash == r.hash
          && h.evidence.value.effects == EarlierOutcomes(j.events))
    && (forall i :: 0 <= i < |j.events| && EvidenceOutcome(j.events[i]) ==> h.evidence.Some?)
  }

  /** The journal writes this run has made for the stage it is at. */
  function WritesMade(m: Memory): nat {
    if m.stage.None? then 0
    else
      1 + (if m.stage == Some(GcRooted) && m.savedRoot then 1 else 0)
      + (if m.stage == Some(Materialized) && m.savedOverrides then 1 else 0)
      + (if m.stage == Some(Built) && m.savedClosure then 1 else 0)
      + (if m.received then 1 else 0)
  }

  ghost predicate Remembered(r: Request, h: Host, j: Journal) {
    var m := h.memory;
    && (j.overrides.Some? && r.input == Horizon ==> h.inputs)
    && (m.madeInputs ==> h.inputs)
    && (m.savedOverrides ==> j.overrides.Some?)
    && (m.savedClosure ==> j.closure.Some?)
    && (m.linkedRoot && h.staging.Some? && j.terminal.None? ==> m.stage == Some(GcRooted))
    && (m.savedRoot && m.stage == Some(GcRooted) ==> j.rootReceipt.Some?)
    && (m.savedRoot ==> j.terminal.Some? || StageSucceeded(j, GcRooted) || m.stage == Some(GcRooted))
    && (m.failed.Some? ==> m.failed.value != TerminalEvidenceWritten && (j.terminal.None? ==> m.stage == m.failed))
    && (m.noted ==> m.failed.Some? && HasFailure(j))
    && (m.evidenceSeen ==> h.evidence.Some?)
    && (m.configured ==> h.configuration.Configuration? && h.configuration.private)
    && (m.madeConfiguration ==> h.configuration.Configuration?)
    && (m.closedConfiguration ==> m.madeConfiguration && h.configuration.private)
    && (m.received ==> m.stage.Some?)
    && (m.stage == Some(TerminalEvidenceWritten) <==> m.stage.Some? && j.terminal.Some?)
    && (m.stage == Some(Materialized) && j.overrides.Some? ==> m.savedOverrides)
    && (m.stage == Some(Built) && j.closure.Some? ==> m.savedClosure)
    && WritesMade(m) <= m.sequence
  }

  /** A positive answer of this run was true when it was given, and a negative one was asked where it can be acted on. */
  ghost predicate AnswerHolds(r: Request, h: Host, j: Journal) {
    h.memory.answer.Some? ==>
      match h.memory.answer.value
      case TestRun(passed) => TestRun(passed) in h.calls
      case BuildRun(overrides, printed) => BuildRun(overrides, printed) in h.calls && j.overrides == Some(overrides)
      case RootMade(_, _) => true
      case ClosureAsked(closure, present) =>
        if present then closure in h.remote else At(r, h, j, Copied) && PastRoot(r, h, j) && j.closure == Some(closure)
      case ClosureCopied(closure, succeeded) => succeeded ==> closure in h.remote
      case UnitAsked(state) =>
        if state != NotFound then !h.service.Unloaded? else At(r, h, j, BootOnceScheduled) && PastRoot(r, h, j)
      case UnitDispatched(_, succeeded) => succeeded ==> !h.service.Unloaded?
      case UnitSeen(state) => UnitSeen(state) in h.calls
  }

  ghost predicate Sound(r: Request, h: Host) {
    if h.directory.Holding? then
      var j := h.directory.journal;
      Chained(r, h, j) && Bound(r, h, j) && CallsAgree(r, h, j) && Concluded(r, h, j) && Remembered(r, h, j)
      && AnswerHolds(r, h, j)
    else Untouched(h)
  }

  // ---- what no action takes back -----------------------------------------

  ghost predicate JournalGrows(j: Journal, j': Journal) {
    && j.events <= j'.events
    && (j.overrides.Some? ==> j'.overrides == j.overrides)
    && (j.closure.Some? ==> j'.closure == j.closure)
    && (j.terminal.Some? ==> j'.terminal == j.terminal)
  }

  /** The root name is never removed or replaced, and a staged link goes nowhere else. */
  ghost predicate LinksKept(h: Host, h': Host) {
    && (h.root.Some? ==> h'.root == h.root)
    && (h.staging.Some? ==> h'.staging == h.staging || h'.root == h.staging)
  }

  ghost predicate Kept(h: Host, h': Host) {
    && LinksKept(h, h')
    && h.remote <= h'.remote && h.leftovers <= h'.leftovers
    && (!h.service.Unloaded? ==> !h'.service.Unloaded?)
    && (h.evidence.Some? ==> h'.evidence == h.evidence)
    && |h.calls| <= |h'.calls| && h'.calls[..|h.calls|] == h.calls
    && (h.directory.Holding? ==>
          h'.directory.Holding? && JournalGrows(h.directory.journal, h'.directory.journal)
          && (h.directory.journal.terminal.Some? ==> h'.calls == h.calls))
  }

  lemma StepKept(r: Request, h: Host, action: Action)
    requires Enabled(r, h, action)
    ensures Kept(h, Apply(r, h, action))
  {
    if action.Put? || action.DieWriting? {
      WriteKept(r, h, action);
    }
  }

  lemma WriteKept(r: Request, h: Host, action: Action)
    requires Enabled(r, h, action) && (action.Put? || action.DieWriting?)
    ensures Kept(h, Apply(r, h, action))
  {
    hide MayRecord, PastRoot, Recorded;
    assert Apply(r, h, action).calls == h.calls;
  }

  lemma KeptTwice(a: Host, b: Host, c: Host)
    requires Kept(a, b) && Kept(b, c)
    ensures Kept(a, c)
  {
    assert c.calls[..|a.calls|] == c.calls[..|b.calls|][..|a.calls|];
  }

  lemma {:induction false} PathKept(r: Request, h: Host, path: seq<Action>)
    requires Allowed(r, h, path)
    ensures Kept(h, After(r, h, path))
    decreases |path|
  {
    hide Guard, Apply, Kept;
    if path == [] {
      KeptSame(h);
    } else {
      StepKept(r, h, path[0]);
      PathKept(r, Apply(r, h, path[0]), path[1..]);
      KeptTwice(h, Apply(r, h, path[0]), After(r, h, path));
    }
  }

  lemma KeptSame(h: Host)
    ensures Kept(h, h)
  {
  }

  // ---- preservation ------------------------------------------------------

  lemma {:induction false} AllOutcomes(events: seq<Event>)
    requires forall i :: 0 <= i < |events| ==> !EvidenceOutcome(events[i])
    ensures Outcomes(events) == EarlierOutcomes(events)
    decreases |events|
  {
    if events != [] {
      assert !EvidenceOutcome(events[|events| - 1]);
      AllOutcomes(events[..|events| - 1]);
    }
  }

  lemma Appended(j: Journal, event: Event)
    ensures var j' := j.(events := j.events + [event]);
            forall stage :: StageSucceeded(j', stage) <==> StageSucceeded(j, stage) || event == Event(stage, Outcome, true)
  {
  }

  lemma RecordedOutcomes(r: Request, h: Host, j: Journal, event: Event)
    requires Concluded(r, h, j) && Remembered(r, h, j) && h.directory == Holding(j) && MayRecord(r, h, j, event)
    ensures j.terminal.Some? ==> EarlierOutcomes(j.events + [event]) == EarlierOutcomes(j.events)
    ensures EvidenceOutcome(event) ==> h.evidence.Some?
  {
    assert (j.events + [event])[..|j.events|] == j.events;
  }

  /** What writing an event takes and what it leaves. */
  lemma RecordForm(r: Request, h: Host, event: Event)
    requires Enabled(r, h, Put(Record(event)))
    ensures h.directory.Holding? && MayRecord(r, h, h.directory.journal, event)
    ensures var j := h.directory.journal;
            Apply(r, h, Put(Record(event)))
            == h.(directory := Holding(j.(events := j.events + [event])),
                  memory := Recorded(h.memory.(sequence := h.memory.sequence + 1), event))
  {
    hide MayRecord, Recorded, At;
  }

  lemma RecordConcluded(r: Request, h: Host, event: Event)
    requires Sound(r, h) && Enabled(r, h, Put(Record(event)))
    ensures var h' := Apply(r, h, Put(Record(event))); h'.directory.Holding? && Concluded(r, h', h'.directory.journal)
    ensures var h' := Apply(r, h, Put(Record(event))); HasFailure(h.directory.journal) || (event.kind == Outcome && !event.succeeded) ==> HasFailure(h'.directory.journal)
  {
    hide Outcomes, CallsAgree, AnswerHolds, Enabled, Apply, Recorded, Chained, Bound;
    RecordForm(r, h, event);
    var j := h.directory.journal;
    RecordedOutcomes(r, h, j, event);
    Appended(j, event);
    var events := j.events + [event];
    assert forall i :: 0 <= i < |j.events| ==> events[i] == j.events[i];
    assert events[|j.events|] == event;
    if HasFailure(j) {
      var i :| 0 <= i < |j.events| && j.events[i].kind == Outcome && !j.events[i].succeeded;
      assert events[i] == j.events[i];
    }
  }

  lemma RecordSound(r: Request, h: Host, event: Event)
    requires Sound(r, h) && Enabled(r, h, Put(Record(event))) && h.directory.Holding?
    ensures Sound(r, Apply(r, h, Put(Record(event))))
  {
    hide Outcomes, EarlierOutcomes, Concluded, Chained, Bound, Remembered, AnswerHolds, CallsAgree;
    RecordConcluded(r, h, event);
    RecordChained(r, h, event);
    RecordBound(r, h, event);
    RecordRemembered(r, h, event);
  }

  lemma RecordChained(r: Request, h: Host, event: Event)
    requires Sound(r, h) && Enabled(r, h, Put(Record(event))) && h.directory.Holding?
    ensures var h' := Apply(r, h, Put(Record(event)));
            h'.directory.Holding? && Chained(r, h', h'.directory.journal) && CallsAgree(r, h', h'.directory.journal)
  {
    hide Outcomes, EarlierOutcomes, Concluded, Enabled, Apply, Recorded;
    RecordForm(r, h, event);
    var j := h.directory.journal;
    var j' := j.(events := j.events + [event]);
    Appended(j, event);
    assert forall i :: 0 <= i < |h.calls| && CallAgrees(r, j, h.calls[i]) ==> CallAgrees(r, j', h.calls[i]);
  }

  lemma RecordBound(r: Request, h: Host, event: Event)
    requires Sound(r, h) && Enabled(r, h, Put(Record(event))) && h.directory.Holding?
    ensures var h' := Apply(r, h, Put(Record(event)));
            h'.directory.Holding? && Bound(r, h', h'.directory.journal)
  {
    hide Outcomes, EarlierOutcomes, Concluded, CallsAgree, Remembered, AnswerHolds, Chained;
    Appended(h.directory.journal, event);
  }

  lemma RecordRemembered(r: Request, h: Host, event: Event)
    requires Sound(r, h) && Enabled(r, h, Put(Record(event))) && h.directory.Holding?
    ensures var h' := Apply(r, h, Put(Record(event)));
            h'.directory.Holding? && Remembered(r, h', h'.directory.journal) && AnswerHolds(r, h', h'.directory.journal)
  {
    hide Sound, Apply, Remembered, AnswerHolds, Guard;
    match event.kind
    case Intent => IntendRemembered(r, h, event);
    case Receipt => ReceiveRemembered(r, h, event);
    case Outcome => ConcludeRemembered(r, h, event);
  }

  lemma IntendRemembered(r: Request, h: Host, event: Event)
    requires Sound(r, h) && Enabled(r, h, Put(Record(event))) && h.directory.Holding? && event.kind == Intent
    ensures var h' := Apply(r, h, Put(Record(event)));
            h'.directory.Holding? && Remembered(r, h', h'.directory.journal) && AnswerHolds(r, h', h'.directory.journal)
  {
    hide Outcomes, EarlierOutcomes, CallsAgree, Concluded, Chained, Bound, Enabled, Apply;
    RecordForm(r, h, event);
    Appended(h.directory.journal, event);
    RecordConcluded(r, h, event);
  }

  lemma ReceiveRemembered(r: Request, h: Host, event: Event)
    requires Sound(r, h) && Enabled(r, h, Put(Record(event))) && h.directory.Holding? && event.kind == Receipt
    ensures var h' := Apply(r, h, Put(Record(event)));
            h'.directory.Holding? && Remembered(r, h', h'.directory.journal) && AnswerHolds(r, h', h'.directory.journal)
  {
    hide Outcomes, EarlierOutcomes, CallsAgree, Concluded, Chained, Bound, Enabled, Apply;
    RecordForm(r, h, event);
    Appended(h.directory.journal, event);
    RecordConcluded(r, h, event);
  }

  lemma ConcludeRemembered(r: Request, h: Host, event: Event)
    requires Sound(r, h) && Enabled(r, h, Put(Record(event))) && h.directory.Holding? && event.kind == Outcome
    ensures var h' := Apply(r, h, Put(Record(event)));
            h'.directory.Holding? && Remembered(r, h', h'.directory.journal) && AnswerHolds(r, h', h'.directory.journal)
  {
    hide Outcomes, EarlierOutcomes, CallsAgree, Concluded, Chained, Bound, Enabled, Apply;
    RecordForm(r, h, event);
    Appended(h.directory.journal, event);
    RecordConcluded(r, h, event);
    var h' := Apply(r, h, Put(Record(event)));
    assert Remembered(r, h', h'.directory.journal);
    assert AnswerHolds(r, h', h'.directory.journal);
  }

  lemma FactSound(r: Request, h: Host, write: Write)
    requires Sound(r, h) && Enabled(r, h, Put(write)) && h.directory.Holding?
    requires write.SaveOverrides? || write.SaveClosure? || write.SaveRootReceipt?
    ensures Sound(r, Apply(r, h, Put(write)))
  {
    hide Outcomes, EarlierOutcomes;
    var j := h.directory.journal;
    var j' := Apply(r, h, Put(write)).directory.journal;
    SameStages(j, j');
  }

  lemma SameStages(j: Journal, j': Journal)
    requires j'.events == j.events
    ensures forall stage :: StageSucceeded(j, stage) == StageSucceeded(j', stage)
  {
  }

  lemma TerminalSound(r: Request, h: Host, status: Status)
    requires Sound(r, h) && Enabled(r, h, Put(SetTerminal(status))) && h.directory.Holding?
    ensures Sound(r, Apply(r, h, Put(SetTerminal(status))))
  {
    hide Outcomes, EarlierOutcomes, Chained, Bound, CallsAgree, Concluded, AnswerHolds;
    TerminalChained(r, h, status);
    TerminalConcluded(r, h, status);
    TerminalAnswered(r, h, status);
  }

  lemma TerminalChained(r: Request, h: Host, status: Status)
    requires h.directory.Holding?
    requires var j := h.directory.journal; Chained(r, h, j) && Bound(r, h, j) && CallsAgree(r, h, j)
    ensures var h' := Written(h, SetTerminal(status)); var j' := h'.directory.journal;
            h'.directory.Holding? && Chained(r, h', j') && Bound(r, h', j') && CallsAgree(r, h', j')
  {
    SameStages(h.directory.journal, h.directory.journal.(terminal := Some(status)));
  }

  lemma TerminalConcluded(r: Request, h: Host, status: Status)
    requires Sound(r, h) && Enabled(r, h, Put(SetTerminal(status))) && h.directory.Holding?
    ensures var h' := Apply(r, h, Put(SetTerminal(status))); h'.directory.Holding? && Concluded(r, h', h'.directory.journal)
    ensures HasFailure(h.directory.journal) ==>
              HasFailure(Apply(r, h, Put(SetTerminal(status))).directory.journal)
  {
    hide Outcomes, EarlierOutcomes, CallsAgree, AnswerHolds;
    var j := h.directory.journal;
    SameStages(j, j.(terminal := Some(status)));
    if HasFailure(j) {
      var i :| 0 <= i < |j.events| && j.events[i].kind == Outcome && !j.events[i].succeeded;
      assert HasFailure(j.(terminal := Some(status)));
    }
  }

  /** A negative answer cannot be the last one when the terminal is set. */
  lemma TerminalAnswered(r: Request, h: Host, status: Status)
    requires Sound(r, h) && Enabled(r, h, Put(SetTerminal(status))) && h.directory.Holding?
    ensures var h' := Apply(r, h, Put(SetTerminal(status))); h'.directory.Holding? && AnswerHolds(r, h', h'.directory.journal)
  {
    hide Outcomes, EarlierOutcomes, CallsAgree, Chained, Bound, Concluded;
  }

  lemma WriteSound(r: Request, h: Host, write: Write)
    requires Sound(r, h) && Enabled(r, h, Put(write))
    ensures Sound(r, Apply(r, h, Put(write)))
  {
    if h.directory.Holding? {
      hide Sound, Apply, Guard;
      WriteNamed(r, h, write);
      match write
      case Record(event) => RecordSound(r, h, event);
      case SaveOverrides(_) => FactSound(r, h, write);
      case SaveClosure(_) => FactSound(r, h, write);
      case SaveRootReceipt => FactSound(r, h, write);
      case SetTerminal(status) => TerminalSound(r, h, status);
    } else {
      FirstSound(r, h, write);
    }
  }

  lemma WriteNamed(r: Request, h: Host, write: Write)
    requires Enabled(r, h, Put(write)) && h.directory.Holding?
    ensures !write.First?
  {
  }

  lemma FirstSound(r: Request, h: Host, write: Write)
    requires Sound(r, h) && Enabled(r, h, Put(write)) && !h.directory.Holding?
    ensures Sound(r, Apply(r, h, Put(write)))
  {
  }

  /** Steps that forget, or come before the journal is readable. */
  predicate OutsideStep(action: Action) {
    action.Begin? || action.MakeDirectory? || action.DropDirectory? || action.DieWriting?
  }

  /** What the unit does by itself, or its machine to it. */
  predicate ServiceStep(action: Action) {
    action.ServiceMoves? || action.ServiceLost?
  }

  predicate ConfigurationStep(action: Action) {
    action.MakeConfiguration? || action.CloseConfiguration? || action.WriteConfiguration? || action.UseConfiguration?
  }

  /** Steps on the host that ask nothing and write nothing to the journal. */
  predicate HostStep(action: Action) {
    ServiceStep(action) || ConfigurationStep(action) || action.MakeInputs? || action.FailMaterializing?
    || action.LinkRoot? || action.DropStaging?
  }

  lemma OutsideSound(r: Request, h: Host, action: Action)
    requires Sound(r, h) && Enabled(r, h, action) && OutsideStep(action)
    ensures Sound(r, Apply(r, h, action))
  {
    hide Outcomes, EarlierOutcomes, CallAgrees, MayPut, At, PastRoot;
    match action
    case Begin =>
    case MakeDirectory =>
    case DropDirectory =>
    case DieWriting(_) => DieSound(r, h, action.write);
  }

  lemma DieSound(r: Request, h: Host, write: Write)
    requires Sound(r, h) && Enabled(r, h, DieWriting(write))
    ensures Sound(r, Apply(r, h, DieWriting(write)))
  {
    hide Outcomes, EarlierOutcomes, CallAgrees, At, PastRoot, MayWrite;
  }

  lemma HostSound(r: Request, h: Host, action: Action)
    requires Sound(r, h) && Enabled(r, h, action) && HostStep(action)
    ensures Sound(r, Apply(r, h, action))
  {
    hide Sound, Guard, Apply;
    if ServiceStep(action) {
      MoveSound(r, h, action);
    } else if action.MakeInputs? || action.FailMaterializing? {
      InputSound(r, h, action);
    } else if action.LinkRoot? || action.DropStaging? {
      LinkSound(r, h, action);
    } else {
      ConfigurationSound(r, h, action);
    }
  }

  lemma MoveSound(r: Request, h: Host, action: Action)
    requires Sound(r, h) && Enabled(r, h, action) && ServiceStep(action)
    ensures Sound(r, Apply(r, h, action))
  {
    hide Outcomes, EarlierOutcomes, CallAgrees;
    var h' := Apply(r, h, action);
    assert h' == h.(service := h'.service) && !h'.service.Unloaded? && h'.service.closure == h.service.closure;
    if h.directory.Holding? {
      var j := h.directory.journal;
      assert Chained(r, h', j) && Bound(r, h', j) && CallsAgree(r, h', j) && Concluded(r, h', j);
      assert Remembered(r, h', j) && AnswerHolds(r, h', j);
    }
  }

  lemma InputSound(r: Request, h: Host, action: Action)
    requires Sound(r, h) && Enabled(r, h, action) && (action.MakeInputs? || action.FailMaterializing?)
    ensures Sound(r, Apply(r, h, action))
  {
    hide Outcomes, EarlierOutcomes, CallAgrees;
  }

  lemma LinkSound(r: Request, h: Host, action: Action)
    requires Sound(r, h) && Enabled(r, h, action) && (action.LinkRoot? || action.DropStaging?)
    ensures Sound(r, Apply(r, h, action))
  {
    hide Outcomes, EarlierOutcomes, CallAgrees;
  }

  lemma ConfigurationSound(r: Request, h: Host, action: Action)
    requires Sound(r, h) && Enabled(r, h, action) && ConfigurationStep(action)
    ensures Sound(r, Apply(r, h, action))
  {
    hide Outcomes, EarlierOutcomes, CallAgrees;
  }

  lemma EvidenceSound(r: Request, h: Host)
    requires Sound(r, h) && Enabled(r, h, LinkEvidence)
    ensures Sound(r, Apply(r, h, LinkEvidence))
  {
    hide CallAgrees;
    AllOutcomes(h.directory.journal.events);
  }

  /** Tests, builds and the root command. */
  lemma BuildSound(r: Request, h: Host, action: Action)
    requires Sound(r, h) && Enabled(r, h, action) && (action.RunTest? || action.Build? || action.MakeRoot?)
    ensures Sound(r, Apply(r, h, action))
  {
    hide Outcomes, EarlierOutcomes;
  }

  /** Questions and commands about the remote closure. */
  lemma CopySound(r: Request, h: Host, action: Action)
    requires Sound(r, h) && Enabled(r, h, action) && (action.AskClosure? || action.CopyClosure?)
    ensures Sound(r, Apply(r, h, action))
  {
    hide Outcomes, EarlierOutcomes;
  }

  lemma AskUnitSound(r: Request, h: Host, state: UnitState)
    requires Sound(r, h) && Enabled(r, h, AskUnit(state))
    ensures Sound(r, Apply(r, h, AskUnit(state)))
  {
    hide Outcomes, EarlierOutcomes;
    var h' := Apply(r, h, AskUnit(state));
    var j := h.directory.journal;
    assert Chained(r, h', j) && Bound(r, h', j) && CallsAgree(r, h', j);
    assert Concluded(r, h', j) && Remembered(r, h', j) && AnswerHolds(r, h', j);
  }

  lemma DispatchSound(r: Request, h: Host, succeeded: bool, landed: bool)
    requires Sound(r, h) && Enabled(r, h, Dispatch(succeeded, landed))
    ensures Sound(r, Apply(r, h, Dispatch(succeeded, landed)))
  {
    hide Outcomes, EarlierOutcomes;
    var h' := Apply(r, h, Dispatch(succeeded, landed));
    var j := h.directory.journal;
    assert h'.directory == h.directory && UnitReached(r, j);
    assert Chained(r, h', j) && Bound(r, h', j) && CallsAgree(r, h', j);
    assert Concluded(r, h', j) && Remembered(r, h', j) && AnswerHolds(r, h', j);
  }

  lemma ObserveSound(r: Request, h: Host, state: UnitState)
    requires Sound(r, h) && Enabled(r, h, ObserveUnit(state))
    ensures Sound(r, Apply(r, h, ObserveUnit(state)))
  {
    hide Outcomes, EarlierOutcomes;
    var h' := Apply(r, h, ObserveUnit(state));
    var j := h.directory.journal;
    assert Chained(r, h', j) && Bound(r, h', j) && CallsAgree(r, h', j);
    assert Concluded(r, h', j) && Remembered(r, h', j) && AnswerHolds(r, h', j);
  }

  lemma StepSound(r: Request, h: Host, action: Action)
    requires Sound(r, h) && Enabled(r, h, action)
    ensures Sound(r, Apply(r, h, action))
  {
    hide Sound, Enabled, Apply;
    if action.Put? {
      WriteSound(r, h, action.write);
    } else if action.LinkEvidence? {
      EvidenceSound(r, h);
    } else if OutsideStep(action) {
      OutsideSound(r, h, action);
    } else if HostStep(action) {
      HostSound(r, h, action);
    } else if action.RunTest? || action.Build? || action.MakeRoot? {
      BuildSound(r, h, action);
    } else if action.AskClosure? || action.CopyClosure? {
      CopySound(r, h, action);
    } else {
      hide Guard;
      match action
      case AskUnit(state) => AskUnitSound(r, h, state);
      case Dispatch(succeeded, landed) => DispatchSound(r, h, succeeded, landed);
      case ObserveUnit(state) => ObserveSound(r, h, state);
    }
  }

  lemma {:induction false} PathSound(r: Request, h: Host, path: seq<Action>)
    requires Sound(r, h) && Allowed(r, h, path)
    ensures Sound(r, After(r, h, path))
    decreases |path|
  {
    hide Sound, Guard, Apply;
    if path != [] {
      StepSound(r, h, path[0]);
      PathSound(r, Apply(r, h, path[0]), path[1..]);
    }
  }

  lemma FreshSound(r: Request, h: Host)
    requires Fresh(h)
    ensures Sound(r, h)
  {
  }
}
