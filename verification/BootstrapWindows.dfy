/**
  The windows one by one: what opens each, that it stays open, and inputs that
  reach the ones a reader would least expect.
*/
module BootstrapWindows {
  import opened Options
  import opened BootstrapModel
  import opened BootstrapSafety
  import opened BootstrapResults
  import opened BootstrapProgress

  // ---- the root handoff --------------------------------------------------

  /**
    Every handoff passes through the window: a death after linking the final
    name is the end of the request, and one after dropping the staged name
    leaves it as hopeful as it was before the handoff.
  */
  lemma HandoffWindow(r: Request, start: Host, before: seq<Action>, h: Host, loses: bool)
    requires Reached(r, start, before, h) && Enabled(r, h, LinkRoot)
    ensures var linked := Apply(r, h, LinkRoot); var dropped := Apply(r, linked, DropStaging);
            && Enabled(r, linked, DropStaging) && Hopeless(r, linked, loses)
            && (Hopeless(r, dropped, loses) <==> Hopeless(r, h, loses))
  {
    hide Hopeless, Sound, Apply, Guard, Stuck;
    var linked := Apply(r, h, LinkRoot);
    var dropped := Apply(r, linked, DropStaging);
    ReachedSound(r, start, before, h);
    HandoffStuck(r, h, loses);
    ReachedOn(r, start, before, h, LinkRoot);
    ReachedOn(r, start, before + [LinkRoot], linked, DropStaging);
    SucceedsUnlessStuck(r, start, before, h, loses);
    SucceedsUnlessStuck(r, start, before + [LinkRoot], linked, loses);
    SucceedsUnlessStuck(r, start, before + [LinkRoot] + [DropStaging], dropped, loses);
  }

  lemma HandoffStuck(r: Request, h: Host, loses: bool)
    requires Sound(r, h) && Enabled(r, h, LinkRoot)
    ensures var linked := Apply(r, h, LinkRoot); var dropped := Apply(r, linked, DropStaging);
            && Enabled(r, linked, DropStaging) && Stuck(r, linked, loses)
            && (Stuck(r, dropped, loses) <==> Stuck(r, h, loses))
  {
    hide CallsAgree, Concluded, AnswerHolds;
  }

  /**
    A crash between linking the final root and dropping the staged one ends in
    the collision refusal for good: both names stay as they are and no command
    is ever issued again.
  */
  lemma CollisionIsPermanent(r: Request, start: Host, before: seq<Action>, h: Host, path: seq<Action>)
    requires Reached(r, start, before, h) && h.directory.Holding? && h.directory.journal.terminal.None?
    requires !StageSucceeded(h.directory.journal, GcRooted) && h.staging.Some? && h.root.Some?
    requires Allowed(r, Apply(r, h, Begin), path)
    ensures var end := After(r, Apply(r, h, Begin), path);
            && end.staging == h.staging && end.root == h.root && end.calls == h.calls
            && end.directory.Holding? && end.directory.journal.terminal.None?
  {
    hide Sound, Guard;
    ReachedSound(r, start, before, h);
    BeginEnabled(r, h);
    StepSound(r, h, Begin);
    CollidedForever(r, Apply(r, h, Begin), path);
  }

  ghost predicate Collided(h: Host) {
    && h.directory.Holding? && h.directory.journal.terminal.None? && !StageSucceeded(h.directory.journal, GcRooted)
    && h.staging.Some? && h.root.Some? && !h.memory.linkedRoot && h.memory.failed.None?
  }

  lemma CollidedStep(r: Request, h: Host, action: Action)
    requires Sound(r, h) && Collided(h) && Enabled(r, h, action)
    ensures var h' := Apply(r, h, action);
            Collided(h') && h'.staging == h.staging && h'.root == h.root && h'.calls == h.calls
  {
    hide CallsAgree, Concluded, Remembered, AnswerHolds;
    CollidedIsDue(r, h, h.directory.journal);
    if action.Put? { CollidedPut(r, h, h.directory.journal, action.write); }
  }

  lemma CollidedIsDue(r: Request, h: Host, j: Journal)
    requires Sound(r, h) && Collided(h) && h.directory == Holding(j)
    ensures Due(r, j) == Some(GcRooted)
  {
    hide CallsAgree, Concluded, Remembered, AnswerHolds;
  }

  lemma CollidedPut(r: Request, h: Host, j: Journal, write: Write)
    requires Collided(h) && h.directory == Holding(j) && Due(r, j) == Some(GcRooted) && Enabled(r, h, Put(write))
    ensures var h' := Apply(r, h, Put(write));
            Collided(h') && h'.staging == h.staging && h'.root == h.root && h'.calls == h.calls
  {
    match write
    case Record(event) => Appended(j, event);
    case SaveRootReceipt =>
    case _ =>
  }

  lemma {:induction false} CollidedForever(r: Request, h: Host, path: seq<Action>)
    requires Sound(r, h) && Collided(h) && Allowed(r, h, path)
    ensures var end := After(r, h, path);
            Collided(end) && end.staging == h.staging && end.root == h.root && end.calls == h.calls
    decreases |path|
  {
    hide Sound, Guard, Apply, Collided;
    if path != [] {
      CollidedStep(r, h, path[0]);
      StepSound(r, h, path[0]);
      CollidedForever(r, Apply(r, h, path[0]), path[1..]);
    }
  }

  // ---- the journal's temporaries -----------------------------------------

  /**
    Dying in a journal write, between creating its temporary and renaming it,
    ends the request exactly when a death just before it would have, or when
    the journal is not terminal and the write is among the first ones a later
    run must make: the first four before the root, three before the activation,
    and the very first one after that.
  */
  lemma DyingWriteStrandsExactly(r: Request, start: Host, before: seq<Action>, h: Host, write: Write, loses: bool)
    requires Reached(r, start, before, h) && Enabled(r, h, DieWriting(write)) && h.directory.Holding?
    ensures Hopeless(r, Apply(r, h, DieWriting(write)), loses) <==>
              || Hopeless(r, h, loses)
              || (h.directory.journal.terminal.None? && h.memory.sequence < WritesNeeded(r, h.directory.journal))
  {
    hide Hopeless, Sound, Apply, Guard, Stuck;
    DyingStuck(r, h, h.directory.journal, write, loses);
    ReachedOn(r, start, before, h, DieWriting(write));
    SucceedsUnlessStuck(r, start, before, h, loses);
    SucceedsUnlessStuck(r, start, before + [DieWriting(write)], Apply(r, h, DieWriting(write)), loses);
  }

  lemma DyingStuck(r: Request, h: Host, j: Journal, write: Write, loses: bool)
    requires Enabled(r, h, DieWriting(write)) && h.directory == Holding(j)
    ensures Stuck(r, Apply(r, h, DieWriting(write)), loses) <==>
              Stuck(r, h, loses) || (j.terminal.None? && h.memory.sequence < WritesNeeded(r, j))
  {
    var dead := Apply(r, h, DieWriting(write));
    if j.terminal.None? && h.memory.sequence < WritesNeeded(r, j) {
      assert h.memory.sequence in dead.leftovers;
    }
    if NumberTaken(r, h, j) {
      var n :| n in h.leftovers && n < WritesNeeded(r, j);
      assert n in dead.leftovers;
    }
    if NumberTaken(r, dead, j) {
      var n :| n in dead.leftovers && n < WritesNeeded(r, j);
      assert n in h.leftovers || n == h.memory.sequence;
    }
  }

  /**
    A first run that dies in its second journal write, having made nothing but
    its journal: the request can never succeed, though no link, input,
    configuration or terminal stands in its way.
  */
  lemma LeftoverStrands(r: Request, start: Host)
    requires Fresh(start) && start.root.None? && start.evidence.None?
    ensures var path := [MakeDirectory, Put(First), DieWriting(Record(Event(Materialized, Intent, true)))];
            var h := After(r, start, path);
            && Reached(r, start, path, h) && h.directory.Holding? && h.directory.journal.terminal.None?
            && h.staging.None? && h.root.None? && !h.inputs && h.configuration.NoConfiguration? && h.leftovers == {1}
            && Hopeless(r, h, true)
  {
    hide Stuck, Hopeless;
    var intent := Record(Event(Materialized, Intent, true));
    var h1 := Apply(r, start, MakeDirectory);
    var h2 := Apply(r, h1, Put(First));
    var h3 := Apply(r, h2, DieWriting(intent));
    FirstWrites(r, start);
    Took(r, h2, DieWriting(intent), []);
    Took(r, h1, Put(First), [DieWriting(intent)]);
    Took(r, start, MakeDirectory, [Put(First), DieWriting(intent)]);
    var path := [MakeDirectory, Put(First), DieWriting(intent)];
    assert [MakeDirectory] + [Put(First), DieWriting(intent)] == path;
    assert [Put(First)] + [DieWriting(intent)] == [Put(First), DieWriting(intent)];
    assert [DieWriting(intent)] + [] == [DieWriting(intent)];
    assert After(r, h3, []) == h3;
    assert Reached(r, start, path, h3);
    LeftoverStuck(r, h3);
    SucceedsUnlessStuck(r, start, path, h3, true);
  }

  lemma FirstWrites(r: Request, start: Host)
    requires Fresh(start) && start.root.None? && start.evidence.None?
    ensures var h1 := Apply(r, start, MakeDirectory); var h2 := Apply(r, h1, Put(First));
            var intent := Record(Event(Materialized, Intent, true));
            && Enabled(r, start, MakeDirectory) && Enabled(r, h1, Put(First)) && Enabled(r, h2, DieWriting(intent))
            && h2.memory.sequence == 1 && h2.leftovers == {}
            && h2.directory == Holding(Journal([Event(JournalCreated, Outcome, true)], None, None, None, None))
            && h2.staging.None? && h2.root.None? && !h2.inputs && h2.configuration.NoConfiguration?
  {
  }

  lemma LeftoverStuck(r: Request, h: Host)
    requires h.directory == Holding(Journal([Event(JournalCreated, Outcome, true)], None, None, None, None))
    requires 1 in h.leftovers
    ensures Stuck(r, h, true)
  {
    assert !StageSucceeded(h.directory.journal, GcRooted);
  }

  lemma Took(r: Request, h: Host, action: Action, rest: seq<Action>)
    requires Enabled(r, h, action) && Allowed(r, Apply(r, h, action), rest)
    ensures Allowed(r, h, [action] + rest) && After(r, h, [action] + rest) == After(r, Apply(r, h, action), rest)
  {
    hide Guard, Apply;
    assert ([action] + rest)[1..] == rest;
  }

  // ---- stages left open --------------------------------------------------

  /** The fact a stage saves before its outcome, and the run that saved it. */
  predicate FactSaved(j: Journal, stage: Stage) {
    match stage
    case Materialized => j.overrides.Some?
    case Built => j.closure.Some?
    case _ => false
  }

  predicate SavedNow(h: Host, stage: Stage) {
    match stage
    case Materialized => h.memory.savedOverrides
    case Built => h.memory.savedClosure
    case _ => false
  }

  /** A saved fact whose stage neither succeeded nor will: no later run concludes it. */
  ghost predicate LeftOpen(h: Host, stage: Stage) {
    && h.directory.Holding? && FactSaved(h.directory.journal, stage)
    && !StageSucceeded(h.directory.journal, stage) && !SavedNow(h, stage)
  }

  lemma LeftOpenStep(r: Request, h: Host, stage: Stage, action: Action)
    requires LeftOpen(h, stage) && Enabled(r, h, action)
    ensures LeftOpen(Apply(r, h, action), stage)
  {
    if action.Put? {
      LeftOpenPut(r, h, h.directory.journal, stage, action.write);
    }
  }

  lemma LeftOpenPut(r: Request, h: Host, j: Journal, stage: Stage, write: Write)
    requires LeftOpen(h, stage) && Enabled(r, h, Put(write)) && h.directory == Holding(j)
    ensures LeftOpen(Apply(r, h, Put(write)), stage)
  {
    match write
    case Record(event) => Appended(j, event);
    case SaveRootReceipt => SameStages(j, j.(rootReceipt := j.closure));
    case SaveClosure(closure) => SameStages(j, j.(closure := Some(closure)));
    case SaveOverrides(overrides) => SameStages(j, j.(overrides := Some(overrides)));
    case SetTerminal(status) => SameStages(j, j.(terminal := Some(status)));
  }

  lemma {:induction false} LeftOpenForever(r: Request, h: Host, stage: Stage, path: seq<Action>)
    requires LeftOpen(h, stage) && Allowed(r, h, path)
    ensures LeftOpen(After(r, h, path), stage)
    decreases |path|
  {
    hide Guard, Apply, LeftOpen;
    if path != [] {
      LeftOpenStep(r, h, stage, path[0]);
      LeftOpenForever(r, Apply(r, h, path[0]), stage, path[1..]);
    }
  }

  /**
    A crash after overrides or a closure were saved leaves that stage without a
    successful outcome for ever, even in a request that goes on to succeed; the
    run that saved the fact may still conclude it, exactly once it has received
    it and its next number is free.
  */
  lemma OutcomeLostExactly(r: Request, start: Host, before: seq<Action>, h: Host, stage: Stage)
    requires Reached(r, start, before, h) && h.directory.Holding? && h.directory.journal.terminal.None?
    requires FactSaved(h.directory.journal, stage) && !StageSucceeded(h.directory.journal, stage)
    ensures forall path :: Allowed(r, Apply(r, h, Begin), path) ==>
              After(r, Apply(r, h, Begin), path).directory.Holding?
              && !StageSucceeded(After(r, Apply(r, h, Begin), path).directory.journal, stage)
    ensures Enabled(r, h, Put(Record(Event(stage, Outcome, true)))) <==>
              SavedNow(h, stage) && h.memory.stage == Some(stage) && h.memory.received && h.memory.failed.None?
              && h.memory.sequence !in h.leftovers
  {
    var again := Apply(r, h, Begin);
    assert LeftOpen(again, stage);
    forall path | Allowed(r, again, path)
      ensures After(r, again, path).directory.Holding? && !StageSucceeded(After(r, again, path).directory.journal, stage)
    {
      LeftOpenForever(r, again, stage, path);
    }
  }

  // ---- false answers -----------------------------------------------------

  lemma {:induction false} AllowedTwice(r: Request, h: Host, first: seq<Action>, second: seq<Action>)
    requires Allowed(r, h, first) && Allowed(r, After(r, h, first), second)
    ensures Allowed(r, h, first + second) && After(r, h, first + second) == After(r, After(r, h, first), second)
    decreases |first|
  {
    hide Guard, Apply;
    if first == [] {
      assert first + second == second;
    } else {
      assert (first + second)[0] == first[0] && (first + second)[1..] == first[1..] + second;
      AllowedTwice(r, Apply(r, h, first[0]), first[1..], second);
    }
  }

  lemma NextQuiet(r: Request, h: Host)
    requires Sound(r, h) && UnderWay(r, h) && h.service.Unloaded? && !Next(r, h).Dispatch?
    ensures Apply(r, h, Next(r, h)).service.Unloaded? && Apply(r, h, Next(r, h)).leftovers == h.leftovers
  {
    hide Sound, UnderWay, Guard;
    NextAdvances(r, h);
    NextNeverDies(r, h);
    ServiceKept(r, h, Next(r, h));
  }

  lemma NextNeverDies(r: Request, h: Host)
    ensures !Next(r, h).DieWriting?
  {
  }

  lemma ServiceKept(r: Request, h: Host, action: Action)
    requires Enabled(r, h, action) && h.service.Unloaded? && !action.Dispatch? && !action.DieWriting?
    ensures Apply(r, h, action).service.Unloaded? && Apply(r, h, action).leftovers == h.leftovers
  {
    if action.Put? { PutKeepsService(h, action.write); }
  }

  lemma PutKeepsService(h: Host, write: Write)
    ensures Written(h, write).service == h.service && Written(h, write).leftovers == h.leftovers
  {
    match h.directory
    case Absent =>
    case Empty =>
    case Holding(_) =>
      match write
      case First =>
      case Record(_) =>
      case SaveOverrides(_) =>
      case SaveClosure(_) =>
      case SaveRootReceipt =>
      case SetTerminal(_) =>
  }

  /** A boot-once request that is under way with no unit loaded comes to dispatch one. */
  lemma {:induction false} ReachesDispatch(r: Request, h: Host) returns (path: seq<Action>)
    requires Sound(r, h) && UnderWay(r, h) && r.mode.BootOnce? && h.service.Unloaded?
    ensures Allowed(r, h, path) && Sound(r, After(r, h, path)) && UnderWay(r, After(r, h, path))
    ensures Next(r, After(r, h, path)) == Dispatch(true, true) && After(r, h, path).leftovers == h.leftovers
    decreases Remaining(r, h)
  {
    hide Sound, Guard, Apply, UnderWay, Next, Remaining;
    NextAdvances(r, h);
    if Next(r, h).Dispatch? {
      DispatchIs(r, h);
      path := [];
    } else {
      StepSound(r, h, Next(r, h));
      NextQuiet(r, h);
      NotYet(r, Apply(r, h, Next(r, h)));
      var rest := ReachesDispatch(r, Apply(r, h, Next(r, h)));
      path := [Next(r, h)] + rest;
      assert path[1..] == rest;
    }
  }

  lemma DispatchIs(r: Request, h: Host)
    requires Next(r, h).Dispatch?
    ensures Next(r, h) == Dispatch(true, true)
  {
  }

  lemma NotYet(r: Request, h: Host)
    requires Sound(r, h) && r.mode.BootOnce? && h.service.Unloaded?
    ensures !HasSucceeded(h)
  {
    hide CallsAgree, Remembered, AnswerHolds, Bound;
  }

  /** A dispatch that takes effect and whose reply is lost, and a next run that gets as far as asking. */
  function LostReply(r: Request): seq<Action> {
    [Dispatch(false, true), Begin]
    + (if RemoteMode(r) then [UseConfiguration] else [])
    + [Put(Record(Event(BootOnceScheduled, Intent, true))), AskUnit(NotFound)]
  }

  lemma LostReplyRuns(r: Request, h: Host)
    requires Sound(r, h) && h.leftovers == {} && Enabled(r, h, Dispatch(true, true))
    ensures Allowed(r, h, LostReply(r))
    ensures var end := After(r, h, LostReply(r));
            end.service.Loaded? && end.memory.answer == Some(UnitAsked(NotFound)) && Enabled(r, end, Dispatch(false, false))
  {
    var j := h.directory.journal;
    var intent := Put(Record(Event(BootOnceScheduled, Intent, true)));
    var h2 := Apply(r, Apply(r, h, Dispatch(false, true)), Begin);
    LostReplyBegins(r, h, j);
    var h3 := if RemoteMode(r) then Apply(r, h2, UseConfiguration) else h2;
    AskedAgain(r, h3, j);
    hide Guard, Apply, Sound;
    var h4 := Apply(r, h3, intent);
    assert After(r, Apply(r, h4, AskUnit(NotFound)), []) == Apply(r, h4, AskUnit(NotFound));
    Took(r, h4, AskUnit(NotFound), []);
    assert [AskUnit(NotFound)] + [] == [AskUnit(NotFound)];
    Took(r, h3, intent, [AskUnit(NotFound)]);
    var tail := [intent] + [AskUnit(NotFound)];
    if RemoteMode(r) {
      Took(r, h2, UseConfiguration, tail);
      tail := [UseConfiguration] + tail;
    }
    Took(r, Apply(r, h, Dispatch(false, true)), Begin, tail);
    Took(r, h, Dispatch(false, true), [Begin] + tail);
    assert [Dispatch(false, true)] + ([Begin] + tail) == LostReply(r);
  }

  /** The next run finds everything as it was, and the unit loaded. */
  lemma LostReplyBegins(r: Request, h: Host, j: Journal)
    requires Sound(r, h) && h.leftovers == {} && Enabled(r, h, Dispatch(true, true)) && h.directory == Holding(j)
    ensures Enabled(r, h, Dispatch(false, true))
    ensures Enabled(r, Apply(r, h, Dispatch(false, true)), Begin)
    ensures var h2 := Apply(r, Apply(r, h, Dispatch(false, true)), Begin);
            var h3 := if RemoteMode(r) then Apply(r, h2, UseConfiguration) else h2;
            && (RemoteMode(r) ==> Enabled(r, h2, UseConfiguration))
            && h3.directory == Holding(j) && h3.service.Loaded? && h3.leftovers == {} && h3.memory.sequence == 0
            && h3.memory.stage.None? && !h3.memory.received && h3.memory.failed.None? && j.terminal.None?
            && Due(r, j) == Some(BootOnceScheduled) && PastRoot(r, h3, j)
  {
    hide CallsAgree, Concluded, AnswerHolds;
  }

  /** An intended stage past the root is under way, with everything outside as it was. */
  lemma IntendedAgain(r: Request, h: Host, j: Journal, stage: Stage)
    requires h.directory == Holding(j) && h.leftovers == {} && h.memory.sequence == 0
    requires h.memory.stage.None? && h.memory.failed.None? && j.terminal.None?
    requires Due(r, j) == Some(stage) && (stage == Copied || stage == BootOnceScheduled) && PastRoot(r, h, j)
    ensures Enabled(r, h, Put(Record(Event(stage, Intent, true))))
    ensures var h' := Apply(r, h, Put(Record(Event(stage, Intent, true))));
            && h'.directory.Holding? && h'.directory.journal.closure == j.closure
            && h'.service == h.service && h'.remote == h.remote
            && (!h.memory.received ==> At(r, h', h'.directory.journal, stage)) && PastRoot(r, h', h'.directory.journal)
  {
    hide Apply;
    RecordForm(r, h, Event(stage, Intent, true));
    Appended(j, Event(stage, Intent, true));
    assert Due(r, j.(events := j.events + [Event(stage, Intent, true)])) == Some(stage);
  }

  lemma AskedAgain(r: Request, h: Host, j: Journal)
    requires h.directory == Holding(j) && h.service.Loaded? && h.leftovers == {} && h.memory.sequence == 0
    requires h.memory.stage.None? && !h.memory.received && h.memory.failed.None? && j.terminal.None?
    requires Due(r, j) == Some(BootOnceScheduled) && PastRoot(r, h, j)
    ensures var intent := Put(Record(Event(BootOnceScheduled, Intent, true)));
            var h4 := Apply(r, h, intent); var end := Apply(r, h4, AskUnit(NotFound));
            && Enabled(r, h, intent) && Enabled(r, h4, AskUnit(NotFound))
            && end.service.Loaded? && end.memory.answer == Some(UnitAsked(NotFound)) && Enabled(r, end, Dispatch(false, false))
  {
    hide Due, Written, MayPut;
    IntendedAgain(r, h, j, BootOnceScheduled);
  }

  /**
    For every boot-once request and fresh host: a path on which the unit is
    loaded and a failing query lets the dispatch be issued again, to be refused.
  */
  lemma DispatchedTwice(r: Request, start: Host) returns (path: seq<Action>)
    requires Fresh(start) && start.root.None? && start.evidence.None? && r.mode.BootOnce?
    ensures Reached(r, start, path, After(r, start, path))
    ensures var end := After(r, start, path);
            && end.service.Loaded? && end.memory.answer == Some(UnitAsked(NotFound))
            && Enabled(r, end, Dispatch(false, false))
  {
    hide Guard, Apply, Sound, UnderWay, Next;
    FreshSound(r, start);
    FreshUnderWay(r, start);
    var first := ReachesDispatch(r, start);
    var mid := After(r, start, first);
    NextAdvances(r, mid);
    LostReplyRuns(r, mid);
    AllowedTwice(r, start, first, LostReply(r));
    path := first + LostReply(r);
  }

  // ---- the unit ----------------------------------------------------------

  /** A run at the scheduling of a unit that runs, with the given answer and journal. */
  predicate Scheduling(r: Request, h: Host, received: bool) {
    && h.directory.Holding? && h.directory.journal.terminal.None? && Due(r, h.directory.journal) == Some(BootOnceScheduled)
    && h.memory.stage == Some(BootOnceScheduled) && h.memory.received == received
    && h.memory.answer.Some? && h.memory.answer.value.UnitDispatched?
    && !StageSucceeded(h.directory.journal, BootOnceActivated)
    && h.service.Loaded? && h.service.progress == Running
  }

  /** From where the dispatch comes next: it succeeds and is recorded, and the unit runs. */
  lemma DispatchRecorded(r: Request, h: Host) returns (path: seq<Action>)
    requires Sound(r, h) && UnderWay(r, h) && Next(r, h) == Dispatch(true, true)
    ensures Allowed(r, h, path) && UnderWay(r, After(r, h, path)) && Recent(After(r, h, path))
  {
    hide Sound, Guard, Apply, UnderWay, Next, Remaining, Scheduling, HasSucceeded;
    var receipt, outcome := Put(Record(Event(BootOnceScheduled, Receipt, true))), Put(Record(Event(BootOnceScheduled, Outcome, true)));
    NextAdvances(r, h);
    StepSound(r, h, Dispatch(true, true));
    DispatchThen(r, h);
    var h1 := Apply(r, h, Dispatch(true, true));
    NextAdvances(r, h1);
    StepSound(r, h1, receipt);
    ReceiptThen(r, h1);
    var h2 := Apply(r, h1, receipt);
    NextAdvances(r, h2);
    OutcomeThen(r, h2);
    var h3 := Apply(r, h2, outcome);
    assert After(r, h3, []) == h3;
    Took(r, h2, outcome, []);
    Took(r, h1, receipt, [outcome] + []);
    Took(r, h, Dispatch(true, true), [receipt] + ([outcome] + []));
    path := [Dispatch(true, true)] + ([receipt] + ([outcome] + []));
  }

  /** The dispatch is recorded, the activation is not, and the unit runs. */
  predicate Recent(h: Host) {
    && h.directory.Holding? && h.directory.journal.terminal.None?
    && StageSucceeded(h.directory.journal, BootOnceScheduled) && !StageSucceeded(h.directory.journal, BootOnceActivated)
    && h.service.Loaded? && h.service.progress == Running
  }

  lemma DispatchThen(r: Request, h: Host)
    requires Sound(r, h) && UnderWay(r, h) && Next(r, h) == Dispatch(true, true)
    ensures var h1 := Apply(r, h, Dispatch(true, true));
            && Scheduling(r, h1, false) && !HasSucceeded(h1)
            && Next(r, h1) == Put(Record(Event(BootOnceScheduled, Receipt, true)))
  {
    hide CallsAgree, Concluded, AnswerHolds, Remembered, Bound;
  }

  lemma ReceiptThen(r: Request, h: Host)
    requires Scheduling(r, h, false)
    ensures var h1 := Apply(r, h, Put(Record(Event(BootOnceScheduled, Receipt, true))));
            && Scheduling(r, h1, true) && !HasSucceeded(h1)
            && Next(r, h1) == Put(Record(Event(BootOnceScheduled, Outcome, true)))
  {
    Appended(h.directory.journal, Event(BootOnceScheduled, Receipt, true));
  }

  lemma OutcomeThen(r: Request, h: Host)
    requires Scheduling(r, h, true)
    ensures var h1 := Apply(r, h, Put(Record(Event(BootOnceScheduled, Outcome, true))));
            Recent(h1) && !HasSucceeded(h1)
  {
    Appended(h.directory.journal, Event(BootOnceScheduled, Outcome, true));
  }

  /** Every boot-once request comes to where its unit runs, its dispatch is recorded, and nothing is in the way. */
  lemma ReachesRunning(r: Request, start: Host) returns (path: seq<Action>)
    requires Fresh(start) && start.root.None? && start.evidence.None? && r.mode.BootOnce?
    ensures Reached(r, start, path, After(r, start, path))
    ensures Recent(After(r, start, path)) && !Hopeless(r, After(r, start, path), false)
  {
    hide Guard, Apply, Sound, UnderWay, Next, Recent, Hopeless, Stuck;
    FreshSound(r, start);
    FreshUnderWay(r, start);
    var first := ReachesDispatch(r, start);
    var second := DispatchRecorded(r, After(r, start, first));
    AllowedTwice(r, start, first, second);
    path := first + second;
    var end := After(r, start, path);
    ReachedSound(r, start, path, end);
    NotStuckUnderWay(r, end);
    SucceedsUnlessStuck(r, start, path, end, false);
  }

  lemma NotStuckUnderWay(r: Request, h: Host)
    requires UnderWay(r, h) && Recent(h) && Sound(r, h)
    ensures !Stuck(r, h, false)
  {
    hide CallsAgree, Concluded, AnswerHolds, Remembered;
  }

  /**
    For every boot-once request: a path to a host from which the request can
    succeed, until its unit breaks. Then no later run succeeds, even if the
    machine loses the unit.
  */
  lemma BrokenUnitStrands(r: Request, start: Host) returns (path: seq<Action>)
    requires Fresh(start) && start.root.None? && start.evidence.None? && r.mode.BootOnce?
    ensures Reached(r, start, path, After(r, start, path)) && !Hopeless(r, After(r, start, path), false)
    ensures var end := Apply(r, After(r, start, path), ServiceMoves(Broken));
            && Reached(r, start, path + [ServiceMoves(Broken)], end)
            && StateOf(end.service) == UnitFailed && Hopeless(r, end, true)
  {
    path := ReachesRunning(r, start);
    UnitStrands(r, start, path, ServiceMoves(Broken));
  }

  /** The same with a unit that is lost, which the pipeline reads as not found and leaves to recovery. */
  lemma LostUnitStrands(r: Request, start: Host) returns (path: seq<Action>)
    requires Fresh(start) && start.root.None? && start.evidence.None? && r.mode.BootOnce?
    ensures Reached(r, start, path, After(r, start, path)) && !Hopeless(r, After(r, start, path), false)
    ensures var end := Apply(r, After(r, start, path), ServiceLost);
            && Reached(r, start, path + [ServiceLost], end)
            && StateOf(end.service) == NotFound && Hopeless(r, end, true)
  {
    path := ReachesRunning(r, start);
    UnitStrands(r, start, path, ServiceLost);
  }

  lemma UnitStrands(r: Request, start: Host, path: seq<Action>, action: Action)
    requires Reached(r, start, path, After(r, start, path)) && Recent(After(r, start, path))
    requires action == ServiceMoves(Broken) || action == ServiceLost
    ensures var end := Apply(r, After(r, start, path), action);
            && Reached(r, start, path + [action], end) && Hopeless(r, end, true)
            && StateOf(end.service) == (if action == ServiceLost then NotFound else UnitFailed)
  {
    hide Reached, Hopeless;
    var h := After(r, start, path);
    ReachedOn(r, start, path, h, action);
    SucceedsUnlessStuck(r, start, path + [action], Apply(r, h, action), true);
  }

  lemma FreshUnderWay(r: Request, start: Host)
    requires Fresh(start) && start.root.None? && start.evidence.None?
    ensures UnderWay(r, start)
  {
  }

  lemma RemoteKept(r: Request, h: Host, action: Action)
    requires Enabled(r, h, action) && !action.CopyClosure? && !action.DieWriting?
    ensures Apply(r, h, action).remote == h.remote && Apply(r, h, action).leftovers == h.leftovers
  {
    if action.Put? { PutKeepsRemote(h, action.write); }
  }

  lemma PutKeepsRemote(h: Host, write: Write)
    ensures Written(h, write).remote == h.remote && Written(h, write).leftovers == h.leftovers
  {
    match h.directory
    case Absent =>
    case Empty =>
    case Holding(_) =>
      match write
      case First =>
      case Record(_) =>
      case SaveOverrides(_) =>
      case SaveClosure(_) =>
      case SaveRootReceipt =>
      case SetTerminal(_) =>
  }

  lemma NotCopiedYet(r: Request, h: Host)
    requires Sound(r, h) && RemoteMode(r) && h.remote == {}
    ensures !HasSucceeded(h)
  {
    hide CallsAgree, Remembered, AnswerHolds;
  }

  lemma CopyIs(r: Request, h: Host)
    requires Next(r, h).CopyClosure?
    ensures Next(r, h) == CopyClosure(true, true)
  {
  }

  /** A remote request that is under way with nothing on the remote comes to copy. */
  lemma {:induction false} ReachesCopy(r: Request, h: Host) returns (path: seq<Action>)
    requires Sound(r, h) && UnderWay(r, h) && RemoteMode(r) && h.remote == {}
    ensures Allowed(r, h, path) && Sound(r, After(r, h, path)) && UnderWay(r, After(r, h, path))
    ensures Next(r, After(r, h, path)) == CopyClosure(true, true) && After(r, h, path).leftovers == h.leftovers
    decreases Remaining(r, h)
  {
    hide Sound, Guard, Apply, UnderWay, Next, Remaining;
    NextAdvances(r, h);
    if Next(r, h).CopyClosure? {
      CopyIs(r, h);
      path := [];
    } else {
      StepSound(r, h, Next(r, h));
      NextNeverDies(r, h);
      RemoteKept(r, h, Next(r, h));
      NotCopiedYet(r, Apply(r, h, Next(r, h)));
      var rest := ReachesCopy(r, Apply(r, h, Next(r, h)));
      path := [Next(r, h)] + rest;
      assert path[1..] == rest;
    }
  }

  /** A copy whose run dies before recording it, and a next run that gets as far as asking. */
  const COPY_AND_DIE: seq<Action> :=
    [CopyClosure(true, true), Begin, UseConfiguration, Put(Record(Event(Copied, Intent, true))), AskClosure(false)]

  lemma CopyBegins(r: Request, h: Host, j: Journal)
    requires Sound(r, h) && h.leftovers == {} && Enabled(r, h, CopyClosure(true, true)) && h.directory == Holding(j)
    ensures var h1 := Apply(r, h, CopyClosure(true, true)); var h2 := Apply(r, h1, Begin);
            var h3 := Apply(r, h2, UseConfiguration);
            && Enabled(r, h1, Begin) && Enabled(r, h2, UseConfiguration)
            && h3.directory == Holding(j) && j.closure.Some? && j.closure.value in h3.remote && h3.leftovers == {}
            && h3.memory.sequence == 0 && h3.memory.stage.None? && !h3.memory.received && h3.memory.failed.None?
            && j.terminal.None? && Due(r, j) == Some(Copied) && PastRoot(r, h3, j)
  {
    hide CallsAgree, Concluded, AnswerHolds;
  }

  lemma CopyAskedAgain(r: Request, h: Host, j: Journal)
    requires h.directory == Holding(j) && j.closure.Some? && h.leftovers == {} && h.memory.sequence == 0
    requires h.memory.stage.None? && !h.memory.received && h.memory.failed.None? && j.terminal.None?
    requires Due(r, j) == Some(Copied) && PastRoot(r, h, j)
    ensures var intent := Put(Record(Event(Copied, Intent, true)));
            var h4 := Apply(r, h, intent); var end := Apply(r, h4, AskClosure(false));
            && Enabled(r, h, intent) && Enabled(r, h4, AskClosure(false)) && end.remote == h.remote
            && end.memory.answer == Some(ClosureAsked(j.closure.value, false))
            && Enabled(r, end, CopyClosure(true, true))
  {
    hide Due, Written, MayPut;
    IntendedAgain(r, h, j, Copied);
  }

  lemma CopyAndDieRuns(r: Request, h: Host, j: Journal)
    requires Sound(r, h) && h.leftovers == {} && Enabled(r, h, CopyClosure(true, true)) && h.directory == Holding(j)
    ensures Allowed(r, h, COPY_AND_DIE) && j.closure.Some?
    ensures var end := After(r, h, COPY_AND_DIE);
            j.closure.value in end.remote && end.memory.answer == Some(ClosureAsked(j.closure.value, false))
            && Enabled(r, end, CopyClosure(true, true))
  {
    hide Guard, Apply, Sound;
    CopyBegins(r, h, j);
    var intent := Put(Record(Event(Copied, Intent, true)));
    var h1 := Apply(r, h, CopyClosure(true, true));
    var h2 := Apply(r, h1, Begin);
    var h3 := Apply(r, h2, UseConfiguration);
    CopyAskedAgain(r, h3, j);
    var h4 := Apply(r, h3, intent);
    assert After(r, Apply(r, h4, AskClosure(false)), []) == Apply(r, h4, AskClosure(false));
    Took(r, h4, AskClosure(false), []);
    assert [AskClosure(false)] + [] == [AskClosure(false)];
    Took(r, h3, intent, [AskClosure(false)]);
    Took(r, h2, UseConfiguration, [intent] + [AskClosure(false)]);
    Took(r, h1, Begin, [UseConfiguration] + ([intent] + [AskClosure(false)]));
    Took(r, h, CopyClosure(true, true), [Begin] + ([UseConfiguration] + ([intent] + [AskClosure(false)])));
    assert [CopyClosure(true, true)] + ([Begin] + ([UseConfiguration] + ([intent] + [AskClosure(false)]))) == COPY_AND_DIE;
  }

  /**
    For every remote request and fresh host with nothing on the remote: a path
    on which the closure is there and a failing query lets the copy be issued again.
  */
  lemma CopiedTwice(r: Request, start: Host) returns (path: seq<Action>, closure: string)
    requires Fresh(start) && start.root.None? && start.evidence.None? && RemoteMode(r) && start.remote == {}
    ensures Reached(r, start, path, After(r, start, path))
    ensures var end := After(r, start, path);
            && closure in end.remote && end.memory.answer == Some(ClosureAsked(closure, false))
            && Enabled(r, end, CopyClosure(true, true))
  {
    hide Guard, Apply, Sound, UnderWay, Next;
    FreshSound(r, start);
    FreshUnderWay(r, start);
    var first := ReachesCopy(r, start);
    var mid := After(r, start, first);
    NextAdvances(r, mid);
    CopyIsHolding(r, mid);
    CopyAndDieRuns(r, mid, mid.directory.journal);
    AllowedTwice(r, start, first, COPY_AND_DIE);
    path, closure := first + COPY_AND_DIE, mid.directory.journal.closure.value;
  }

  lemma CopyIsHolding(r: Request, h: Host)
    requires Enabled(r, h, CopyClosure(true, true))
    ensures h.directory.Holding?
  {
  }
}
