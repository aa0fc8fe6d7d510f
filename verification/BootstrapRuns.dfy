/**
  The bootstrap pipeline as it runs. A run reads the host, takes one action
  after another, may die before any of them or in the middle of a journal
  write, and is told by the outside what its commands did. Every method is
  proved to take only enabled actions, so what holds of all paths of actions
  holds of any number of these runs.
*/
module BootstrapRuns {
  import opened Options
  import opened BootstrapModel
  import opened BootstrapSafety
  import opened BootstrapResults
  import opened BootstrapProgress

  datatype Refusal =
    | OutputExists | JournalUnreadable | HandoffCollision | StagingChanged | ConfigurationOpen | TemporaryExists
    | RootTaken | RootChanged | ReceiptChanged | EvidenceChanged

  /** How a part of a run went. */
  datatype Ending =
    | Went
    | Crashed
    | RecoveryPending
    | EffectFailed(stage: Stage)
    | Refused(refusal: Refusal)
    | Ended(status: Status)
  {
    predicate IsFailure() {
      !Went?
    }

    function PropagateFailure(): Ending
      requires IsFailure()
    {
      this
    }
  }

  /** A run is executing and between stages. */
  predicate Standing(h: Host) {
    && h.directory.Holding? && h.directory.journal.terminal.None? && h.memory.failed.None? && !h.memory.noted
    && h.memory.stage.None? && !h.memory.received
  }

  /** The run has looked at the configuration, or begun to make it. */
  predicate Configuring(h: Host) {
    h.memory.configured || h.memory.madeConfiguration
  }

  /** A run is executing a stage it has intended and not received. */
  predicate Amid(r: Request, h: Host, stage: Stage) {
    h.directory.Holding? && At(r, h, h.directory.journal, stage) && !h.memory.noted
  }

  /** A failed effect is remembered; a refusal says which window the host is in, or which number is taken. */
  ghost predicate Explained(r: Request, ending: Ending, h: Host) {
    match ending
    case EffectFailed(stage) => Fails(h, stage)
    case Ended(_) => false
    case Refused(refusal) =>
      || Stuck(r, h, true)
      || (refusal == TemporaryExists && h.memory.sequence in h.leftovers)
      || (refusal == StagingChanged && Amid(r, h, GcRooted) && h.staging.None?)
    case _ => true
  }

  /** Refusals that no reachable host gives cause for. */
  predicate NeverGiven(ending: Ending) {
    ending.Refused? && ending.refusal in {RootTaken, RootChanged, ReceiptChanged, EvidenceChanged}
  }

  /** A journal write is due, if only its number is free. */
  predicate Writable(r: Request, h: Host, write: Write) {
    match h.directory
    case Absent => false
    case Empty => write == First && h.memory.madeDirectory && !h.memory.rootSeen && !h.memory.evidenceSeen
    case Holding(j) => MayWrite(r, h, j, write)
  }

  /** Nothing outside the journal directory has changed. */
  predicate Still(h: Host, h': Host) {
    && h'.calls == h.calls && h'.staging == h.staging && h'.root == h.root && h'.configuration == h.configuration
    && h'.remote == h.remote && h'.service == h.service && h'.evidence == h.evidence && h'.inputs == h.inputs
  }

  /** What a journal write leaves: the one fact it is for, as given, and every other as it was. */
  ghost predicate WriteLeft(h: Host, h': Host, write: Write) {
    && Still(h, h') && h'.leftovers == h.leftovers && h'.memory.sequence == h.memory.sequence + 1
    && h'.directory.Holding?
    && var j' := h'.directory.journal;
       match h.directory
       case Absent => false
       case Empty =>
         && j'.events == [Event(JournalCreated, Outcome, true)] && j'.overrides.None? && j'.closure.None?
         && j'.rootReceipt.None? && j'.terminal.None?
       case Holding(j) =>
         && j'.events == (if write.Record? then j.events + [write.event] else j.events)
         && j'.overrides == (if write.SaveOverrides? then Some(write.overrides) else j.overrides)
         && j'.closure == (if write.SaveClosure? then Some(write.closure) else j.closure)
         && j'.rootReceipt == (if write.SaveRootReceipt? then j.closure else j.rootReceipt)
         && j'.terminal == (if write.SetTerminal? then Some(write.status) else j.terminal)
  }

  lemma WriteLeaves(r: Request, h: Host, write: Write)
    requires Writable(r, h, write)
    ensures WriteLeft(h, Written(h, write), write)
  {
    match write
    case First =>
    case Record(_) =>
    case SaveOverrides(_) =>
    case SaveClosure(_) =>
    case SaveRootReceipt =>
    case SetTerminal(_) =>
  }

  lemma WriteStill(h: Host, write: Write)
    ensures Still(h, Written(h, write))
  {
    match h.directory
    case Absent =>
    case Empty =>
    case Holding(_) =>
      match write
      case First =>
      case Record(_) =>
      case SaveOverrides(_) =>
      case SaveClosure(_) =>
      case SaveRootReceipt =>
      case SetTerminal(_) =>
  }

  lemma RootStaysBound(r: Request, h: Host)
    requires Sound(r, h) && h.directory.Holding? && StageSucceeded(h.directory.journal, GcRooted)
    ensures Rooted(h, h.directory.journal) && h.staging.None?
  {
    hide CallsAgree, Concluded, Remembered, AnswerHolds;
  }

  lemma RootBindsClosure(r: Request, h: Host)
    requires Sound(r, h) && h.directory.Holding? && h.root.Some?
    ensures h.root == h.directory.journal.closure
  {
    hide CallsAgree, Concluded, Remembered, Chained, AnswerHolds;
  }

  /** The same journal but for its events, with the same stages concluded except perhaps one. */
  predicate SameJournal(h: Host, h': Host, concluded: Option<Stage>) {
    && h.directory.Holding? && h'.directory.Holding?
    && h'.directory.journal == h.directory.journal.(events := h'.directory.journal.events)
    && forall stage :: StageSucceeded(h'.directory.journal, stage) <==>
         StageSucceeded(h.directory.journal, stage) || concluded == Some(stage)
  }

  function Intended(h: Host, stage: Stage): Host {
    Written(h, Record(Event(stage, Intent, true)))
  }

  function Received(h: Host, stage: Stage): Host {
    Written(h, Record(Event(stage, Receipt, true)))
  }

  function ConcludedAt(h: Host, stage: Stage): Host {
    Written(Received(h, stage), Record(Event(stage, Outcome, true)))
  }

  lemma IntentForm(h: Host, stage: Stage)
    requires Standing(h)
    ensures var j := h.directory.journal;
            Intended(h, stage) == h.(
              directory := Holding(j.(events := j.events + [Event(stage, Intent, true)])),
              memory := h.memory.(stage := Some(stage), sequence := h.memory.sequence + 1))
  {
  }

  lemma SavesIntended(h: Host, stage: Stage)
    ensures Written(h, Record(Event(stage, Intent, true))) == Intended(h, stage)
  {
  }

  /** What a run is at once it has intended the stage that is due. */
  lemma IntentGives(r: Request, h: Host, stage: Stage)
    requires Standing(h) && Due(r, h.directory.journal) == Some(stage)
    ensures var h' := Intended(h, stage);
            && Amid(r, h', stage) && SameJournal(h, h', None) && Still(h, h') && h'.leftovers == h.leftovers
            && h'.memory == h.memory.(stage := Some(stage), sequence := h.memory.sequence + 1)
            && (PastRoot(r, h, h.directory.journal) ==> PastRoot(r, h', h'.directory.journal))
  {
    hide Intended;
    IntentForm(h, stage);
    var j := h.directory.journal;
    Appended(j, Event(stage, Intent, true));
    assert Due(r, j.(events := j.events + [Event(stage, Intent, true)])) == Due(r, j);
  }

  /** A run at a stage with what the stage needs. */
  predicate Ripe(r: Request, h: Host, stage: Stage) {
    && h.directory.Holding? && Executing(h, h.directory.journal) && Concludable(r, h, h.directory.journal, stage)
    && h.memory.stage == Some(stage) && !h.memory.received && !h.memory.noted && stage != TerminalEvidenceWritten
  }

  /** The receipt takes nothing from what the outcome needs. */
  lemma ReceiptLeaves(r: Request, h: Host, stage: Stage)
    requires Ripe(r, h, stage)
    ensures Writable(r, h, Record(Event(stage, Receipt, true)))
    ensures Writable(r, Received(h, stage), Record(Event(stage, Outcome, true)))
    ensures Still(h, Received(h, stage))
  {
    var j := h.directory.journal;
    Appended(j, Event(stage, Receipt, true));
    assert Due(r, j.(events := j.events + [Event(stage, Receipt, true)])) == Due(r, j);
  }

  /** What a run is at once it has received and concluded a stage. */
  lemma ConclusionGives(r: Request, h: Host, stage: Stage)
    requires Ripe(r, h, stage)
    ensures var h' := ConcludedAt(h, stage);
            && Standing(h') && SameJournal(h, h', Some(stage)) && Still(h, h') && h'.leftovers == h.leftovers
            && h'.memory.configured == h.memory.configured && h'.memory.madeConfiguration == h.memory.madeConfiguration
            && (PastRoot(r, h, h.directory.journal) ==> PastRoot(r, h', h'.directory.journal))
  {
    var j := h.directory.journal;
    Appended(j, Event(stage, Receipt, true));
    Appended(j.(events := j.events + [Event(stage, Receipt, true)]), Event(stage, Outcome, true));
  }

  /** Saving a stage's fact leaves it ripe. */
  lemma FactGives(r: Request, h: Host, write: Write)
    requires h.directory.Holding? && MayWrite(r, h, h.directory.journal, write) && !h.memory.noted
    requires write.SaveOverrides? || write.SaveClosure?
    ensures var h' := Written(h, write);
            && Ripe(r, h', if write.SaveOverrides? then Materialized else Built) && Still(h, h')
            && h'.memory.configured == h.memory.configured && h'.memory.madeConfiguration == h.memory.madeConfiguration
            && (if write.SaveOverrides? then h'.directory.journal.overrides.Some? else h'.directory.journal.closure.Some?)
  {
  }

  lemma RootReceiptGives(r: Request, h: Host)
    requires h.directory.Holding? && MayWrite(r, h, h.directory.journal, SaveRootReceipt) && !h.memory.noted
    ensures var h' := Written(h, SaveRootReceipt);
            && Ripe(r, h', GcRooted) && RootBound(h', h'.directory.journal) && Still(h, h')
            && h'.memory.configured == h.memory.configured && h'.memory.madeConfiguration == h.memory.madeConfiguration
  {
    var j := h.directory.journal;
    SameStages(j, j.(rootReceipt := j.closure));
    assert Due(r, j.(rootReceipt := j.closure)) == Due(r, j);
  }

  // ---- what each effect gives --------------------------------------------

  /** A failed effect of this stage is remembered, and nothing is yet noted of it. */
  predicate Fails(h: Host, stage: Stage) {
    h.directory.Holding? && h.directory.journal.terminal.None? && h.memory.failed == Some(stage) && !h.memory.noted
  }

  /** The journal is as it was, and so is what this run knows of the configuration. */
  predicate Keeps(h: Host, h': Host) {
    && h'.directory == h.directory && h'.memory.configured == h.memory.configured
    && h'.memory.madeConfiguration == h.memory.madeConfiguration
  }

  lemma MaterializingGives(r: Request, h: Host)
    requires Amid(r, h, Materialized)
    ensures r.input == Horizon ==>
              Enabled(r, h, FailMaterializing) && Fails(Apply(r, h, FailMaterializing), Materialized)
    ensures r.input == Horizon && !h.inputs ==>
              var h' := Apply(r, h, MakeInputs);
              && Enabled(r, h, MakeInputs) && Amid(r, h', Materialized) && h'.memory.madeInputs && Keeps(h, h')
              && (Unhindered(r, h) ==> Unhindered(r, h'))
  {
  }

  lemma DirectSavesNothing(r: Request, h: Host)
    requires Sound(r, h) && h.directory.Holding? && h.directory.journal.overrides.Some?
    ensures r.input == Direct ==> h.directory.journal.overrides == Some([])
  {
    hide CallsAgree, Concluded, Remembered, Bound, AnswerHolds;
  }

  lemma SavedWasPrinted(r: Request, h: Host)
    requires Sound(r, h) && h.directory.Holding? && h.directory.journal.closure.Some?
    ensures h.directory.journal.overrides.Some?
    ensures BuildRun(h.directory.journal.overrides.value, h.directory.journal.closure) in h.calls
  {
    hide CallsAgree, Concluded, Remembered, Bound, AnswerHolds;
  }

  lemma OverridesGive(r: Request, h: Host, overrides: seq<string>)
    requires Amid(r, h, Materialized) && (if r.input == Horizon then h.memory.madeInputs else overrides == [])
    ensures MayWrite(r, h, h.directory.journal, SaveOverrides(overrides)) && !h.memory.noted
  {
  }

  lemma TestGives(r: Request, h: Host, passed: bool)
    requires Amid(r, h, Tested)
    ensures var h' := Apply(r, h, RunTest(passed));
            && Enabled(r, h, RunTest(passed)) && Keeps(h, h') && (Unhindered(r, h) ==> Unhindered(r, h'))
            && (if passed then Ripe(r, h', Tested) else Fails(h', Tested))
  {
  }

  lemma BuildGives(r: Request, h: Host, printed: Option<string>)
    requires Amid(r, h, Built)
    ensures var h' := Apply(r, h, Build(printed));
            && Enabled(r, h, Build(printed)) && Keeps(h, h') && (Unhindered(r, h) ==> Unhindered(r, h'))
            && BuildRun(SavedOverrides(h.directory.journal), printed) in h'.calls
            && (if printed.Some?
                then h'.directory.Holding? && !h'.memory.noted
                     && MayWrite(r, h', h'.directory.journal, SaveClosure(printed.value))
                else Fails(h', Built))
  {
  }

  lemma RootGives(r: Request, h: Host, succeeded: bool, link: Option<string>)
    requires Amid(r, h, GcRooted) && h.staging.None? && h.root.None?
    ensures var h' := Apply(r, h, MakeRoot(succeeded, link));
            && Enabled(r, h, MakeRoot(succeeded, link)) && Keeps(h, h') && h'.root == h.root && h'.staging == link
            && h'.leftovers == h.leftovers && h'.configuration == h.configuration && h'.service == h.service
            && h'.memory.savedRoot == h.memory.savedRoot
            && (if succeeded then Amid(r, h', GcRooted) else Fails(h', GcRooted))
  {
  }

  lemma AskClosureGives(r: Request, h: Host, present: bool)
    requires Amid(r, h, Copied) && PastRoot(r, h, h.directory.journal)
    requires present ==> h.directory.journal.closure.value in h.remote
    ensures var h' := Apply(r, h, AskClosure(present));
            && Enabled(r, h, AskClosure(present)) && Keeps(h, h') && (Unhindered(r, h) ==> Unhindered(r, h')) && PastRoot(r, h', h'.directory.journal)
            && (present ==> Ripe(r, h', Copied)) && Amid(r, h', Copied)
            && h'.memory.answer == Some(ClosureAsked(h.directory.journal.closure.value, present))
  {
  }

  lemma CopyGives(r: Request, h: Host, succeeded: bool, landed: bool)
    requires Amid(r, h, Copied) && PastRoot(r, h, h.directory.journal)
    requires h.memory.answer == Some(ClosureAsked(h.directory.journal.closure.value, false))
    ensures var h' := Apply(r, h, CopyClosure(succeeded, landed));
            && Enabled(r, h, CopyClosure(succeeded, landed)) && Keeps(h, h') && (Unhindered(r, h) ==> Unhindered(r, h')) && PastRoot(r, h', h'.directory.journal)
            && (if succeeded then Ripe(r, h', Copied) else Fails(h', Copied))
  {
  }

  lemma AskUnitGives(r: Request, h: Host, state: UnitState)
    requires Amid(r, h, BootOnceScheduled) && PastRoot(r, h, h.directory.journal) && MayAnswer(h.service, state)
    ensures var h' := Apply(r, h, AskUnit(state));
            && h'.service == h.service && Enabled(r, h, AskUnit(state)) && Keeps(h, h') && (Unhindered(r, h) ==> Unhindered(r, h')) && PastRoot(r, h', h'.directory.journal)
            && Amid(r, h', BootOnceScheduled) && h'.memory.answer == Some(UnitAsked(state))
            && (state != NotFound ==> Ripe(r, h', BootOnceScheduled))
  {
  }

  lemma DispatchGives(r: Request, h: Host, succeeded: bool, landed: bool)
    requires Amid(r, h, BootOnceScheduled) && PastRoot(r, h, h.directory.journal)
    requires h.memory.answer == Some(UnitAsked(NotFound)) && (h.service.Loaded? ==> !succeeded && !landed)
    ensures var h' := Apply(r, h, Dispatch(succeeded, landed));
            && (succeeded ==> Sturdy(h'.service) && (Unhindered(r, h) ==> Unhindered(r, h')))
            && Enabled(r, h, Dispatch(succeeded, landed)) && Keeps(h, h') && PastRoot(r, h', h'.directory.journal)
            && (succeeded ==> Ripe(r, h', BootOnceScheduled))
  {
  }

  /** After the terminal, at the writing of evidence. */
  predicate Noting(h: Host, status: Status) {
    && h.directory.Holding? && h.directory.journal.terminal == Some(status)
    && !StageSucceeded(h.directory.journal, TerminalEvidenceWritten)
    && h.memory.stage == Some(TerminalEvidenceWritten) && !h.memory.received
  }

  /** Where a run stands does not depend on the unit. */
  lemma StandsAlike(r: Request, h: Host, service: Service, stage: Stage)
    requires Amid(r, h, stage) && PastRoot(r, h, h.directory.journal)
    ensures Amid(r, h.(service := service), stage) && PastRoot(r, h.(service := service), h.directory.journal)
  {
  }

  lemma AnswerMayBe(service: Service, fails: bool)
    ensures MayAnswer(service, if fails then NotFound else StateOf(service))
  {
  }

  lemma PollGives(r: Request, h: Host, state: UnitState)
    requires Amid(r, h, BootOnceActivated) && PastRoot(r, h, h.directory.journal) && MayAnswer(h.service, state)
    ensures Enabled(r, h, ObserveUnit(state))
    ensures var h' := Apply(r, h, ObserveUnit(state));
            && h'.directory == h.directory && h'.root == h.root && h'.service == h.service
            && h'.calls == h.calls + [UnitSeen(state)]
            && (Unhindered(r, h) ==> Unhindered(r, h'))
            && h'.memory == h.memory.(answer := Some(UnitSeen(state)),
                 failed := if state == UnitFailed then Some(BootOnceActivated) else None)
  {
  }

  lemma ConfigurationGives(r: Request, h: Host, private: bool)
    requires Sound(r, h) && Standing(h) && Rooted(h, h.directory.journal) && RemoteMode(r) && !Configuring(h)
    requires h.configuration.NoConfiguration?
    ensures var h1 := Apply(r, h, MakeConfiguration(private)); var h2 := Apply(r, h1, CloseConfiguration);
            var h3 := Apply(r, h2, WriteConfiguration);
            && Enabled(r, h, MakeConfiguration(private)) && Enabled(r, h1, CloseConfiguration) && Enabled(r, h2, WriteConfiguration)
            && Standing(h3) && PastRoot(r, h3, h3.directory.journal) && h3.directory == h.directory
            && (Unhindered(r, h) ==> Unhindered(r, h3))
  {
    hide Chained, Bound, CallsAgree, Concluded, AnswerHolds;
  }

  lemma UseGives(r: Request, h: Host)
    requires Standing(h) && Rooted(h, h.directory.journal) && RemoteMode(r) && !Configuring(h)
    requires h.configuration.Configuration? && h.configuration.private
    ensures var h' := Apply(r, h, UseConfiguration);
            && Enabled(r, h, UseConfiguration) && Standing(h') && PastRoot(r, h', h'.directory.journal)
            && h'.directory == h.directory && (Unhindered(r, h) ==> Unhindered(r, h'))
  {
  }

  lemma ElapseGives(r: Request, h: Host)
    ensures h.service.Loaded? ==>
              Enabled(r, h, ServiceLost) && Apply(r, h, ServiceLost) == h.(service := Gone(h.service.closure))
    ensures forall progress :: MayMove(h.service, progress) ==>
              && Enabled(r, h, ServiceMoves(progress))
              && Apply(r, h, ServiceMoves(progress)) == h.(service := h.service.(progress := progress))
  {
  }

  lemma NoteGives(r: Request, h: Host, status: Status)
    requires h.directory.Holding? && h.directory.journal.terminal == Some(status)
    requires !StageSucceeded(h.directory.journal, TerminalEvidenceWritten) && h.memory.stage.None? && !h.memory.received
    ensures Writable(r, h, Record(Event(TerminalEvidenceWritten, Intent, true)))
    ensures var h' := Intended(h, TerminalEvidenceWritten);
            Noting(h', status) && Still(h, h') && h'.memory.evidenceSeen == h.memory.evidenceSeen
  {
    Appended(h.directory.journal, Event(TerminalEvidenceWritten, Intent, true));
  }

  lemma LinkGives(r: Request, h: Host, status: Status)
    requires Noting(h, status) && !h.memory.evidenceSeen && h.evidence.None?
    ensures var h' := Apply(r, h, LinkEvidence);
            && Enabled(r, h, LinkEvidence) && h'.leftovers == h.leftovers && Noting(h', status) && EvidenceMatches(r, h', h'.directory.journal)
  {
    hide Outcomes;
  }

  lemma NotedGives(r: Request, h: Host, status: Status)
    requires Noting(h, status) && EvidenceMatches(r, h, h.directory.journal)
    ensures Writable(r, h, Record(Event(TerminalEvidenceWritten, Receipt, true)))
    ensures Writable(r, Received(h, TerminalEvidenceWritten), Record(Event(TerminalEvidenceWritten, Outcome, true)))
    ensures var h' := ConcludedAt(h, TerminalEvidenceWritten);
            && h'.directory.Holding? && h'.directory.journal.terminal == Some(status)
            && StageSucceeded(h'.directory.journal, TerminalEvidenceWritten) && h'.evidence == h.evidence
  {
    var j := h.directory.journal;
    Appended(j, Event(TerminalEvidenceWritten, Receipt, true));
    Appended(j.(events := j.events + [Event(TerminalEvidenceWritten, Receipt, true)]),
             Event(TerminalEvidenceWritten, Outcome, true));
  }

  // ---- what a sound host gives -------------------------------------------

  /** A saved closure comes after the overrides and the planned tests. */
  lemma ClosureComesAfter(r: Request, h: Host)
    requires Sound(r, h) && h.directory.Holding? && h.directory.journal.closure.Some?
    ensures h.directory.journal.overrides.Some? && TestsPassed(r, h.directory.journal)
  {
    hide CallsAgree, Concluded, Remembered, Bound, AnswerHolds;
  }

  /** A scheduled unit comes after the root and, for a remote, the copy; an activated one after the schedule. */
  lemma ScheduleComesAfter(r: Request, h: Host)
    requires Sound(r, h) && h.directory.Holding?
    ensures var j := h.directory.journal;
            && (StageSucceeded(j, BootOnceScheduled) && RemoteMode(r) ==> StageSucceeded(j, Copied))
            && (StageSucceeded(j, BootOnceActivated) ==> StageSucceeded(j, BootOnceScheduled))
  {
    hide CallsAgree, Concluded, Remembered, AnswerHolds;
  }

  /** Evidence found by a later run is this request's own, with the journal's status. */
  lemma EvidenceAgrees(r: Request, h: Host)
    requires Sound(r, h) && h.directory.Holding?
    ensures h.evidence.Some? ==>
              h.directory.journal.terminal == Some(h.evidence.value.status) && h.evidence.value.hash == r.hash
    ensures StageSucceeded(h.directory.journal, TerminalEvidenceWritten) ==> h.evidence.Some?
  {
    hide CallsAgree, Chained, Bound, Remembered, AnswerHolds;
    var events := h.directory.journal.events;
    if StageSucceeded(h.directory.journal, TerminalEvidenceWritten) {
      var i :| 0 <= i < |events| && events[i] == Event(TerminalEvidenceWritten, Outcome, true);
      assert EvidenceOutcome(events[i]);
    }
  }

  lemma EvidenceFollowsTerminal(r: Request, h: Host)
    requires Sound(r, h) && h.directory.Holding? && h.directory.journal.terminal.None?
    ensures h.evidence.None? && !h.memory.evidenceSeen && !StageSucceeded(h.directory.journal, TerminalEvidenceWritten)
    ensures h.memory.failed.Some? ==> h.memory.failed.value != TerminalEvidenceWritten
  {
    hide CallsAgree, Chained, Bound, AnswerHolds;
  }

  /** The last `polls` calls asked after the unit, and nothing else was asked. */
  predicate Polled(before: seq<Call>, calls: seq<Call>, polls: nat) {
    && |calls| == |before| + polls && calls[..|before|] == before
    && forall i :: |before| <= i < |calls| ==> calls[i].UnitSeen?
  }

  /** The last answer was that there is no unit, or all thirty were that it is not done. */
  predicate NotReadyYet(calls: seq<Call>, polls: nat) {
    && 0 < polls <= |calls|
    && (calls[|calls| - 1] == UnitSeen(NotFound)
        || (polls == 30 && forall i :: |calls| - 30 <= i < |calls| ==> calls[i] == UnitSeen(Waiting)))
  }

  lemma NotReady(calls: seq<Call>, polls: nat)
    requires 0 < polls <= |calls|
    requires || calls[|calls| - 1] == UnitSeen(NotFound)
             || (polls == 30 && forall i :: |calls| - polls <= i < |calls| ==> calls[i] == UnitSeen(Waiting))
    ensures NotReadyYet(calls, polls)
  {
  }

  lemma StillCalls(h: Host, h': Host)
    requires Still(h, h')
    ensures h'.calls == h.calls
  {
  }

  // ---- a favoured run ----------------------------------------------------

  /** Nothing is in the way of a run from here on, beyond inputs generated and not saved. */
  ghost predicate Unhindered(r: Request, h: Host) {
    && h.directory.Holding? && h.directory.journal.terminal.None? && h.leftovers == {}
    && !HandoffRefused(h, h.directory.journal) && !ConfigurationRefused(r, h)
    && !UnitUnready(h, h.directory.journal, false)
  }

  /** A stage intended or concluded hinders nothing, if a unit recorded as scheduled is there. */
  lemma StagesUnhindered(r: Request, h: Host, h': Host, concluded: Option<Stage>)
    requires Unhindered(r, h) && Still(h, h') && SameJournal(h, h', concluded) && h'.leftovers == h.leftovers
    requires concluded == Some(BootOnceScheduled) ==> h.service.Loaded?
    ensures Unhindered(r, h')
  {
  }

  predicate SavesFact(write: Write) {
    write.SaveOverrides? || write.SaveClosure? || write.SaveRootReceipt?
  }

  lemma LeftoversKept(r: Request, h: Host, write: Write)
    requires Writable(r, h, write)
    ensures Written(h, write).leftovers == h.leftovers
  {
    WriteLeaves(r, h, write);
  }

  lemma FactUnhindered(r: Request, h: Host, write: Write)
    requires Sound(r, h) && Unhindered(r, h) && Writable(r, h, write)
    requires SavesFact(write)
    ensures Unhindered(r, Written(h, write))
  {
    hide CallsAgree, Concluded, Remembered, Chained, AnswerHolds;
    SameStages(h.directory.journal, Written(h, write).directory.journal);
  }

  /** So does what is asked or done outside, but for links, the configuration and the unit. */
  lemma EffectsUnhindered(r: Request, h: Host, h': Host)
    requires Unhindered(r, h) && h'.directory == h.directory && h'.leftovers == h.leftovers
    requires h'.staging == h.staging && h'.root == h.root && h'.configuration == h.configuration
    requires h'.service == h.service || (h'.service.Loaded? && h'.service.progress != Broken)
    ensures Unhindered(r, h')
  {
  }

  /** Between intent and receipt nothing is left in the way of the links once they are handed on. */
  lemma LinksUnhindered(r: Request, h: Host, h': Host)
    requires Unhindered(r, h) && h'.directory == h.directory && h'.leftovers == h.leftovers
    requires h'.staging.None? && h'.configuration == h.configuration && h'.service == h.service
    ensures Unhindered(r, h')
  {
  }

  /** The unit, at work and not broken. */
  predicate Sturdy(service: Service) {
    service.Loaded? && service.progress != Broken
  }

  lemma ClearIsFree(r: Request, h: Host)
    ensures Unhindered(r, h) ==> h.leftovers == {} && h.directory.Holding? && h.directory.journal.terminal.None?
  {
  }

  lemma ClearLinks(r: Request, h: Host)
    ensures Unhindered(r, h) && !StageSucceeded(h.directory.journal, GcRooted) && h.staging.Some? ==>
              h.root.None? && h.staging == h.directory.journal.closure
  {
  }

  lemma ClearUnit(r: Request, h: Host)
    ensures Unhindered(r, h) && h.service.Loaded? && !StageSucceeded(h.directory.journal, BootOnceActivated) ==> Sturdy(h.service)
  {
  }

  /** Scheduled, not activated and not in the way: the unit is there and not broken. */
  lemma ClearIsSturdy(r: Request, h: Host)
    requires Sound(r, h) && Unhindered(r, h) && StageSucceeded(h.directory.journal, BootOnceScheduled)
    requires !StageSucceeded(h.directory.journal, BootOnceActivated)
    ensures Sturdy(h.service)
  {
    hide CallsAgree, Concluded, Remembered, AnswerHolds, Bound;
  }

  lemma TerminalOrNot(h: Host)
    ensures h.directory.Holding? && h.directory.journal.terminal.Some? ==>
              h.directory.journal.terminal == Some(Succeeded) || h.directory.journal.terminal == Some(Failed)
  {
    if h.directory.Holding? && h.directory.journal.terminal.Some? {
      match h.directory.journal.terminal.value
      case Succeeded =>
      case Failed =>
    }
  }

  /** Whether a host is stuck does not depend on what a run remembers. */
  lemma BegunAlike(r: Request, h: Host)
    ensures Stuck(r, Apply(r, h, Begin), false) <==> Stuck(r, h, false)
    ensures Apply(r, h, Begin).leftovers == h.leftovers && Apply(r, h, Begin).directory == h.directory
  {
  }

  class BootstrapRun {
    /** Whether this process is not killed, its commands succeed and its questions are answered as things stand. */
    const favoured: bool
    const request: Request
    var host: Host
    ghost const start: Host
    ghost var path: seq<Action>

    ghost predicate Valid()
      reads this
    {
      Reached(request, start, path, host) && Sound(request, host)
    }

    constructor (request: Request, host: Host, favoured: bool)
      requires Fresh(host)
      ensures Valid() && this.request == request && this.host == host && this.favoured == favoured
    {
      this.request, this.host, this.start, this.path, this.favoured := request, host, host, [], favoured;
      new;
      FreshSound(request, host);
    }

    /** Something that goes wrong, or does not. */
    method Mishap() returns (happens: bool)
      ensures favoured ==> !happens
    {
      happens := *;
      if favoured { happens := false; }
    }

    method Take(action: Action)
      requires Valid() && Enabled(request, host, action)
      modifies this
      ensures Valid() && path == old(path) + [action] && host == Apply(request, old(host), action)
    {
      hide Sound, Guard, Apply;
      PathAppended(request, start, path, action);
      StepSound(request, host, action);
      host := Apply(request, host, action);
      path := path + [action];
    }

    /** Take an effect or ask a question, unless the process dies first. */
    method Do(action: Action) returns (ending: Ending)
      requires Valid() && Enabled(request, host, action)
      modifies this
      ensures Valid() && old(path) <= path
      ensures (ending.Crashed? && host == old(host)) || (ending.Went? && host == Apply(request, old(host), action))
      ensures favoured ==> ending.Went?
    {
      var dies := Mishap();
      if dies { return Crashed; }
      Take(action);
      ending := Went;
    }

    /**
      Write the journal: create the numbered temporary, refused when a dead run
      left one of that number, and rename it. The process may die before or
      between the two.
    */
    method Save(write: Write) returns (ending: Ending)
      requires Valid() && Writable(request, host, write)
      modifies this
      ensures Valid() && old(path) <= path && Still(old(host), host)
      ensures ending.Crashed? || ending.Went? || ending == Refused(TemporaryExists)
      ensures ending.Went? ==> host == Written(old(host), write) && WriteLeft(old(host), host, write)
      ensures ending.Refused? <==> old(host).memory.sequence in old(host).leftovers && !ending.Crashed?
      ensures ending.Refused? ==> host == old(host)
      ensures favoured && old(host).leftovers == {} ==> ending.Went? && host.leftovers == {}
      ensures favoured && SavesFact(write) && Unhindered(request, old(host)) ==> ending.Went? && Unhindered(request, host)
    {
      hide Sound, Reached, MayWrite, Unhindered, WriteLeft;
      ClearIsFree(request, host);
      LeftoversKept(request, host, write);
      if SavesFact(write) && Unhindered(request, host) { FactUnhindered(request, host, write); }
      WriteStill(host, write);
      WriteLeaves(request, host, write);
      var dies := Mishap();
      if dies { return Crashed; }
      if host.memory.sequence in host.leftovers { return Refused(TemporaryExists); }
      dies := Mishap();
      if dies {
        Take(DieWriting(write));
        return Crashed;
      }
      Take(Put(write));
      ending := Went;
    }

    /** Intend the stage that is due. */
    method Intend(stage: Stage) returns (ending: Ending)
      requires Valid() && Standing(host) && Due(request, host.directory.journal) == Some(stage)
      requires ActivationStage(stage) ==> PastRoot(request, host, host.directory.journal)
      modifies this
      ensures Valid() && old(path) <= path && Still(old(host), host) && Explained(request, ending, host)
      ensures ending.Crashed? || ending.Went? || ending == Refused(TemporaryExists)
      ensures ending.Refused? ==> host == old(host)
      ensures ending.Went? ==> host == Intended(old(host), stage)
      ensures favoured && Unhindered(request, old(host)) ==> ending.Went? && Unhindered(request, host)
    {
      hide Sound, Reached, Stuck, Written, Due, PastRoot, Still, WriteLeft, Unhindered, Intended, Amid, SameJournal;
      ClearIsFree(request, host);
      IntentGives(request, host, stage);
      if Unhindered(request, host) { StagesUnhindered(request, host, Intended(host, stage), None); }
      SavesIntended(host, stage);
      DueIsNoEvidence(request, host.directory.journal);
      ending := Save(Record(Event(stage, Intent, true)));
    }

    /** Receive and conclude a stage that succeeded. */
    method Conclude(stage: Stage) returns (ending: Ending)
      requires Valid() && Ripe(request, host, stage)
      modifies this
      ensures Valid() && old(path) <= path && Still(old(host), host) && Explained(request, ending, host)
      ensures ending.Crashed? || ending.Went? || ending == Refused(TemporaryExists)
      ensures ending.Went? ==> host == ConcludedAt(old(host), stage)
      ensures favoured && Unhindered(request, old(host)) && (stage == BootOnceScheduled ==> old(host).service.Loaded?) ==>
                ending.Went? && Unhindered(request, host)
    {
      hide Sound, Reached, Stuck, Written, Ripe, Writable, WriteLeft, Unhindered, SameJournal, Standing;
      ClearIsFree(request, host);
      ConclusionGives(request, host, stage);
      if Unhindered(request, host) && (stage == BootOnceScheduled ==> host.service.Loaded?) {
        StagesUnhindered(request, host, ConcludedAt(host, stage), Some(stage));
      }
      ReceiptLeaves(request, host, stage);
      :- Save(Record(Event(stage, Receipt, true)));
      :- Save(Record(Event(stage, Outcome, true)));
      ending := Went;
    }

    /** Save what a stage has made, and conclude it. */
    method Keep(write: Write) returns (ending: Ending)
      requires Valid() && host.directory.Holding? && MayWrite(request, host, host.directory.journal, write)
      requires !host.memory.noted && (write.SaveOverrides? || write.SaveClosure?)
      modifies this
      ensures Valid() && old(path) <= path && Still(old(host), host) && Explained(request, ending, host)
      ensures ending.Crashed? || ending.Went? || ending == Refused(TemporaryExists)
      ensures ending.Went? ==> Standing(host) && Configuring(host) == Configuring(old(host))
      ensures ending.Went? ==>
                && host.directory.journal.overrides
                   == (if write.SaveOverrides? then Some(write.overrides) else old(host).directory.journal.overrides)
                && host.directory.journal.closure
                   == (if write.SaveClosure? then Some(write.closure) else old(host).directory.journal.closure)
      ensures favoured && Unhindered(request, old(host)) ==> ending.Went? && Unhindered(request, host)
    {
      hide Sound, Reached, Stuck, Written, Ripe, MayWrite, Unhindered;
      var stage := if write.SaveOverrides? then Materialized else Built;
      FactGives(request, host, write);
      :- Save(write);
      ConclusionGives(request, host, stage);
      :- Conclude(stage);
      ending := Went;
    }

    // ---- stages ----------------------------------------------------------

    /** The overrides a run builds with: those saved, or those it has just made and saved. */
    method Materialize() returns (ending: Ending, overrides: seq<string>)
      requires Valid() && Standing(host)
      modifies this
      ensures Valid() && old(path) <= path && Explained(request, ending, host) && !NeverGiven(ending)
      ensures ending.Went? ==> Standing(host) && host.directory.journal.overrides == Some(overrides)
      ensures ending.Went? && request.input == Direct ==> overrides == []
      ensures old(host).directory.journal.overrides.Some? ==> ending.Went? && host == old(host)
      ensures ending.Went? ==> Configuring(host) == Configuring(old(host))
      ensures favoured && Unhindered(request, old(host))
              && !MaterializingInterrupted(request, old(host), old(host).directory.journal) ==>
                ending.Went? && Unhindered(request, host)
    {
      hide Sound, Reached, Stuck, Written, Ripe, Guard, Apply, Amid, Unhindered, WriteLeft;
      overrides := [];
      if host.directory.journal.overrides.Some? {
        DirectSavesNothing(request, host);
        return Went, host.directory.journal.overrides.value;
      }
      DueFirst(request, host.directory.journal);
      IntentGives(request, host, Materialized);
      :- Intend(Materialized);
      overrides :- Generate();
      OverridesGive(request, host, overrides);
      :- Keep(SaveOverrides(overrides));
      ending := Went;
    }

    /** A Horizon input is generated and hashed; a direct one needs nothing. */
    method Generate() returns (ending: Ending, overrides: seq<string>)
      requires Valid() && Amid(request, host, Materialized)
      modifies this
      ensures Valid() && old(path) <= path && Explained(request, ending, host) && !NeverGiven(ending)
      ensures ending.Went? ==>
                && Amid(request, host, Materialized) && Keeps(old(host), host)
                && (if request.input == Horizon then host.memory.madeInputs else overrides == [])
      ensures favoured && (request.input == Horizon ==> !old(host).inputs) ==>
                ending.Went? && (Unhindered(request, old(host)) ==> Unhindered(request, host))
    {
      hide Sound, Reached, Stuck, Guard, Apply, Amid, Unhindered;
      overrides := [];
      MaterializingGives(request, host);
      if request.input == Horizon {
        var unreadable := Mishap();
        if unreadable || host.inputs { Take(FailMaterializing); return EffectFailed(Materialized), overrides; }
        :- Do(MakeInputs);
        MaterializingGives(request, host);
        var unhashed := Mishap();
        if unhashed { Take(FailMaterializing); return EffectFailed(Materialized), overrides; }
        overrides := *;
      }
      ending := Went;
    }

    method Test() returns (ending: Ending)
      requires Valid() && Standing(host) && host.directory.journal.overrides.Some?
      modifies this
      ensures Valid() && old(path) <= path && Explained(request, ending, host) && !NeverGiven(ending)
      ensures ending.Went? ==> Standing(host) && TestsPassed(request, host.directory.journal)
      ensures ending.Went? ==> host.directory.journal.overrides == old(host).directory.journal.overrides
      ensures ending.Went? ==> Configuring(host) == Configuring(old(host))
      ensures favoured && Unhindered(request, old(host)) ==> ending.Went? && Unhindered(request, host)
    {
      hide Sound, Reached, Stuck, Written, Ripe, Guard, Apply, Amid, Unhindered, WriteLeft;
      if TestsPassed(request, host.directory.journal) { return Went; }
      IntentGives(request, host, Tested);
      :- Intend(Tested);
      var fails := Mishap();
      var passed := !fails;
      TestGives(request, host, passed);
      :- Do(RunTest(passed));
      if !passed { return EffectFailed(Tested); }
      ConclusionGives(request, host, Tested);
      :- Conclude(Tested);
      ending := Went;
    }

    /** Build with the overrides, unless a closure is saved, and save the closure printed. */
    method BuildClosure(overrides: seq<string>) returns (ending: Ending, closure: string)
      requires Valid() && Standing(host)
      requires host.directory.journal.overrides == Some(overrides) && TestsPassed(request, host.directory.journal)
      modifies this
      ensures Valid() && old(path) <= path && Explained(request, ending, host) && !NeverGiven(ending)
      ensures ending.Went? ==> Standing(host) && host.directory.journal.closure == Some(closure)
      ensures ending.Went? ==> BuildRun(overrides, Some(closure)) in host.calls
      ensures old(host).directory.journal.closure.Some? ==> ending.Went? && host == old(host)
      ensures ending.Went? ==> Configuring(host) == Configuring(old(host))
      ensures favoured && Unhindered(request, old(host)) ==> ending.Went? && Unhindered(request, host)
    {
      hide Sound, Reached, Stuck, Written, Ripe, Guard, Apply, Amid, Unhindered, WriteLeft;
      closure := "";
      if host.directory.journal.closure.Some? {
        SavedWasPrinted(request, host);
        return Went, host.directory.journal.closure.value;
      }
      IntentGives(request, host, Built);
      :- Intend(Built);
      var fails := Mishap();
      var line: string := *;
      var printed := if fails then None else Some(line);
      BuildGives(request, host, printed);
      :- Do(Build(printed));
      if printed.None? { return EffectFailed(Built), closure; }
      closure := line;
      :- Keep(SaveClosure(printed.value));
      ending := Went;
    }

    /** Link the staged root to its final name without replacing one, then drop the staged name. */
    method LinkRootNoReplace() returns (ending: Ending)
      requires Valid() && Amid(request, host, GcRooted)
      modifies this
      ensures Valid() && old(path) <= path && Explained(request, ending, host)
      ensures host.calls == old(host).calls && host.directory == old(host).directory
      ensures old(host).root.Some? ==> host == old(host)
      ensures ending.Went? ==>
                && Amid(request, host, GcRooted) && host.staging.None? && host.root == host.directory.journal.closure
                && host.memory.savedRoot == old(host).memory.savedRoot && Configuring(host) == Configuring(old(host))
      ensures ending.Went? || ending.Crashed? || ending.Refused?
      ensures ending.Refused? ==> host == old(host) && ending.refusal in {StagingChanged, RootTaken}
      ensures ending == Refused(StagingChanged) <==> old(host).staging != old(host).directory.journal.closure
      ensures ending == Refused(RootTaken) <==>
                old(host).staging == old(host).directory.journal.closure && old(host).root.Some?
      ensures host.leftovers == old(host).leftovers && host.configuration == old(host).configuration
      ensures host.service == old(host).service
      ensures favoured ==> !ending.Crashed?
    {
      hide Sound, Reached, NumberTaken;
      if host.staging != host.directory.journal.closure { return Refused(StagingChanged); }
      if host.root.Some? { return Refused(RootTaken); }
      :- Do(LinkRoot);
      :- Do(DropStaging);
      ending := Went;
    }

    /**
      Root the closure. A staged or final link left by an earlier run is used
      instead of issuing the command again, or the run is refused with both as
      they were.
    */
    method HandOffRoot() returns (ending: Ending)
      requires Valid() && Standing(host) && host.directory.journal.closure.Some?
      modifies this
      ensures Valid() && old(path) <= path && Explained(request, ending, host) && !NeverGiven(ending)
      ensures old(host).staging.Some? || old(host).root.Some? ==> host.calls == old(host).calls
      ensures ending == Refused(HandoffCollision) <==>
                && !StageSucceeded(old(host).directory.journal, GcRooted) && old(host).staging.Some? && old(host).root.Some?
                && ending != Crashed && ending != Refused(TemporaryExists)
      ensures ending.Refused? && ending.refusal != TemporaryExists ==> host.root == old(host).root
      ensures ending.Went? ==> Standing(host) && Rooted(host, host.directory.journal)
      ensures ending.Went? ==> Configuring(host) == Configuring(old(host))
      ensures favoured && Unhindered(request, old(host)) ==> ending.Went? && Unhindered(request, host)
    {
      hide Sound, Reached, NumberTaken, Written, Guard, Apply, WriteLeft, Unhindered;
      ClosureComesAfter(request, host);
      if StageSucceeded(host.directory.journal, GcRooted) {
        RootStaysBound(request, host);
        if !RootBound(host, host.directory.journal) { return Refused(ReceiptChanged); }
        return Went;
      }
      NotSavedYet(request, host);
      IntentGives(request, host, GcRooted);
      :- Intend(GcRooted);
      ghost var before := host;
      ghost var clear := Unhindered(request, host);
      ClearLinks(request, host);
      if host.staging.Some? && host.root.Some? { return Refused(HandoffCollision); }
      if host.staging.Some? {
        if host.staging != host.directory.journal.closure { return Refused(StagingChanged); }
        :- LinkRootNoReplace();
      } else if host.root.Some? {
        RootBindsClosure(request, host);
        if host.root != host.directory.journal.closure { return Refused(RootChanged); }
      } else {
        var fails := Mishap();
        var succeeded, link := !fails, host.directory.journal.closure;
        if !favoured { link := *; }
        RootGives(request, host, succeeded, link);
        :- Do(MakeRoot(succeeded, link));
        if !succeeded { return EffectFailed(GcRooted); }
        :- LinkRootNoReplace();
      }
      if clear { LinksUnhindered(request, before, host); }
      :- ReceiveRoot();
      ending := Went;
    }

    /** Save the root's receipt and conclude the stage. */
    method ReceiveRoot() returns (ending: Ending)
      requires Valid() && Amid(request, host, GcRooted) && host.staging.None?
      requires host.root == host.directory.journal.closure && !host.memory.savedRoot
      modifies this
      ensures Valid() && old(path) <= path && Still(old(host), host) && Explained(request, ending, host)
      ensures ending.Crashed? || ending.Went? || ending == Refused(TemporaryExists)
      ensures ending.Went? ==> Standing(host) && Rooted(host, host.directory.journal)
      ensures ending.Went? ==> Configuring(host) == Configuring(old(host))
      ensures favoured && Unhindered(request, old(host)) ==> ending.Went? && Unhindered(request, host)
    {
      hide Sound, Reached, Stuck, Written, Ripe, WriteLeft, Unhindered;
      RootReceiptGives(request, host);
      :- Save(SaveRootReceipt);
      ConclusionGives(request, host, GcRooted);
      :- Conclude(GcRooted);
      ending := Went;
    }

    /** Use the private configuration of an earlier run, refusing an open one, or create it. */
    method WritePrivateConfiguration() returns (ending: Ending)
      requires Valid() && Standing(host) && Rooted(host, host.directory.journal) && RemoteMode(request)
      requires !Configuring(host)
      modifies this
      ensures Valid() && old(path) <= path && Explained(request, ending, host) && !NeverGiven(ending)
      ensures ending == Refused(ConfigurationOpen) <==> old(host).configuration.Configuration? && !old(host).configuration.private
      ensures ending.Went? ==> Standing(host) && PastRoot(request, host, host.directory.journal)
      ensures ending.Went? || ending.Crashed? || ending.Refused?
      ensures ending.Went? ==> host.directory == old(host).directory
      ensures favoured && Unhindered(request, old(host)) ==> ending.Went? && Unhindered(request, host)
    {
      hide Sound, Reached, NumberTaken, Guard, Apply, PastRoot, Rooted;
      match host.configuration
      case Configuration(private, _) =>
        if !private { return Refused(ConfigurationOpen); }
        UseGives(request, host);
        Take(UseConfiguration);
        ending := Went;
      case NoConfiguration =>
        var private: bool := *;
        ConfigurationGives(request, host, private);
        :- Do(MakeConfiguration(private));
        :- Do(CloseConfiguration);
        :- Do(WriteConfiguration);
        ending := Went;
    }

    method Copy() returns (ending: Ending)
      requires Valid() && Standing(host) && PastRoot(request, host, host.directory.journal) && RemoteMode(request)
      modifies this
      ensures Valid() && old(path) <= path && Explained(request, ending, host) && !NeverGiven(ending)
      ensures ending.Went? ==>
                && Standing(host) && PastRoot(request, host, host.directory.journal)
                && StageSucceeded(host.directory.journal, Copied)
      ensures favoured && Unhindered(request, old(host)) ==> ending.Went? && Unhindered(request, host)
    {
      hide Sound, Reached, Stuck, Written, Ripe, Guard, Apply, Amid, Unhindered, WriteLeft;
      ClosureComesAfter(request, host);
      if StageSucceeded(host.directory.journal, Copied) { return Went; }
      IntentGives(request, host, Copied);
      :- Intend(Copied);
      var closure := host.directory.journal.closure.value;
      var unanswered := Mishap();
      var fails := Mishap();
      if unanswered { return RecoveryPending; }
      var present := closure in host.remote && !fails;
      AskClosureGives(request, host, present);
      :- Do(AskClosure(present));
      if !present {
        var breaks := Mishap();
        var succeeded, landed: bool := !breaks, *;
        CopyGives(request, host, succeeded, landed);
        :- Do(CopyClosure(succeeded, landed));
        if !succeeded { return EffectFailed(Copied); }
      }
      ConclusionGives(request, host, Copied);
      :- Conclude(Copied);
      ending := Went;
    }

    /**
      Schedule the unit unless it is found, whether or not the reply is lost. The
      service manager refuses the name of a unit that is loaded.
    */
    method DispatchUnit() returns (ending: Ending)
      requires Valid() && Standing(host) && PastRoot(request, host, host.directory.journal) && request.mode.BootOnce?
      requires RemoteMode(request) ==> StageSucceeded(host.directory.journal, Copied)
      modifies this
      ensures Valid() && old(path) <= path && Explained(request, ending, host) && !NeverGiven(ending)
      ensures ending.Went? ==>
                && Standing(host) && PastRoot(request, host, host.directory.journal)
                && StageSucceeded(host.directory.journal, BootOnceScheduled)
      ensures favoured && Unhindered(request, old(host)) ==> ending.Went? && Unhindered(request, host)
    {
      hide Sound, Reached, Stuck, Written, Ripe, Guard, Apply, Amid, Unhindered, WriteLeft;
      ClosureComesAfter(request, host);
      ScheduleComesAfter(request, host);
      if StageSucceeded(host.directory.journal, BootOnceScheduled) { return Went; }
      IntentGives(request, host, BootOnceScheduled);
      :- Intend(BootOnceScheduled);
      ghost var before := host;
      ClearUnit(request, host);
      Elapse();
      StandsAlike(request, before, host.service, BootOnceScheduled);
      var unanswered := Mishap();
      var fails := Mishap();
      if unanswered { return RecoveryPending; }
      var state := if fails then NotFound else StateOf(host.service);
      AskUnitGives(request, host, state);
      :- Do(AskUnit(state));
      if state == NotFound {
        var breaks := Mishap();
        var succeeded, landed: bool := !breaks, *;
        if host.service.Loaded? { succeeded, landed := false, false; }
        DispatchGives(request, host, succeeded, landed);
        :- Do(Dispatch(succeeded, landed));
        if !succeeded { return RecoveryPending; }
      }
      ConclusionGives(request, host, BootOnceScheduled);
      :- Conclude(BootOnceScheduled);
      ending := Went;
    }

    /** Time passes: the unit may end, or its machine lose it. */
    method Elapse()
      requires Valid()
      modifies this
      ensures Valid() && old(path) <= path && host == old(host).(service := host.service)
      ensures favoured && Sturdy(old(host).service) ==> host.service.Loaded? && host.service.progress == Finished
      ensures favoured && !old(host).service.Loaded? ==> host.service == old(host).service
      ensures favoured && Unhindered(request, old(host)) && (host.service == old(host).service || Sturdy(host.service)) ==>
                Unhindered(request, host)
    {
      hide Sound, Reached, Guard, Apply, Choices, Enabled, Unhindered;
      ghost var before := host;
      ElapseGives(request, host);
      var stays := Mishap();
      var breaks := Mishap();
      var loses := Mishap();
      var progress := if breaks then Broken else Finished;
      if !stays && MayMove(host.service, progress) {
        Take(ServiceMoves(progress));
        ElapseGives(request, host);
      }
      if loses && host.service.Loaded? { Take(ServiceLost); }
      if Unhindered(request, before) && (host.service == before.service || Sturdy(host.service)) {
        EffectsUnhindered(request, before, host);
      }
    }

    /** Ask after the unit once; it may have moved since the last time. */
    method Poll() returns (ending: Ending, state: UnitState)
      requires Valid() && Amid(request, host, BootOnceActivated) && PastRoot(request, host, host.directory.journal)
      modifies this
      ensures Valid() && old(path) <= path
      ensures ending.Crashed? || ending.RecoveryPending? || ending.Went?
      ensures !ending.Went? ==> host.calls == old(host).calls
      ensures ending.Went? ==>
                && host.directory == old(host).directory && host.root == old(host).root
                && host.calls == old(host).calls + [UnitSeen(state)]
                && host.memory == old(host).memory.(answer := Some(UnitSeen(state)),
                     failed := if state == UnitFailed then Some(BootOnceActivated) else None)
      ensures favoured && Sturdy(old(host).service) ==>
                && ending.Went? && state == Ready && Sturdy(host.service)
                && (Unhindered(request, old(host)) ==> Unhindered(request, host))
    {
      hide Sound, Reached, Guard, Choices, Apply, Enabled, PastRoot, Amid, MayAnswer, Unhindered;
      state := NotFound;
      ghost var before := host;
      Elapse();
      StandsAlike(request, before, host.service, BootOnceActivated);
      var unanswered := Mishap();
      var fails := Mishap();
      if unanswered { return RecoveryPending, state; }
      state := if fails then NotFound else StateOf(host.service);
      AnswerMayBe(host.service, fails);
      PollGives(request, host, state);
      ending := Do(ObserveUnit(state));
    }

    /**
      Ask after the unit up to thirty times, `polls` of which were answered. It
      is left to a later run when a question goes unanswered, when the unit is
      not found, and when thirty answers were all that it is not ready yet.
    */
    method ReconcileActivation() returns (ending: Ending, polls: nat, answered: bool)
      requires Valid() && Standing(host) && PastRoot(request, host, host.directory.journal) && request.mode.BootOnce?
      requires StageSucceeded(host.directory.journal, BootOnceScheduled)
      modifies this
      ensures Valid() && old(path) <= path && Explained(request, ending, host) && !NeverGiven(ending)
      ensures ending.Went? ==>
                && Standing(host) && PastRoot(request, host, host.directory.journal)
                && StageSucceeded(host.directory.journal, BootOnceActivated)
      ensures polls <= 30 && Polled(old(host).calls, host.calls, polls)
      ensures ending.RecoveryPending? ==> !answered || NotReadyYet(host.calls, polls)
      ensures favoured && Unhindered(request, old(host)) ==> ending.Went? && Unhindered(request, host)
    {
      hide Sound, Reached, Guard, Apply, Stuck, Written, NotReadyYet, Unhindered, WriteLeft;
      ghost var clear := favoured && Unhindered(request, host);
      polls, answered := 0, true;
      ClosureComesAfter(request, host);
      ScheduleComesAfter(request, host);
      if StageSucceeded(host.directory.journal, BootOnceActivated) { return Went, polls, answered; }
      IntentGives(request, host, BootOnceActivated);
      :- Intend(BootOnceActivated);
      if Unhindered(request, host) { ClearIsSturdy(request, host); }
      StillCalls(old(host), host);
      polls, answered :- Await();
      ConclusionGives(request, host, BootOnceActivated);
      ghost var ready := host;
      :- Conclude(BootOnceActivated);
      StillCalls(ready, host);
      ending := Went;
    }

    /** Ask until the unit is ready, or there is a reason to stop asking. */
    method Await() returns (ending: Ending, polls: nat, answered: bool)
      requires Valid() && Amid(request, host, BootOnceActivated) && PastRoot(request, host, host.directory.journal)
      modifies this
      ensures Valid() && old(path) <= path && Explained(request, ending, host) && !NeverGiven(ending)
      ensures ending.Went? ==>
                && host.directory == old(host).directory && Ripe(request, host, BootOnceActivated)
                && PastRoot(request, host, host.directory.journal)
      ensures polls <= 30 && Polled(old(host).calls, host.calls, polls)
      ensures ending.RecoveryPending? ==> !answered || NotReadyYet(host.calls, polls)
      ensures favoured && Unhindered(request, old(host)) && Sturdy(old(host).service) ==>
                ending.Went? && Unhindered(request, host)
    {
      hide Sound, Reached, Guard, Apply, Stuck, NotReadyYet, Unhindered;
      ghost var clear := favoured && Unhindered(request, host) && Sturdy(host.service);
      polls, answered := 0, true;
      while polls < 30
        invariant polls <= 30 && Valid() && old(path) <= path && answered && host.directory == old(host).directory
        invariant Amid(request, host, BootOnceActivated) && PastRoot(request, host, host.directory.journal)
        invariant Polled(old(host).calls, host.calls, polls)
        invariant forall i :: |host.calls| - polls <= i < |host.calls| ==> host.calls[i] == UnitSeen(Waiting)
        invariant clear ==> polls == 0 && Unhindered(request, host) && Sturdy(host.service)
      {
        var poll, state := Poll();
        if !poll.Went? { return poll, polls, false; }
        polls := polls + 1;
        match state
        case Ready => return Went, polls, answered;
        case UnitFailed => return EffectFailed(BootOnceActivated), polls, answered;
        case NotFound =>
          NotReady(host.calls, polls);
          return RecoveryPending, polls, answered;
        case Waiting =>
      }
      NotReady(host.calls, polls);
      ending := RecoveryPending;
    }

    method Execute() returns (ending: Ending)
      requires Valid() && Standing(host)
      requires !Configuring(host)
      modifies this
      ensures Valid() && old(path) <= path && Explained(request, ending, host) && !NeverGiven(ending)
      ensures ending.Went? ==>
                && Standing(host) && Due(request, host.directory.journal).None?
                && PastRoot(request, host, host.directory.journal)
      ensures favoured && Unhindered(request, old(host))
              && !MaterializingInterrupted(request, old(host), old(host).directory.journal) ==>
                ending.Went? && Unhindered(request, host)
    {
      hide Sound, Reached, Stuck, Unhindered, MaterializingInterrupted;
      var overrides :- Materialize();
      :- Test();
      var closure :- BuildClosure(overrides);
      :- HandOffRoot();
      if request.mode.BuildOnly? {
        NothingDue(request, host);
        return Went;
      }
      if RemoteMode(request) {
        :- WritePrivateConfiguration();
        :- Copy();
      }
      :- DispatchUnit();
      var _, _ :- ReconcileActivation();
      NothingDue(request, host);
      ending := Went;
    }

    /** Write evidence of the terminal, or confirm the evidence an earlier run wrote. */
    method WriteTerminalEvidence(status: Status) returns (ending: Ending)
      requires Valid() && host.directory.Holding? && host.directory.journal.terminal == Some(status)
      requires host.memory.stage.None? && !host.memory.received
      requires host.evidence.Some? ==> host.memory.evidenceSeen || StageSucceeded(host.directory.journal, TerminalEvidenceWritten)
      modifies this
      ensures Valid() && old(path) <= path
      ensures ending.Crashed? || ending.Went? || ending == Refused(TemporaryExists)
      ensures ending.Refused? ==> host.memory.sequence in host.leftovers
      ensures ending.Went? ==>
                && host.directory.Holding? && host.directory.journal.terminal == Some(status)
                && StageSucceeded(host.directory.journal, TerminalEvidenceWritten)
                && host.evidence.Some? && host.evidence.value.status == status && host.evidence.value.hash == request.hash
      ensures favoured && old(host).leftovers == {} ==> ending.Went?
    {
      hide Sound, Reached, Written, Guard, Apply;
      EvidenceAgrees(request, host);
      if StageSucceeded(host.directory.journal, TerminalEvidenceWritten) { return Went; }
      SeenIsThere(request, host);
      NoteGives(request, host, status);
      :- Save(Record(Event(TerminalEvidenceWritten, Intent, true)));
      if host.memory.evidenceSeen {
        if host.evidence.value.hash != request.hash || host.evidence.value.status != status {
          return Refused(EvidenceChanged);
        }
      } else {
        LinkGives(request, host, status);
        :- Do(LinkEvidence);
      }
      ending := ReceiveEvidence(status);
    }

    method ReceiveEvidence(status: Status) returns (ending: Ending)
      requires Valid() && Noting(host, status) && EvidenceMatches(request, host, host.directory.journal)
      modifies this
      ensures Valid() && old(path) <= path
      ensures ending.Crashed? || ending.Went? || ending == Refused(TemporaryExists)
      ensures ending.Refused? ==> host.memory.sequence in host.leftovers
      ensures ending.Went? ==>
                && host.directory.Holding? && host.directory.journal.terminal == Some(status)
                && StageSucceeded(host.directory.journal, TerminalEvidenceWritten)
                && host.evidence.Some? && host.evidence.value.status == status && host.evidence.value.hash == request.hash
      ensures favoured && old(host).leftovers == {} ==> ending.Went?
    {
      hide Sound, Reached, Written, Writable;
      NotedGives(request, host, status);
      :- Save(Record(Event(TerminalEvidenceWritten, Receipt, true)));
      :- Save(Record(Event(TerminalEvidenceWritten, Outcome, true)));
      ending := Went;
    }

    /** Open the journal of this request or create it. */
    method OpenOrCreate() returns (ending: Ending)
      requires Valid() && host.memory == Forgetting(host)
      modifies this
      ensures Valid() && old(path) <= path && Explained(request, ending, host) && !NeverGiven(ending)
      ensures ending.Went? || ending.Crashed? || ending.Refused?
      ensures ending.Refused? <==> Stuck(request, old(host), true) && !old(host).directory.Holding? && !ending.Crashed?
      ensures ending.Refused? ==>
                && host.directory == old(host).directory && Still(old(host), host)
                && ending.refusal == (if host.directory.Absent? then OutputExists else JournalUnreadable)
      ensures ending.Went? ==>
                && host.directory.Holding? && Still(old(host), host)
                && host.memory.evidenceSeen == host.evidence.Some? && !Configuring(host)
                && host.memory.stage.None? && !host.memory.received && host.memory.failed.None? && !host.memory.noted
      ensures favoured && old(host).leftovers == {} && !Stuck(request, old(host), false) ==>
                && ending.Went? && host.leftovers == {}
                && (host.directory.journal.terminal.None? ==>
                      Unhindered(request, host) && !MaterializingInterrupted(request, host, host.directory.journal))
                && (host.directory.journal.terminal.Some? ==> host.directory.journal.terminal == Some(Succeeded))
    {
      hide Reached;
      TerminalOrNot(host);
      if host.directory.Holding? { return Went; }
      if host.directory.Empty? { return Refused(JournalUnreadable); }
      NoLeftovers(request, host);
      hide Sound;
      :- Do(MakeDirectory);
      if host.memory.rootSeen || host.memory.evidenceSeen {
        :- Do(DropDirectory);
        return Refused(OutputExists);
      }
      :- Save(First);
      ending := Went;
    }

    /**
      One run from the start. When it ends, the journal is terminal and evidence
      of that terminal is in place; when it is refused, the host is stuck, a
      temporary of the number it wanted was left by a dead run, or the root
      command reported success and staged nothing.
    */
    method Run() returns (ending: Ending)
      requires Valid()
      modifies this
      ensures Valid() && old(path) <= path
      ensures !ending.Went? && !ending.EffectFailed? && !NeverGiven(ending)
      ensures ending.Refused? ==> Explained(request, ending, host)
      ensures ending.Ended? ==>
                && host.directory.Holding? && host.directory.journal.terminal == Some(ending.status)
                && StageSucceeded(host.directory.journal, TerminalEvidenceWritten)
                && host.evidence.Some? && host.evidence.value.status == ending.status
                && host.evidence.value.hash == request.hash
      ensures favoured && old(host).leftovers == {} && !Stuck(request, old(host), false) ==> ending == Ended(Succeeded)
    {
      hide Sound, Reached, Guard, Stuck, Unhindered, MaterializingInterrupted;
      BegunAlike(request, host);
      BeginEnabled(request, host);
      Take(Begin);
      :- OpenOrCreate();
      if host.directory.journal.terminal.None? {
        :- Settle();
      }
      var status := host.directory.journal.terminal.value;
      :- WriteTerminalEvidence(status);
      ending := Ended(status);
    }

    /** Execute the stages and make the journal terminal. */
    method Settle() returns (ending: Ending)
      requires Valid() && Standing(host)
      requires !Configuring(host)
      modifies this
      ensures Valid() && old(path) <= path
      ensures ending.Went? || ending.Crashed? || ending.RecoveryPending? || ending.Refused?
      ensures !NeverGiven(ending) && (ending.Refused? ==> Explained(request, ending, host))
      ensures favoured && Unhindered(request, old(host))
              && !MaterializingInterrupted(request, old(host), old(host).directory.journal) ==>
                && ending.Went? && host.leftovers == {}
                && host.directory.Holding? && host.directory.journal.terminal == Some(Succeeded)
      ensures ending.Went? ==>
                && host.directory.Holding? && host.directory.journal.terminal.Some?
                && host.evidence.None? && !host.memory.evidenceSeen && host.memory.stage.None? && !host.memory.received
    {
      hide Sound, Reached, Stuck, Unhindered, MaterializingInterrupted;
      var execution := Execute();
      ClearIsFree(request, host);
      if execution.Went? {
        EvidenceFollowsTerminal(request, host);
        :- Save(SetTerminal(Succeeded));
      } else if execution.EffectFailed? {
        EvidenceFollowsTerminal(request, host);
        :- Save(Record(Event(execution.stage, Outcome, false)));
        :- Save(SetTerminal(Failed));
      } else {
        return execution;
      }
      ending := Went;
    }
  }

  /** With the closure rooted and, for a boot-once request, its unit activated, nothing is due. */
  lemma NothingDue(r: Request, h: Host)
    requires Sound(r, h) && h.directory.Holding? && StageSucceeded(h.directory.journal, GcRooted)
    requires r.mode.BootOnce? ==> StageSucceeded(h.directory.journal, BootOnceActivated)
    ensures Due(r, h.directory.journal).None?
  {
    hide CallsAgree, Concluded, Remembered, AnswerHolds;
  }

  lemma SeenIsThere(r: Request, h: Host)
    requires Sound(r, h) && h.directory.Holding?
    ensures h.memory.evidenceSeen ==> h.evidence.Some?
  {
    hide CallsAgree, Chained, Bound, Concluded, AnswerHolds;
  }

  /** Before the root is concluded a run between stages has saved no receipt of it. */
  lemma NotSavedYet(r: Request, h: Host)
    requires Sound(r, h) && Standing(h) && !StageSucceeded(h.directory.journal, GcRooted)
    ensures !h.memory.savedRoot
  {
    hide CallsAgree, Chained, Bound, Concluded, AnswerHolds;
  }

  lemma DueFirst(r: Request, j: Journal)
    ensures j.overrides.None? ==> Due(r, j) == Some(Materialized)
    ensures j.overrides.Some? && !TestsPassed(r, j) ==> Due(r, j) == Some(Tested)
    ensures j.overrides.Some? && TestsPassed(r, j) && j.closure.None? ==> Due(r, j) == Some(Built)
  {
  }

  lemma DueIsNoEvidence(r: Request, j: Journal)
    ensures Due(r, j) != Some(TerminalEvidenceWritten)
  {
  }

  lemma NoLeftovers(r: Request, h: Host)
    requires Sound(r, h) && h.directory.Absent?
    ensures h.leftovers == {}
  {
  }
}
