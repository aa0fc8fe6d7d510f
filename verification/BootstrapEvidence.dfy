/** After the terminal: when a later run can still leave its evidence, and when no run ever will. */
module BootstrapEvidence {
  import opened Options
  import opened BootstrapModel
  import opened BootstrapSafety
  import opened BootstrapResults
  import opened BootstrapProgress
  import opened BootstrapWindows

  predicate EvidenceDone(h: Host) {
    h.directory.Holding? && StageSucceeded(h.directory.journal, TerminalEvidenceWritten)
  }

  /**
    The numbers a run needs after the terminal. With evidence in place it writes
    intent, receipt and outcome under 0, 1 and 2. Without, the evidence file
    itself takes number 1, so that receipt and outcome come under 2 and 3; a run
    that gets as far as the file leaves the rest to one that finds it.
  */
  predicate EvidenceBlocked(leftovers: set<nat>, linked: bool) {
    if linked then 0 in leftovers || 1 in leftovers || 2 in leftovers
    else 0 in leftovers || 2 in leftovers || (1 in leftovers && 3 in leftovers)
  }

  // ---- blocked for good --------------------------------------------------

  /** What is left for a run that has come so far, by the numbers still before it. */
  predicate BarredAhead(h: Host) {
    var m := h.memory;
    var linkedNow := h.evidence.Some? && !m.evidenceSeen;
    match m.stage
    case None => m.sequence == 0 && !m.received && m.evidenceSeen == h.evidence.Some?
    case Some(_) =>
      if m.received then
        (if linkedNow then m.sequence == 3 && 3 in h.leftovers else m.sequence == 2 && 2 in h.leftovers)
      else if linkedNow then m.sequence == 2 && (2 in h.leftovers || 3 in h.leftovers)
      else if m.evidenceSeen then m.sequence == 1 && (1 in h.leftovers || 2 in h.leftovers)
      else m.sequence == 1 && (2 in h.leftovers || (1 in h.leftovers && 3 in h.leftovers))
  }

  /** A run after the terminal that cannot conclude, and whose death helps no later one. */
  ghost predicate Barred(h: Host) {
    && h.directory.Holding? && h.directory.journal.terminal.Some? && !EvidenceDone(h)
    && (h.memory.evidenceSeen ==> h.evidence.Some?)
    && EvidenceBlocked(h.leftovers, h.evidence.Some?) && BarredAhead(h)
  }

  lemma BarredStep(r: Request, h: Host, action: Action)
    requires Sound(r, h) && Barred(h) && Enabled(r, h, action)
    ensures Barred(Apply(r, h, action))
  {
    hide Sound, Apply, Barred, Guard;
    BarredHolds(r, h);
    if action.Put? {
      BarredPut(r, h, h.directory.journal, action.write);
    } else if action.Begin? || action.DieWriting? {
      BarredDeath(r, h, action);
    } else {
      BarredEffect(r, h, action);
    }
  }

  lemma BarredHolds(r: Request, h: Host)
    requires Sound(r, h) && Barred(h)
    ensures h.directory.Holding? && Remembered(r, h, h.directory.journal)
  {
    hide Chained, Bound, CallsAgree, AnswerHolds, Concluded, Remembered;
  }

  lemma BarredDeath(r: Request, h: Host, action: Action)
    requires Barred(h) && Enabled(r, h, action) && (action.Begin? || action.DieWriting?)
    ensures Barred(Apply(r, h, action))
  {
    hide MayWrite;
  }

  lemma BarredEffect(r: Request, h: Host, action: Action)
    requires Barred(h) && Enabled(r, h, action) && !action.Put? && !action.Begin? && !action.DieWriting?
    ensures Barred(Apply(r, h, action))
  {
    hide Outcomes;
    assert Apply(r, h, action).directory == h.directory;
  }

  lemma BarredPut(r: Request, h: Host, j: Journal, write: Write)
    requires Remembered(r, h, j) && Barred(h) && Enabled(r, h, Put(write)) && h.directory == Holding(j)
    ensures Barred(Apply(r, h, Put(write)))
  {
    OnlyNotes(r, h, j, write);
    OutcomeBarred(r, h, j);
    hide Guard, Apply, Remembered, Barred;
    if write.event.kind == Intent { BarredIntent(r, h, j); } else { BarredReceipt(r, h, j); }
  }

  /** After the terminal a run records only what concerns the evidence. */
  lemma OnlyNotes(r: Request, h: Host, j: Journal, write: Write)
    requires Remembered(r, h, j) && Enabled(r, h, Put(write)) && h.directory == Holding(j) && j.terminal.Some?
    ensures write.Record? && write.event.stage == NOTE && write.event.succeeded
  {
  }

  lemma BarredIntent(r: Request, h: Host, j: Journal)
    requires Barred(h) && Enabled(r, h, Put(Record(Event(NOTE, Intent, true)))) && h.directory == Holding(j)
    ensures Barred(Apply(r, h, Put(Record(Event(NOTE, Intent, true)))))
  {
    Appended(j, Event(NOTE, Intent, true));
  }

  lemma BarredReceipt(r: Request, h: Host, j: Journal)
    requires Barred(h) && Enabled(r, h, Put(Record(Event(NOTE, Receipt, true)))) && h.directory == Holding(j)
    ensures Barred(Apply(r, h, Put(Record(Event(NOTE, Receipt, true)))))
  {
    Appended(j, Event(NOTE, Receipt, true));
  }

  lemma OutcomeBarred(r: Request, h: Host, j: Journal)
    requires Barred(h) && h.directory == Holding(j)
    ensures !Enabled(r, h, Put(Record(Event(NOTE, Outcome, true))))
  {
  }

  lemma {:induction false} BarredForever(r: Request, h: Host, path: seq<Action>)
    requires Sound(r, h) && Barred(h) && Allowed(r, h, path)
    ensures Barred(After(r, h, path))
    decreases |path|
  {
    hide Sound, Guard, Apply, Barred;
    if path != [] {
      BarredStep(r, h, path[0]);
      StepSound(r, h, path[0]);
      BarredForever(r, Apply(r, h, path[0]), path[1..]);
    }
  }

  // ---- otherwise concluded -----------------------------------------------

  const NOTE: Stage := TerminalEvidenceWritten

  /** A run that finds evidence in place. */
  const CONFIRM: seq<Action> :=
    [Put(Record(Event(NOTE, Intent, true))), Put(Record(Event(NOTE, Receipt, true))), Put(Record(Event(NOTE, Outcome, true)))]

  /** A run that writes it. */
  const WRITE: seq<Action> :=
    [Put(Record(Event(NOTE, Intent, true))), LinkEvidence, Put(Record(Event(NOTE, Receipt, true))),
     Put(Record(Event(NOTE, Outcome, true)))]

  /** The state of a run that has just begun after the terminal. */
  ghost predicate Begun(r: Request, h: Host) {
    && Sound(r, h) && h.directory.Holding? && h.directory.journal.terminal.Some? && !EvidenceDone(h)
    && h.memory == Forgetting(h)
  }

  lemma Confirms(r: Request, h: Host)
    requires Begun(r, h) && h.evidence.Some? && !EvidenceBlocked(h.leftovers, true)
    ensures Allowed(r, h, CONFIRM) && EvidenceDone(After(r, h, CONFIRM))
  {
    hide Chained, Bound, CallsAgree, AnswerHolds, EarlierOutcomes;
    var j := h.directory.journal;
    var e1, e2, e3 := Event(NOTE, Intent, true), Event(NOTE, Receipt, true), Event(NOTE, Outcome, true);
    Appended(j, e1);
    var j1 := j.(events := j.events + [e1]);
    var h1 := Apply(r, h, Put(Record(e1)));
    Appended(j1, e2);
    var j2 := j1.(events := j1.events + [e2]);
    var h2 := Apply(r, h1, Put(Record(e2)));
    Appended(j2, e3);
    var h3 := Apply(r, h2, Put(Record(e3)));
    assert After(r, h3, []) == h3 && [Put(Record(e3))] + [] == [Put(Record(e3))];
    assert Enabled(r, h2, Put(Record(e3)));
    Took(r, h2, Put(Record(e3)), []);
    assert Enabled(r, h1, Put(Record(e2)));
    Took(r, h1, Put(Record(e2)), [Put(Record(e3))]);
    assert Enabled(r, h, Put(Record(e1)));
    Took(r, h, Put(Record(e1)), [Put(Record(e2))] + [Put(Record(e3))]);
    assert [Put(Record(e1))] + ([Put(Record(e2))] + [Put(Record(e3))]) == CONFIRM;
  }

  /** With no evidence yet: intent and file, which bring evidence that matches, under two numbers. */
  lemma Links(r: Request, h: Host)
    requires Begun(r, h) && h.evidence.None? && 0 !in h.leftovers
    ensures var intent := Put(Record(Event(NOTE, Intent, true)));
            var h1 := Apply(r, h, intent); var h2 := Apply(r, h1, LinkEvidence);
            && Enabled(r, h, intent) && Enabled(r, h1, LinkEvidence)
            && h2.directory == Holding(h.directory.journal.(events := h.directory.journal.events + [Event(NOTE, Intent, true)]))
            && EvidenceMatches(r, h2, h2.directory.journal) && h2.leftovers == h.leftovers
            && h2.memory.sequence == 2 && h2.memory.stage == Some(NOTE) && !h2.memory.received
            && !EvidenceDone(h2)
  {
    hide Chained, Bound, CallsAgree, AnswerHolds, EarlierOutcomes, Outcomes;
    Appended(h.directory.journal, Event(NOTE, Intent, true));
  }

  lemma Writes(r: Request, h: Host)
    requires Begun(r, h) && h.evidence.None? && 0 !in h.leftovers && 2 !in h.leftovers && 3 !in h.leftovers
    ensures Allowed(r, h, WRITE) && EvidenceDone(After(r, h, WRITE))
  {
    hide Sound, Outcomes;
    Links(r, h);
    var e1, e2, e3 := Event(NOTE, Intent, true), Event(NOTE, Receipt, true), Event(NOTE, Outcome, true);
    var h1 := Apply(r, h, Put(Record(e1)));
    var h2 := Apply(r, h1, LinkEvidence);
    var j2 := h2.directory.journal;
    Appended(j2, e2);
    var h3 := Apply(r, h2, Put(Record(e2)));
    Appended(h3.directory.journal, e3);
    var h4 := Apply(r, h3, Put(Record(e3)));
    assert After(r, h4, []) == h4 && [Put(Record(e3))] + [] == [Put(Record(e3))];
    assert Enabled(r, h3, Put(Record(e3)));
    Took(r, h3, Put(Record(e3)), []);
    assert Enabled(r, h2, Put(Record(e2)));
    Took(r, h2, Put(Record(e2)), [Put(Record(e3))]);
    Took(r, h1, LinkEvidence, [Put(Record(e2))] + [Put(Record(e3))]);
    Took(r, h, Put(Record(e1)), [LinkEvidence] + ([Put(Record(e2))] + [Put(Record(e3))]));
    assert [Put(Record(e1))] + ([LinkEvidence] + ([Put(Record(e2))] + [Put(Record(e3))])) == WRITE;
  }

  /** Intent and file, then a death, then a run that confirms. */
  lemma LinksThenConfirms(r: Request, h: Host)
    requires Begun(r, h) && h.evidence.None? && !EvidenceBlocked(h.leftovers, true)
    ensures var path := [Put(Record(Event(NOTE, Intent, true))), LinkEvidence, Begin] + CONFIRM;
            Allowed(r, h, path) && EvidenceDone(After(r, h, path))
  {
    hide Outcomes;
    Links(r, h);
    var e1 := Event(NOTE, Intent, true);
    var h1 := Apply(r, h, Put(Record(e1)));
    var h2 := Apply(r, h1, LinkEvidence);
    var h3 := Apply(r, h2, Begin);
    StepSound(r, h, Put(Record(e1)));
    StepSound(r, h1, LinkEvidence);
    BeginEnabled(r, h2);
    StepSound(r, h2, Begin);
    hide Sound, Guard, Apply;
    BegunAgain(r, h2);
    Confirms(r, h3);
    Took(r, h2, Begin, CONFIRM);
    Took(r, h1, LinkEvidence, [Begin] + CONFIRM);
    Took(r, h, Put(Record(e1)), [LinkEvidence] + ([Begin] + CONFIRM));
    assert [Put(Record(e1))] + ([LinkEvidence] + ([Begin] + CONFIRM))
        == [Put(Record(e1)), LinkEvidence, Begin] + CONFIRM;
  }

  lemma BegunAgain(r: Request, h: Host)
    requires Sound(r, Apply(r, h, Begin)) && h.directory.Holding? && h.directory.journal.terminal.Some? && !EvidenceDone(h)
    ensures Begun(r, Apply(r, h, Begin)) && Apply(r, h, Begin).leftovers == h.leftovers
    ensures Apply(r, h, Begin).evidence == h.evidence
  {
    hide Sound;
  }

  // ---- the main result ---------------------------------------------------

  /** A new run, interrupted any number of times, that concludes the evidence. */
  ghost predicate Ends(r: Request, h: Host, path: seq<Action>) {
    Allowed(r, Apply(r, h, Begin), path) && EvidenceDone(After(r, Apply(r, h, Begin), path))
  }

  /**
    A terminal request whose evidence is not concluded can still conclude it if
    and only if no number that needs is taken by a journal temporary of a dead run.
  */
  lemma EvidenceUnlessBlocked(r: Request, start: Host, before: seq<Action>, h: Host)
    requires Reached(r, start, before, h) && h.directory.Holding? && h.directory.journal.terminal.Some? && !EvidenceDone(h)
    ensures EvidenceBlocked(h.leftovers, h.evidence.Some?) <==> forall path :: !Ends(r, h, path)
  {
    hide Sound, Guard;
    ReachedSound(r, start, before, h);
    var again := Apply(r, h, Begin);
    BeginEnabled(r, h);
    StepSound(r, h, Begin);
    BegunAgain(r, h);
    if EvidenceBlocked(h.leftovers, h.evidence.Some?) {
      forall path ensures !Ends(r, h, path) {
        if Allowed(r, again, path) { BarredForever(r, again, path); }
      }
    } else if h.evidence.Some? {
      Confirms(r, again);
      assert Ends(r, h, CONFIRM);
    } else if 3 in h.leftovers {
      LinksThenConfirms(r, again);
      assert Ends(r, h, [Put(Record(Event(NOTE, Intent, true))), LinkEvidence, Begin] + CONFIRM);
    } else {
      Writes(r, again);
      assert Ends(r, h, WRITE);
    }
  }
}
