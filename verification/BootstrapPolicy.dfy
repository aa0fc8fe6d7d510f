/**
  Which SSH policy the remote commands of a request run under: the one written
  for it, or none, when a run died between creating the configuration and
  writing it.
*/
module BootstrapPolicy {
  import opened Options
  import opened BootstrapModel
  import opened BootstrapSafety
  import opened BootstrapResults
  import opened BootstrapProgress
  import opened BootstrapWindows

  /** For a remote request, what goes over SSH. */
  predicate OverSsh(action: Action) {
    action.AskClosure? || action.CopyClosure? || action.AskUnit? || action.Dispatch? || action.ObserveUnit?
  }

  /** A configuration that passes for a finished one and holds nothing. */
  predicate Unwritten(h: Host) {
    h.configuration == Configuration(true, false)
  }

  /** The run under way has made it so and goes on to write it. */
  predicate HalfMade(h: Host) {
    Unwritten(h) && h.memory.madeConfiguration
  }

  predicate Dies(action: Action) {
    action.Begin? || action.DieWriting?
  }

  /** Somewhere on the path a run died with the configuration half made. */
  ghost predicate DiedHalfMade(r: Request, h: Host, path: seq<Action>)
    decreases |path|
  {
    path != [] && ((Dies(path[0]) && HalfMade(h)) || DiedHalfMade(r, Apply(r, h, path[0]), path[1..]))
  }

  /** No earlier run left the configuration unwritten, and this one does not use it before it is written. */
  predicate Orderly(h: Host) {
    Unwritten(h) ==> h.memory.madeConfiguration && !h.memory.configured
  }

  /** An earlier run left it, so that this one uses it as it is. */
  predicate LeftUnwritten(h: Host) {
    Unwritten(h) && !h.memory.madeConfiguration
  }

  lemma OrderlyStep(r: Request, h: Host, action: Action)
    requires Enabled(r, h, action) && Orderly(h)
    ensures if Dies(action) && HalfMade(h) then LeftUnwritten(Apply(r, h, action)) else Orderly(Apply(r, h, action))
  {
    if action.Put? { PutKeepsConfiguration(h, action.write); }
  }

  lemma LeftUnwrittenStep(r: Request, h: Host, action: Action)
    requires Enabled(r, h, action) && LeftUnwritten(h)
    ensures LeftUnwritten(Apply(r, h, action))
  {
    if action.Put? { PutKeepsConfiguration(h, action.write); }
  }

  lemma PutKeepsConfiguration(h: Host, write: Write)
    ensures var h' := Written(h, write);
            && h'.configuration == h.configuration && h'.memory.configured == h.memory.configured
            && h'.memory.madeConfiguration == h.memory.madeConfiguration
  {
    match h.directory
    case Absent =>
    case Empty =>
    case Holding(_) =>
      match write
      case First =>
      case Record(_) =>
      case SaveOverrides(_) =>
      case SaveClosure(_) =>
      case SaveRootReceipt =>
      case SetTerminal(_) =>
  }

  lemma {:induction false} LeftUnwrittenForever(r: Request, h: Host, path: seq<Action>)
    requires LeftUnwritten(h) && Allowed(r, h, path)
    ensures LeftUnwritten(After(r, h, path))
    decreases |path|
  {
    hide Guard, Apply, LeftUnwritten;
    if path != [] {
      LeftUnwrittenStep(r, h, path[0]);
      LeftUnwrittenForever(r, Apply(r, h, path[0]), path[1..]);
    }
  }

  lemma {:induction false} OrderlyUnlessDied(r: Request, h: Host, path: seq<Action>)
    requires Orderly(h) && Allowed(r, h, path)
    ensures if DiedHalfMade(r, h, path) then LeftUnwritten(After(r, h, path)) else Orderly(After(r, h, path))
    decreases |path|
  {
    hide Guard, Apply, Orderly, LeftUnwritten, HalfMade;
    if path != [] {
      OrderlyStep(r, h, path[0]);
      if Dies(path[0]) && HalfMade(h) {
        LeftUnwrittenForever(r, Apply(r, h, path[0]), path[1..]);
      } else {
        OrderlyUnlessDied(r, Apply(r, h, path[0]), path[1..]);
      }
    }
  }

  /**
    Over any number of runs of a remote request, every question and command goes
    out under a private configuration, and under the policy written for it
    exactly when no run died with the configuration private and not yet written.
  */
  lemma PolicyExactly(r: Request, start: Host, path: seq<Action>, h: Host, action: Action)
    requires Reached(r, start, path, h) && RemoteMode(r) && OverSsh(action) && Enabled(r, h, action)
    ensures h.configuration.Configuration? && h.configuration.private
    ensures h.configuration.written <==> !DiedHalfMade(r, start, path)
  {
    hide Sound, Apply, DiedHalfMade;
    ReachedSound(r, start, path, h);
    GoesConfigured(r, h, action);
    OrderlyUnlessDied(r, start, path);
  }

  lemma GoesConfigured(r: Request, h: Host, action: Action)
    requires Sound(r, h) && RemoteMode(r) && OverSsh(action) && Enabled(r, h, action)
    ensures h.memory.configured && h.configuration.Configuration? && h.configuration.private
  {
    hide Chained, Bound, CallsAgree, Concluded, AnswerHolds;
  }

  // ---- an input ----------------------------------------------------------

  /** Nothing is on the remote, and a configuration is there only if this run has just made it. */
  predicate Preparing(h: Host) {
    && h.remote == {} && h.leftovers == {}
    && (h.configuration.Configuration? ==>
          && h.directory.Holding? && StageSucceeded(h.directory.journal, GcRooted)
          && !h.configuration.written && h.memory.madeConfiguration && !h.memory.configured && h.memory.sequence == 0 && h.memory.stage.None?)
  }

  lemma PreparingStep(r: Request, h: Host)
    requires Sound(r, h) && UnderWay(r, h) && RemoteMode(r) && Preparing(h) && !Next(r, h).WriteConfiguration?
    requires Enabled(r, h, Next(r, h))
    ensures Preparing(Apply(r, h, Next(r, h)))
  {
    hide CallsAgree, Concluded, AnswerHolds, Clear, Inside;
    if Next(r, h).Put? {
      PutKeepsConfiguration(h, Next(r, h).write);
      PutKeepsRemote(h, Next(r, h).write);
    }
  }

  /** A remote request that is under way with nothing on the remote comes to write its configuration. */
  lemma {:induction false} ReachesWriting(r: Request, h: Host) returns (path: seq<Action>)
    requires Sound(r, h) && UnderWay(r, h) && RemoteMode(r) && Preparing(h)
    ensures Allowed(r, h, path) && Sound(r, After(r, h, path)) && Preparing(After(r, h, path))
    ensures Next(r, After(r, h, path)).WriteConfiguration? && Enabled(r, After(r, h, path), WriteConfiguration)
    decreases Remaining(r, h)
  {
    hide Sound, Guard, Apply, UnderWay, Next, Remaining, Preparing;
    NextAdvances(r, h);
    if Next(r, h).WriteConfiguration? {
      path := [];
    } else {
      StepSound(r, h, Next(r, h));
      PreparingStep(r, h);
      StillPreparing(r, Apply(r, h, Next(r, h)));
      var rest := ReachesWriting(r, Apply(r, h, Next(r, h)));
      path := [Next(r, h)] + rest;
      assert path[1..] == rest;
    }
  }

  lemma StillPreparing(r: Request, h: Host)
    requires Sound(r, h) && RemoteMode(r) && Preparing(h)
    ensures !HasSucceeded(h)
  {
    NotCopiedYet(r, h);
  }

  /** A death, and a next run that gets as far as its first question. */
  const DIE_AND_ASK: seq<Action> := [Begin, UseConfiguration, Put(Record(Event(Copied, Intent, true)))]

  lemma DieAndAskRuns(r: Request, h: Host, j: Journal)
    requires Sound(r, h) && Preparing(h) && Enabled(r, h, WriteConfiguration) && h.directory == Holding(j) && RemoteMode(r)
    requires j.terminal.None?
    ensures Allowed(r, h, DIE_AND_ASK)
    ensures var end := After(r, h, DIE_AND_ASK); Unwritten(end) && Enabled(r, end, AskClosure(false))
  {
    hide Sound, Guard, Apply;
    var intent := Put(Record(Event(Copied, Intent, true)));
    var h1 := Apply(r, h, Begin);
    var h2 := Apply(r, h1, UseConfiguration);
    DeathLeavesUnwritten(r, h, j);
    IntendedAgain(r, h2, j, Copied);
    var h3 := Apply(r, h2, intent);
    IntentLeavesUnwritten(r, h2);
    AskFollows(r, h3);
    assert After(r, h3, []) == h3;
    Took(r, h2, intent, []);
    Took(r, h1, UseConfiguration, [intent] + []);
    Took(r, h, Begin, [UseConfiguration] + ([intent] + []));
    assert [Begin] + ([UseConfiguration] + ([intent] + [])) == DIE_AND_ASK;
  }

  lemma DeathLeavesUnwritten(r: Request, h: Host, j: Journal)
    requires Sound(r, h) && Preparing(h) && Enabled(r, h, WriteConfiguration) && h.directory == Holding(j) && RemoteMode(r)
    requires j.terminal.None?
    ensures var h1 := Apply(r, h, Begin); var h2 := Apply(r, h1, UseConfiguration);
            && Enabled(r, h, Begin) && Enabled(r, h1, UseConfiguration)
            && h2.directory == Holding(j) && h2.leftovers == {} && h2.memory.sequence == 0 && h2.memory.stage.None?
            && !h2.memory.received && h2.memory.failed.None? && Due(r, j) == Some(Copied) && PastRoot(r, h2, j)
            && Unwritten(h2)
  {
    hide CallsAgree, Concluded, AnswerHolds;
  }

  lemma IntentLeavesUnwritten(r: Request, h: Host)
    requires Unwritten(h)
    ensures Unwritten(Apply(r, h, Put(Record(Event(Copied, Intent, true)))))
  {
    PutKeepsConfiguration(h, Record(Event(Copied, Intent, true)));
  }

  lemma AskFollows(r: Request, h: Host)
    requires h.directory.Holding? && At(r, h, h.directory.journal, Copied) && PastRoot(r, h, h.directory.journal)
    ensures Enabled(r, h, AskClosure(false))
  {
  }

  /**
    For every remote request and fresh host with nothing on the remote: a path
    that ends in a question under a configuration that names no identity, no
    known hosts and no checking of host keys.
  */
  lemma PolicyLost(r: Request, start: Host) returns (path: seq<Action>)
    requires Fresh(start) && start.root.None? && start.evidence.None? && RemoteMode(r) && start.remote == {}
    ensures Reached(r, start, path, After(r, start, path))
    ensures Unwritten(After(r, start, path)) && Enabled(r, After(r, start, path), AskClosure(false))
  {
    hide Guard, Apply, Sound, UnderWay, Next;
    FreshSound(r, start);
    FreshUnderWay(r, start);
    var first := ReachesWriting(r, start);
    var mid := After(r, start, first);
    WritingIsHolding(r, mid);
    DieAndAskRuns(r, mid, mid.directory.journal);
    AllowedTwice(r, start, first, DIE_AND_ASK);
    path := first + DIE_AND_ASK;
  }

  lemma WritingIsHolding(r: Request, h: Host)
    requires Enabled(r, h, WriteConfiguration)
    ensures h.directory.Holding? && h.directory.journal.terminal.None?
  {
  }
}
