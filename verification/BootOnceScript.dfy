/** The script a boot-once unit runs and the command that carries it to the remote, quoted inside a quote. */
module BootOnceScript {
  import opened Options
  import opened ShellText

  const SEARCH_PATH: string :=
    "/nix/var/nix/profiles/default/bin" + ":/run/current-system/sw/bin" + ":/usr/bin:/bin"

  /** What the unit is for: the closure to install, the two boot paths it rewrites, and its own name. */
  datatype Unit = Unit(name: string, closure: string, profile: string, entries: string)

  function Word(plain: string): Spelling {
    Spelling(plain, None)
  }

  function Assign(variable: string, value: string): Spelling {
    Spelling(variable + "=", Some(value))
  }

  /** The opening lines of the script, each a command. */
  function Opening(u: Unit): seq<seq<Spelling>> {
    [[Word("set"), Word("-eu")],
     [Word("PATH=" + SEARCH_PATH)],
     [Word("export"), Word("PATH")],
     [Assign("CLOSURE", u.closure)],
     [Assign("PROFILE", u.profile)],
     [Assign("ENTRIES", u.entries)],
     [Assign("UNIT", u.name)]]
  }

  function Lines(commands: seq<seq<Spelling>>): string {
    if commands == [] then "" else SpelledOut(commands[0]) + "\n" + Lines(commands[1..])
  }

  /** The opening, and then whatever the unit does with what it assigns. */
  function Script(u: Unit, body: string): string {
    Lines(Opening(u)) + body
  }

  function Dispatch(u: Unit, body: string): seq<Spelling> {
    [Word("exec"), Word("/run/current-system/sw/bin/systemd-run"), Spelling("--unit=", Some(u.name)),
     Word("--no-block"), Word("--service-type=oneshot"), Word("--property=RemainAfterExit=yes"),
     Word("--setenv=PATH=" + SEARCH_PATH), Word("/bin/sh"), Word("-eu"), Word("-c"),
     Spelling("", Some(Script(u, body)))]
  }

  /** The one line handed to the remote shell. */
  function RemoteDispatchCommand(u: Unit, body: string): string {
    SpelledOut(Dispatch(u, body))
  }

  /** Read a number of commands from the start of a script. */
  function ReadCommands(text: string, count: nat): Option<(seq<seq<string>>, string)>
    decreases count
  {
    if count == 0 then Some(([], text))
    else
      match ReadCommand(text)
      case None => None
      case Some(command) =>
        match ReadCommands(command.rest, count - 1)
        case None => None
        case Some((commands, rest)) => Some(([command.words] + commands, rest))
  }

  function AllMeanings(commands: seq<seq<Spelling>>): seq<seq<string>> {
    if commands == [] then [] else [Meanings(commands[0])] + AllMeanings(commands[1..])
  }

  lemma {:induction false} LinesRead(commands: seq<seq<Spelling>>, tail: string)
    requires forall k :: 0 <= k < |commands| ==>
               commands[k] != [] && forall i :: 0 <= i < |commands[k]| ==> Readable(commands[k][i])
    ensures ReadCommands(Lines(commands) + tail, |commands|) == Some((AllMeanings(commands), tail))
    decreases |commands|
  {
    if commands == [] {
      assert Lines(commands) + tail == tail;
    } else {
      var rest := Lines(commands[1..]) + tail;
      assert Lines(commands) + tail == SpelledOut(commands[0]) + ("\n" + rest);
      CommandReads(commands[0], "\n" + rest, []);
      assert ("\n" + rest)[1..] == rest;
      assert [] + Meanings(commands[0]) == Meanings(commands[0]);
      LinesRead(commands[1..], tail);
    }
  }

  predicate AllPlain(text: string) {
    forall i :: 0 <= i < |text| ==> Plain(text[i])
  }

  lemma JoinedPlain(a: string, b: string)
    requires AllPlain(a) && AllPlain(b)
    ensures AllPlain(a + b)
  {
  }

  lemma SearchPathPlain()
    ensures AllPlain(SEARCH_PATH)
  {
    hide AllPlain;
    ProfilePlain();
    SystemPlain();
    UserPlain();
    JoinedPlain("/nix/var/nix/profiles/default/bin", ":/run/current-system/sw/bin");
    JoinedPlain("/nix/var/nix/profiles/default/bin" + ":/run/current-system/sw/bin", ":/usr/bin:/bin");
  }

  lemma ProfilePlain()
    ensures AllPlain("/nix/var/nix/profiles/default/bin")
  {
  }

  lemma SystemPlain()
    ensures AllPlain(":/run/current-system/sw/bin")
  {
  }

  lemma UserPlain()
    ensures AllPlain(":/usr/bin:/bin")
  {
  }

  lemma OpeningReadable(u: Unit)
    ensures forall k :: 0 <= k < |Opening(u)| ==>
              Opening(u)[k] != [] && forall i :: 0 <= i < |Opening(u)[k]| ==> Readable(Opening(u)[k][i])
  {
    hide AllPlain, Readable;
    SearchPathPlain();
    OpeningPlain();
    JoinedPlain("PATH=", SEARCH_PATH);
    forall k, i | 0 <= k < |Opening(u)| && 0 <= i < |Opening(u)[k]| ensures Readable(Opening(u)[k][i]) {
      assert AllPlain(Opening(u)[k][i].plain) && Opening(u)[k][i].plain != "";
      ReadableWhen(Opening(u)[k][i]);
    }
  }

  lemma OpeningPlain()
    ensures AllPlain("set") && AllPlain("-eu") && AllPlain("PATH=") && AllPlain("export") && AllPlain("PATH")
    ensures AllPlain("CLOSURE" + "=") && AllPlain("PROFILE" + "=") && AllPlain("ENTRIES" + "=") && AllPlain("UNIT" + "=")
  {
  }

  lemma ProgramPlain()
    ensures AllPlain("/run/current-system/sw/bin/systemd-run") && AllPlain("exec")
  {
  }

  lemma PropertyPlain()
    ensures AllPlain("--property=RemainAfterExit=yes") && AllPlain("--no-block")
  {
  }

  lemma ServicePlain()
    ensures AllPlain("--service-type=oneshot") && AllPlain("--unit=")
  {
  }

  lemma ShellPlain()
    ensures AllPlain("/bin/sh") && AllPlain("-eu") && AllPlain("-c") && AllPlain("--setenv=PATH=")
  {
  }

  lemma ReadableWhen(w: Spelling)
    requires AllPlain(w.plain) && (w.plain != "" || w.quoted.Some?)
    ensures Readable(w)
  {
  }

  lemma DispatchReadable(u: Unit, body: string)
    ensures forall i :: 0 <= i < |Dispatch(u, body)| ==> Readable(Dispatch(u, body)[i])
  {
    hide Script, AllPlain, Readable;
    var ws := Dispatch(u, body);
    ProgramPlain();
    PropertyPlain();
    ServicePlain();
    ShellPlain();
    SearchPathPlain();
    JoinedPlain("--setenv=PATH=", SEARCH_PATH);
    NothingPlain();
    forall i | 0 <= i < |ws| ensures Readable(ws[i]) {
      assert AllPlain(ws[i].plain);
      ReadableWhen(ws[i]);
    }
  }

  lemma NothingPlain()
    ensures AllPlain("")
  {
  }

  /**
    Whatever the closure, the paths and the unit are called, quotes and newlines
    included, and whatever the script goes on to do: the remote shell hands the script on as one word unchanged, and
    the shell that runs it gives each variable exactly its text.
  */
  lemma NestedQuotingIsUndone(u: Unit, body: string)
    ensures SEARCH_PATH == "/nix/var/nix/profiles/default/bin" + ":/run/current-system/sw/bin" + ":/usr/bin:/bin"
    ensures ReadCommand(RemoteDispatchCommand(u, body))
              == Some(Command(["exec", "/run/current-system/sw/bin/systemd-run", "--unit=" + u.name,
                               "--no-block", "--service-type=oneshot", "--property=RemainAfterExit=yes",
                               "--setenv=PATH=" + SEARCH_PATH, "/bin/sh", "-eu", "-c", Script(u, body)], ""))
    ensures ReadCommands(Script(u, body), 7)
              == Some(([["set", "-eu"], ["PATH=" + SEARCH_PATH], ["export", "PATH"], ["CLOSURE=" + u.closure],
                        ["PROFILE=" + u.profile], ["ENTRIES=" + u.entries], ["UNIT=" + u.name]], body))
  {
    DispatchReads(u, body);
    OpeningReadable(u);
    LinesRead(Opening(u), body);
    OpeningMeans(u);
  }

  lemma DispatchReads(u: Unit, body: string)
    ensures ReadCommand(RemoteDispatchCommand(u, body))
              == Some(Command(["exec", "/run/current-system/sw/bin/systemd-run", "--unit=" + u.name,
                               "--no-block", "--service-type=oneshot", "--property=RemainAfterExit=yes",
                               "--setenv=PATH=" + SEARCH_PATH, "/bin/sh", "-eu", "-c", Script(u, body)], ""))
  {
    DispatchReadable(u, body);
    CommandReads(Dispatch(u, body), "", []);
    assert SpelledOut(Dispatch(u, body)) + "" == RemoteDispatchCommand(u, body);
    DispatchMeans(u, body);
  }

  lemma DispatchMeans(u: Unit, body: string)
    ensures [] + Meanings(Dispatch(u, body))
              == ["exec", "/run/current-system/sw/bin/systemd-run", "--unit=" + u.name,
                  "--no-block", "--service-type=oneshot", "--property=RemainAfterExit=yes",
                  "--setenv=PATH=" + SEARCH_PATH, "/bin/sh", "-eu", "-c", Script(u, body)]
  {
    hide Script, Meaning, Meanings;
    var ws := Dispatch(u, body);
    MeansEach(ws);
    forall i | 0 <= i < |ws| ensures ws[i].quoted.None? ==> Meaning(ws[i]) == ws[i].plain { MeaningOf(ws[i]); }
    MeaningOf(ws[10]);
    assert Meaning(ws[2]) == "--unit=" + u.name by { PlainThenQuoted(ws[2]); }
  }

  lemma PlainThenQuoted(w: Spelling)
    requires w.quoted.Some?
    ensures Meaning(w) == w.plain + w.quoted.value
  {
  }

  lemma {:induction false} MeansEach(ws: seq<Spelling>)
    ensures |Meanings(ws)| == |ws| && forall i :: 0 <= i < |ws| ==> Meanings(ws)[i] == Meaning(ws[i])
    decreases |ws|
  {
    if ws != [] { MeansEach(ws[1..]); }
  }

  lemma {:induction false} AllMeansEach(commands: seq<seq<Spelling>>)
    ensures |AllMeanings(commands)| == |commands|
    ensures forall i :: 0 <= i < |commands| ==> AllMeanings(commands)[i] == Meanings(commands[i])
    decreases |commands|
  {
    if commands != [] { AllMeansEach(commands[1..]); }
  }

  lemma OpeningMeans(u: Unit)
    ensures AllMeanings(Opening(u))
              == [["set", "-eu"], ["PATH=" + SEARCH_PATH], ["export", "PATH"], ["CLOSURE=" + u.closure],
                  ["PROFILE=" + u.profile], ["ENTRIES=" + u.entries], ["UNIT=" + u.name]]
  {
    AllMeansEach(Opening(u));
    AssignMeans("CLOSURE", u.closure);
    AssignMeans("PROFILE", u.profile);
    AssignMeans("ENTRIES", u.entries);
    AssignMeans("UNIT", u.name);
    assert "CLOSURE" + "=" == "CLOSURE=" && "PROFILE" + "=" == "PROFILE=";
    assert "ENTRIES" + "=" == "ENTRIES=" && "UNIT" + "=" == "UNIT=";
    WordsMean("set", "-eu");
    WordsMean("export", "PATH");
    MeaningOf(Word("PATH=" + SEARCH_PATH));
    assert Meanings([Word("PATH=" + SEARCH_PATH)]) == ["PATH=" + SEARCH_PATH];
  }

  lemma AssignMeans(variable: string, value: string)
    ensures Meanings([Assign(variable, value)]) == [variable + "=" + value]
  {
  }

  lemma WordsMean(first: string, second: string)
    ensures Meanings([Word(first), Word(second)]) == [first, second]
  {
    var ws := [Word(first), Word(second)];
    MeansEach(ws);
    MeaningOf(ws[0]);
    MeaningOf(ws[1]);
  }
}
