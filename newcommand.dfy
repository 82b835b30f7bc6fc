/**
 * `NewCommand::execute`, the `new` console command: refuse or clear an
 * existing target directory, settle the starter kit (from `--starter-kit`
 * or from two prompts), hand over to `StarterKitInstaller` for a truthy kit
 * and to `CakePHPInstaller` otherwise, and turn the outcome into the exit
 * code.
 */
module NewCommand {
  import opened Prelude
  import opened FileTree
  import opened Host
  import DirectoryHelper
  import CakePHPInstaller
  import StarterKitInstaller

  /** `Command::SUCCESS` and `Command::FAILURE`. */
  const ExitSuccess: int := 0
  const ExitFailure: int := 1

  /**
   * The command line: the `name` argument, `--force`, and `--starter-kit`
   * (`None` when the option is absent or given without a value).
   */
  datatype Input = Input(name: String, force: bool, starterKit: Option<String>)

  /**
   * The answers to the two choice prompts; `None` is Enter on the default.
   * Symfony's `ChoiceQuestion` asks again until it gets one of the keys, so
   * an answer given is a key of its question.
   */
  datatype Prompts = Prompts(installMethod: Option<String>, kit: Option<String>)

  const MethodQuestion: String := "How would you like to create your new application?"
  const MethodChoices: seq<String> := ["manual", "starter-kit"]
  const KitQuestion: String := "Select a starter kit:"

  /** The keys `_selectStarterKit` offers, in order. */
  const StarterKits: seq<String> := ["simple", "saas", "react", "next", "api", "cms"]

  /** The prompts answered with keys of their questions. */
  predicate Answerable(p: Prompts) {
    (p.installMethod.Some? ==> p.installMethod.value in MethodChoices) &&
    (p.kit.Some? ==> p.kit.value in StarterKits)
  }

  // ---------------------------------------------------------------------
  // The steps, on worlds.

  function Banner(w: World, name: String): World {
    SaySpec(SaySpec(w, Title, "CakePHP Application Installer"), Text, "Creating new CakePHP application: <info>" + name + "</info>")
  }

  function ExistsError(name: String): String {
    "Directory '" + name + "' already exists. Use --force to overwrite."
  }

  function RemovingWarning(name: String): String {
    "Directory '" + name + "' already exists. Removing it..."
  }

  /** The target is the directory `name` in the working directory. */
  function Target(name: String): Path {
    [name]
  }

  /** The existence check: refused (`None`), or the world after clearing the target when `--force` asks for it. */
  function Prepare(w: World, inp: Input): Option<World> {
    if !IsDir(w.fs, Target(inp.name)) then Some(w)
    else if !inp.force then None
    else
      var warned := SaySpec(w, Warning, RemovingWarning(inp.name));
      Some(SaySpec(DirectoryHelper.RemoveSpec(warned, Target(inp.name), DirectoryHelper.Io), Text, "Directory removed successfully."))
  }

  /** `_selectStarterKit`: the answer, or `saas` by default. */
  function SelectSpec(w: World, p: Prompts): (World, String) {
    (AskSpec(w, KitQuestion), p.kit.GetOr("saas"))
  }

  /** The kit after the prompts, which come only when `--starter-kit` is absent. */
  function ResolveKit(w: World, option: Option<String>, p: Prompts): (r: (World, Option<String>))
    ensures r.0.fs == w.fs && w.log <= r.0.log
    ensures option.Some? ==> r == (w, option)
    ensures option.None? && p.installMethod.GetOr("manual") != "starter-kit" ==>
      r == (AskSpec(w, MethodQuestion), None)
    ensures option.None? && p.installMethod.GetOr("manual") == "starter-kit" ==>
      r.0.log == w.log + [Asked(MethodQuestion), Asked(KitQuestion)] && r.1 == Some(p.kit.GetOr("saas"))
  {
    if option.Some? then (w, option)
    else
      var asked := AskSpec(w, MethodQuestion);
      if p.installMethod.GetOr("manual") == "starter-kit" then
        var selected := SelectSpec(asked, p);
        (selected.0, Some(selected.1))
      else (asked, None)
  }

  /** `if ($starterKit)`: a truthy kit goes to `StarterKitInstaller`, anything else to `CakePHPInstaller`. */
  function Dispatch(env: Env, w: World, name: String, kit: Option<String>, a: StarterKitInstaller.Answers): (World, Status) {
    if Truthy(kit) then StarterKitInstaller.InstallSpec(env, w, name, kit.value, a)
    else CakePHPInstaller.InstallSpec(env, w, name)
  }

  function NextSteps(name: String): seq<String> {
    ["", "Next steps:", "  cd " + name, "  bin/cake server", "", "Happy coding!"]
  }

  function SayLines(w: World, lines: seq<String>): World
    decreases |lines|
  {
    if |lines| == 0 then w else SayLines(SaySpec(w, Text, lines[0]), lines[1..])
  }

  /** The events `$io->text($lines)` adds: one text line each, in order. */
  function TextEvents(lines: seq<String>): seq<Event> {
    seq(|lines|, i requires 0 <= i < |lines| => Said(Text, lines[i]))
  }

  function Created(name: String): String {
    "CakePHP application '" + name + "' created successfully!"
  }

  /** The `try`/`catch` around the installer: the closing lines and the exit code. */
  function Conclude(w: World, name: String, s: Status): (World, int) {
    match s
    case Completed => (SayLines(SaySpec(w, Success, Created(name)), NextSteps(name)), ExitSuccess)
    case Thrown(m) => (SaySpec(w, Error, "Installation failed: " + m), ExitFailure)
  }

  /** Everything after the existence check. */
  function Proceed(env: Env, w: World, inp: Input, p: Prompts, a: StarterKitInstaller.Answers): (World, int) {
    var resolved := ResolveKit(w, inp.starterKit, p);
    var installed := Dispatch(env, resolved.0, inp.name, resolved.1, a);
    Conclude(installed.0, inp.name, installed.1)
  }

  function ExecuteSpec(env: Env, w: World, inp: Input, p: Prompts, a: StarterKitInstaller.Answers): (World, int) {
    var w1 := Banner(w, inp.name);
    var prepared := Prepare(w1, inp);
    if prepared.None? then (SaySpec(w1, Error, ExistsError(inp.name)), ExitFailure)
    else Proceed(env, prepared.value, inp, p, a)
  }

  // ---------------------------------------------------------------------
  // The command as the source runs it.

  method SelectStarterKit(h: Host, p: Prompts) returns (kit: String)
    modifies h
    ensures (h.State(), kit) == SelectSpec(old(h.State()), p)
  {
    h.Ask(KitQuestion);
    kit := p.kit.GetOr("saas");
  }

  method PrepareTarget(h: Host, inp: Input) returns (refused: bool)
    modifies h
    ensures refused <==> Prepare(old(h.State()), inp).None?
    ensures !refused ==> h.State() == Prepare(old(h.State()), inp).value
    ensures refused ==> h.State() == old(h.State())
  {
    refused := false;
    if IsDir(h.fs, Target(inp.name)) {
      if !inp.force {
        refused := true;
        return;
      }
      h.Say(Warning, RemovingWarning(inp.name));
      DirectoryHelper.RemoveDirectory(h, Target(inp.name), DirectoryHelper.Io);
      h.Say(Text, "Directory removed successfully.");
    }
  }

  method ResolveStarterKit(h: Host, option: Option<String>, p: Prompts) returns (starterKit: Option<String>)
    modifies h
    ensures (h.State(), starterKit) == ResolveKit(old(h.State()), option, p)
  {
    starterKit := option;
    if starterKit.None? {
      h.Ask(MethodQuestion);
      var choice := p.installMethod.GetOr("manual");
      if choice == "starter-kit" {
        var selected := SelectStarterKit(h, p);
        starterKit := Some(selected);
      }
    }
  }

  method RunInstaller(h: Host, name: String, kit: Option<String>, a: StarterKitInstaller.Answers) returns (status: Status)
    modifies h
    ensures (h.State(), status) == Dispatch(h.env, old(h.State()), name, kit, a)
  {
    if Truthy(kit) {
      status := StarterKitInstaller.Install(h, name, kit.value, a);
    } else {
      status := CakePHPInstaller.Install(h, name);
    }
  }

  method SayEach(h: Host, lines: seq<String>)
    modifies h
    ensures h.State() == SayLines(old(h.State()), lines)
  {
    var i := 0;
    while i < |lines|
      invariant 0 <= i <= |lines|
      invariant SayLines(h.State(), lines[i..]) == SayLines(old(h.State()), lines)
    {
      assert lines[i..][1..] == lines[i + 1..];
      h.Say(Text, lines[i]);
      i := i + 1;
    }
  }

  method Finish(h: Host, name: String, status: Status) returns (code: int)
    modifies h
    ensures (h.State(), code) == Conclude(old(h.State()), name, status)
  {
    match status
    case Completed =>
      h.Say(Success, Created(name));
      SayEach(h, NextSteps(name));
      code := ExitSuccess;
    case Thrown(m) =>
      h.Say(Error, "Installation failed: " + m);
      code := ExitFailure;
  }

  method Execute(h: Host, inp: Input, p: Prompts, a: StarterKitInstaller.Answers) returns (code: int)
    modifies h
    ensures (h.State(), code) == ExecuteSpec(h.env, old(h.State()), inp, p, a)
  {
    h.Say(Title, "CakePHP Application Installer");
    h.Say(Text, "Creating new CakePHP application: <info>" + inp.name + "</info>");
    var refused := PrepareTarget(h, inp);
    if refused {
      h.Say(Error, ExistsError(inp.name));
      return ExitFailure;
    }
    var starterKit := ResolveStarterKit(h, inp.starterKit, p);
    var status := RunInstaller(h, inp.name, starterKit, a);
    code := Finish(h, inp.name, status);
  }

  // ---------------------------------------------------------------------
  // Properties.

  /**
   * An existing target without `--force` fails at once: nothing is removed,
   * no prompt comes, no installer runs, and the error is the last word.
   */
  lemma RefusedWithoutForce(env: Env, w: World, inp: Input, p: Prompts, a: StarterKitInstaller.Answers)
    requires IsDir(w.fs, Target(inp.name)) && !inp.force
    ensures var r := ExecuteSpec(env, w, inp, p, a);
      r.1 == ExitFailure && r.0.fs == w.fs && Commands(r.0.log) == Commands(w.log) &&
      r.0.log == Banner(w, inp.name).log + [Said(Error, ExistsError(inp.name))]
  {
    var w1 := Banner(w, inp.name);
    CommandsOfSay(w, Title, "CakePHP Application Installer");
    CommandsOfSay(SaySpec(w, Title, "CakePHP Application Installer"), Text, "Creating new CakePHP application: <info>" + inp.name + "</info>");
    CommandsOfSay(w1, Error, ExistsError(inp.name));
  }

  /** Without a target directory the check does nothing, whatever `--force` says. */
  lemma NoTargetNoRemoval(w: World, inp: Input)
    requires !IsDir(w.fs, Target(inp.name))
    ensures Prepare(w, inp) == Some(w)
  {
  }

  /**
   * With `--force` the target is removed before anything else happens: no
   * process has run yet, and when nothing in it is locked it is gone by the
   * time the prompts and the installer come.
   */
  lemma ForceRemovesFirst(w: World, inp: Input)
    requires IsDir(w.fs, Target(inp.name)) && inp.force
    ensures Prepare(w, inp).Some?
    ensures Commands(Prepare(w, inp).value.log) == Commands(w.log)
    ensures DirectoryHelper.Locks(Get(w.fs, Target(inp.name)).value) == 0 ==>
      !Exists(Prepare(w, inp).value.fs, Target(inp.name))
  {
    var warned := SaySpec(w, Warning, RemovingWarning(inp.name));
    var removed := DirectoryHelper.RemoveSpec(warned, Target(inp.name), DirectoryHelper.Io);
    CommandsOfSay(w, Warning, RemovingWarning(inp.name));
    DirectoryHelper.RemoveOnlyDeletes(warned, Target(inp.name), DirectoryHelper.Io);
    CommandsOfSay(removed, Text, "Directory removed successfully.");
    if DirectoryHelper.Locks(Get(w.fs, Target(inp.name)).value) == 0 {
      DirectoryHelper.RemoveUnlocked(warned, Target(inp.name), DirectoryHelper.Io);
    }
  }

  /**
   * Answered with keys of their questions, the prompts settle on no kit
   * (manual installation) or on one of the six offered keys; Enter gives
   * manual installation, and Enter on the kit prompt gives `saas`.
   */
  lemma PromptedKitIsOffered(w: World, p: Prompts)
    requires Answerable(p)
    ensures var k := ResolveKit(w, None, p).1;
      k.None? || k.value in StarterKits
    ensures p.installMethod.None? ==> ResolveKit(w, None, p).1.None?
    ensures p.installMethod == Some("starter-kit") && p.kit.None? ==> ResolveKit(w, None, p).1 == Some("saas")
  {
  }

  /** `null`, `""` and `"0"` all mean manual installation. */
  lemma FalsyKitsAreManual(env: Env, w: World, name: String, a: StarterKitInstaller.Answers)
    ensures Dispatch(env, w, name, Some(""), a) == Dispatch(env, w, name, None, a)
    ensures Dispatch(env, w, name, Some("0"), a) == Dispatch(env, w, name, None, a)
  {
    assert !Truthy(Some("")) && !Truthy(Some("0"));
  }

  /** Manual installation is the single `composer create-project` run. */
  lemma ManualRunsCreateProject(env: Env, w: World, name: String, kit: Option<String>, a: StarterKitInstaller.Answers)
    requires !Truthy(kit)
    ensures var r := Dispatch(env, w, name, kit, a);
      Commands(r.0.log) == Commands(w.log) + [CakePHPInstaller.CreateProject(name)] &&
      (r.1 == Completed <==> env.runner(CakePHPInstaller.CreateProject(name), w.fs).ok)
  {
    CakePHPInstaller.InstallRunsCreateProject(env, w, name);
  }

  /**
   * The exit code is `SUCCESS` exactly when the installer returned, and
   * then the last line is the farewell; an exception gives `FAILURE`, and
   * its message is the last line, after `Installation failed: `.
   */
  lemma ExitCodeFollowsInstaller(w: World, name: String, s: Status)
    ensures var r := Conclude(w, name, s);
      (r.1 == ExitSuccess <==> s == Completed) && (r.1 == ExitSuccess || r.1 == ExitFailure) &&
      |r.0.log| > |w.log| && w.log <= r.0.log && r.0.fs == w.fs &&
      (s == Completed ==> r.0.log[|r.0.log| - 1] == Said(Text, "Happy coding!")) &&
      (s.Thrown? ==> r.0.log[|r.0.log| - 1] == Said(Error, "Installation failed: " + s.message))
  {
    if s == Completed {
      var w1 := SaySpec(w, Success, Created(name));
      SayLinesLog(w1, NextSteps(name));
    }
  }

  /** Saying lines appends one text event per line, in order. */
  lemma {:induction false} SayLinesLog(w: World, lines: seq<String>)
    ensures SayLines(w, lines).fs == w.fs
    ensures SayLines(w, lines).log == w.log + TextEvents(lines)
    decreases |lines|
  {
    if |lines| > 0 {
      var w1 := SaySpec(w, Text, lines[0]);
      SayLinesLog(w1, lines[1..]);
      assert TextEvents(lines) == [Said(Text, lines[0])] + TextEvents(lines[1..]);
    }
  }

  /** The banner starts no process. */
  lemma BannerCommands(w: World, name: String)
    ensures Commands(Banner(w, name).log) == Commands(w.log)
  {
    CommandsOfSay(w, Title, "CakePHP Application Installer");
    CommandsOfSay(SaySpec(w, Title, "CakePHP Application Installer"), Text, "Creating new CakePHP application: <info>" + name + "</info>");
  }

  /** The existence check, when it lets the command go on, starts no process. */
  lemma PrepareCommands(w: World, inp: Input)
    requires Prepare(w, inp).Some?
    ensures Commands(Prepare(w, inp).value.log) == Commands(w.log)
  {
    if IsDir(w.fs, Target(inp.name)) {
      ForceRemovesFirst(w, inp);
    }
  }

  /** The prompts start no process. */
  lemma ResolveKitCommands(w: World, option: Option<String>, p: Prompts)
    ensures Commands(ResolveKit(w, option, p).0.log) == Commands(w.log)
  {
    if option.None? {
      var asked := AskSpec(w, MethodQuestion);
      CommandsOfEmit(w, Asked(MethodQuestion));
      if p.installMethod.GetOr("manual") == "starter-kit" {
        CommandsOfEmit(asked, Asked(KitQuestion));
      }
    }
  }

  /**
   * After the installer the command says exactly the success line and the
   * next steps when it completed, and exactly the failure line when it
   * threw; neither starts a process.
   */
  lemma ConcludeLog(w: World, name: String, s: Status)
    ensures var r := Conclude(w, name, s);
      r.0.fs == w.fs && Commands(r.0.log) == Commands(w.log) &&
      (s == Completed ==> r.0.log == w.log + [Said(Success, Created(name))] + TextEvents(NextSteps(name))) &&
      (s.Thrown? ==> r.0.log == w.log + [Said(Error, "Installation failed: " + s.message)])
  {
    var tail: seq<Event>;
    if s == Completed {
      SayLinesLog(SaySpec(w, Success, Created(name)), NextSteps(name));
      tail := [Said(Success, Created(name))] + TextEvents(NextSteps(name));
    } else {
      tail := [Said(Error, "Installation failed: " + s.message)];
    }
    assert Conclude(w, name, s).0.log == w.log + tail;
    CommandsOfQuiet(tail);
    CommandsConcat(w.log, tail);
  }

  /**
   * The exit code is `SUCCESS` or `FAILURE`, and `SUCCESS` exactly when the
   * installer completed. Every process is the installer's: the command's
   * own banner, check, prompts and closing lines start none. When the
   * installer completes, all the command says after it is the success line
   * and the next steps, so no error; when it throws, the last word is the
   * failure line.
   */
  lemma ExecuteOutcome(env: Env, w: World, inp: Input, p: Prompts, a: StarterKitInstaller.Answers)
    ensures var r := ExecuteSpec(env, w, inp, p, a);
      r.1 == ExitSuccess || r.1 == ExitFailure
    ensures var r := ExecuteSpec(env, w, inp, p, a);
      Prepare(Banner(w, inp.name), inp).None? ==> r.1 == ExitFailure && Commands(r.0.log) == Commands(w.log)
    ensures var w1 := Banner(w, inp.name);
      var r := ExecuteSpec(env, w, inp, p, a);
      Prepare(w1, inp).Some? ==>
        var resolved := ResolveKit(Prepare(w1, inp).value, inp.starterKit, p);
        var installed := Dispatch(env, resolved.0, inp.name, resolved.1, a);
        Commands(resolved.0.log) == Commands(w.log) &&
        Commands(r.0.log) == Commands(installed.0.log) &&
        (r.1 == ExitSuccess <==> installed.1 == Completed) &&
        (installed.1 == Completed ==>
          r.0.log == installed.0.log + [Said(Success, Created(inp.name))] + TextEvents(NextSteps(inp.name))) &&
        (installed.1.Thrown? ==>
          r.0.log == installed.0.log + [Said(Error, "Installation failed: " + installed.1.message)])
  {
    var w1 := Banner(w, inp.name);
    BannerCommands(w, inp.name);
    if Prepare(w1, inp).Some? {
      var prepared := Prepare(w1, inp).value;
      PrepareCommands(w1, inp);
      var resolved := ResolveKit(prepared, inp.starterKit, p);
      ResolveKitCommands(prepared, inp.starterKit, p);
      var installed := Dispatch(env, resolved.0, inp.name, resolved.1, a);
      ExitCodeFollowsInstaller(installed.0, inp.name, installed.1);
      ConcludeLog(installed.0, inp.name, installed.1);
    } else {
      CommandsOfSay(w1, Error, ExistsError(inp.name));
    }
  }
}
