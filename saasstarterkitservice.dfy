/**
 * `SaasStarterKitService::install`: clone the starter kit, drop its `.git`,
 * install the Composer dependencies (both fatal on failure), then the
 * optional NPM install and build and the final `bin/cake setup -n`, whose
 * results are never looked at.
 */
module SaasStarterKitService {
  import opened Prelude
  import opened FileTree
  import opened Host
  import DirectoryHelper

  const RepositoryUrl: String := "https://github.com/sandeep-kadyan/cakephp-starter-kit.git"

  function Clone(name: String): Command {
    Command(["git", "clone", RepositoryUrl, name], None, 300, None)
  }

  function ComposerInstall(name: String): Command {
    Command(["composer", "install"], Some(name), 300, None)
  }

  function NpmInstall(name: String): Command {
    Command(["npm", "install"], Some(name), 300, None)
  }

  function NpmBuild(name: String): Command {
    Command(["npm", "run", "build"], Some(name), 300, None)
  }

  /** `[php] bin/cake setup -n`, answering `Y` to its question. */
  function Setup(windows: bool, name: String): Command {
    Command((if windows then ["php", "bin/cake"] else ["bin/cake"]) + ["setup", "-n"], Some(name), 120, Some("Y\n"))
  }

  function GitDir(name: String): Path {
    [name, ".git"]
  }

  function PackageJson(name: String): Path {
    [name, "package.json"]
  }

  // ---------------------------------------------------------------------
  // The steps, on worlds.

  function CloneStep(env: Env, w: World, name: String): (World, Status) {
    var w1 := SaySpec(w, Text, "Installing SAAS starter kit from GitHub...");
    var run := RunSpec(env, w1, Clone(name));
    (run.0, if run.1.ok then Completed else Thrown("Failed to clone SAAS starter kit: " + run.1.errorOutput))
  }

  function StripGit(w: World, name: String): World {
    if IsDir(w.fs, GitDir(name)) then DirectoryHelper.RemoveSpec(w, GitDir(name), DirectoryHelper.Io) else w
  }

  function ComposerStep(env: Env, w: World, name: String): (World, Status) {
    var w1 := SaySpec(w, Text, "Installing Composer dependencies...");
    var run := RunSpec(env, w1, ComposerInstall(name));
    (run.0, if run.1.ok then Completed else Thrown("Failed to install Composer dependencies: " + run.1.errorOutput))
  }

  function NpmInstallStep(env: Env, w: World, name: String): World {
    if Exists(w.fs, PackageJson(name)) then
      RunSpec(env, SaySpec(w, Text, "Installing NPM dependencies..."), NpmInstall(name)).0
    else w
  }

  /** What `file_get_contents` gives for `package.json`, or `''` when it is absent. */
  function PackageJsonContent(fs: Node, name: String): String {
    if Exists(fs, PackageJson(name)) then OrEmpty(Read(fs, PackageJson(name))) else ""
  }

  function BuildStep(env: Env, w: World, name: String): World {
    if Contains(PackageJsonContent(w.fs, name), "\"build\"") then
      RunSpec(env, SaySpec(w, Text, "Building assets..."), NpmBuild(name)).0
    else w
  }

  function SetupStep(env: Env, w: World, name: String): World {
    RunSpec(env, w, Setup(env.windows, name)).0
  }

  function InstallSpec(env: Env, w: World, name: String): (World, Status) {
    var cloned := CloneStep(env, w, name);
    if cloned.1.Thrown? then cloned
    else
      var composed := ComposerStep(env, StripGit(cloned.0, name), name);
      if composed.1.Thrown? then composed
      else (Finish(env, composed.0, name), Completed)
  }

  // ---------------------------------------------------------------------
  // The steps as the source runs them.

  method Install(h: Host, name: String) returns (status: Status)
    modifies h
    ensures (h.State(), status) == InstallSpec(h.env, old(h.State()), name)
  {
    status := RunClone(h, name);
    if status.Thrown? {
      return;
    }
    RunStripGit(h, name);
    status := RunComposer(h, name);
    if status.Thrown? {
      return;
    }
    RunNpmInstall(h, name);
    RunBuild(h, name);
    var r := h.Run(Setup(h.env.windows, name));
  }

  method RunClone(h: Host, name: String) returns (status: Status)
    modifies h
    ensures (h.State(), status) == CloneStep(h.env, old(h.State()), name)
  {
    h.Say(Text, "Installing SAAS starter kit from GitHub...");
    var r := h.Run(Clone(name));
    status := if r.ok then Completed else Thrown("Failed to clone SAAS starter kit: " + r.errorOutput);
  }

  method RunStripGit(h: Host, name: String)
    modifies h
    ensures h.State() == StripGit(old(h.State()), name)
  {
    if IsDir(h.fs, GitDir(name)) {
      DirectoryHelper.RemoveDirectory(h, GitDir(name), DirectoryHelper.Io);
    }
  }

  method RunComposer(h: Host, name: String) returns (status: Status)
    modifies h
    ensures (h.State(), status) == ComposerStep(h.env, old(h.State()), name)
  {
    h.Say(Text, "Installing Composer dependencies...");
    var r := h.Run(ComposerInstall(name));
    status := if r.ok then Completed else Thrown("Failed to install Composer dependencies: " + r.errorOutput);
  }

  method RunNpmInstall(h: Host, name: String)
    modifies h
    ensures h.State() == NpmInstallStep(h.env, old(h.State()), name)
  {
    if Exists(h.fs, PackageJson(name)) {
      h.Say(Text, "Installing NPM dependencies...");
      var r := h.Run(NpmInstall(name));
    }
  }

  method RunBuild(h: Host, name: String)
    modifies h
    ensures h.State() == BuildStep(h.env, old(h.State()), name)
  {
    var content := if Exists(h.fs, PackageJson(name)) then OrEmpty(Read(h.fs, PackageJson(name))) else "";
    if Contains(content, "\"build\"") {
      h.Say(Text, "Building assets...");
      var r := h.Run(NpmBuild(name));
    }
  }

  // ---------------------------------------------------------------------
  // Properties.

  /** A failed clone throws at once: nothing but its line and the clone itself is logged. */
  lemma CloneFailureStops(env: Env, w: World, name: String)
    requires !env.runner(Clone(name), w.fs).ok
    ensures var w' := InstallSpec(env, w, name).0;
      var status := InstallSpec(env, w, name).1;
      status == Thrown("Failed to clone SAAS starter kit: " + env.runner(Clone(name), w.fs).errorOutput) &&
      w' == World(env.runner(Clone(name), w.fs).fs, w.log + [Said(Text, "Installing SAAS starter kit from GitHub..."), Ran(Clone(name))]) &&
      Commands(w'.log) == Commands(w.log) + [Command(["git", "clone", RepositoryUrl, name], None, 300, None)]
  {
    CommandsOfSay(w, Text, "Installing SAAS starter kit from GitHub...");
    CommandsOfRun(env, SaySpec(w, Text, "Installing SAAS starter kit from GitHub..."), Clone(name));
  }

  /** The world right after a successful clone (for stating the later steps). */
  function Cloned(env: Env, w: World, name: String): World {
    CloneStep(env, w, name).0
  }

  /**
   * After a successful clone, `name/.git` is removed (only when it is a
   * directory) before `composer install` runs in `name`; a failed composer
   * run throws and nothing after it runs.
   */
  lemma ComposerFailureStops(env: Env, w: World, name: String)
    requires env.runner(Clone(name), w.fs).ok
    requires !env.runner(ComposerInstall(name), StripGit(Cloned(env, w, name), name).fs).ok
    ensures var w' := InstallSpec(env, w, name).0;
      var status := InstallSpec(env, w, name).1;
      var err := env.runner(ComposerInstall(name), StripGit(Cloned(env, w, name), name).fs).errorOutput;
      status == Thrown("Failed to install Composer dependencies: " + err) &&
      Commands(w'.log) == Commands(w.log) + [Clone(name), Command(["composer", "install"], Some(name), 300, None)]
  {
    CloneCommands(env, w, name);
    var w2 := StripGit(Cloned(env, w, name), name);
    StripGitCommands(Cloned(env, w, name), name);
    ComposerCommands(env, w2, name);
  }

  lemma CloneCommands(env: Env, w: World, name: String)
    ensures Commands(Cloned(env, w, name).log) == Commands(w.log) + [Clone(name)]
  {
    CommandsOfSay(w, Text, "Installing SAAS starter kit from GitHub...");
    CommandsOfRun(env, SaySpec(w, Text, "Installing SAAS starter kit from GitHub..."), Clone(name));
  }

  lemma StripGitCommands(w: World, name: String)
    ensures Commands(StripGit(w, name).log) == Commands(w.log)
  {
    if IsDir(w.fs, GitDir(name)) {
      DirectoryHelper.RemoveOnlyDeletes(w, GitDir(name), DirectoryHelper.Io);
    }
  }

  lemma ComposerCommands(env: Env, w: World, name: String)
    ensures Commands(ComposerStep(env, w, name).0.log) == Commands(w.log) + [ComposerInstall(name)]
  {
    CommandsOfSay(w, Text, "Installing Composer dependencies...");
    CommandsOfRun(env, SaySpec(w, Text, "Installing Composer dependencies..."), ComposerInstall(name));
  }

  /**
   * `name/.git` is touched only when it is a directory, and then it is gone
   * unless something in it is locked.
   */
  lemma StripGitOnlyWhenDir(w: World, name: String)
    ensures !IsDir(w.fs, GitDir(name)) ==> StripGit(w, name) == w
    ensures IsDir(w.fs, GitDir(name)) && DirectoryHelper.Locks(Get(w.fs, GitDir(name)).value) == 0 ==>
      !Exists(StripGit(w, name).fs, GitDir(name))
  {
    if IsDir(w.fs, GitDir(name)) && DirectoryHelper.Locks(Get(w.fs, GitDir(name)).value) == 0 {
      DirectoryHelper.RemoveUnlocked(w, GitDir(name), DirectoryHelper.Io);
    }
  }

  /**
   * Once clone and composer succeed the install always completes: the
   * processes are exactly clone, composer, `npm install` if and only if
   * `package.json` exists, `npm run build` if and only if the content of
   * `package.json` then contains `"build"` (so never without the file), and
   * last `[php] bin/cake setup -n` with input `Y`; none of the last three
   * results is looked at.
   */
  lemma SuccessfulInstall(env: Env, w: World, name: String)
    requires env.runner(Clone(name), w.fs).ok
    requires env.runner(ComposerInstall(name), StripGit(Cloned(env, w, name), name).fs).ok
    ensures var w2 := ComposerStep(env, StripGit(Cloned(env, w, name), name), name).0;
      var w3 := NpmInstallStep(env, w2, name);
      InstallSpec(env, w, name).1 == Completed &&
      Commands(InstallSpec(env, w, name).0.log) == Commands(w.log) + [Clone(name), ComposerInstall(name)]
        + (if Exists(w2.fs, PackageJson(name)) then [NpmInstall(name)] else [])
        + (if Contains(PackageJsonContent(w3.fs, name), "\"build\"") then [NpmBuild(name)] else [])
        + [Setup(env.windows, name)]
  {
    var w1 := StripGit(Cloned(env, w, name), name);
    var w2 := ComposerStep(env, w1, name).0;
    assert InstallSpec(env, w, name) == (Finish(env, w2, name), Completed);
    CloneCommands(env, w, name);
    StripGitCommands(Cloned(env, w, name), name);
    ComposerCommands(env, w1, name);
    assert Commands(w2.log) == Commands(w.log) + [Clone(name), ComposerInstall(name)];
    FinishCommands(env, w2, name);
  }

  /** The steps after a successful composer run, none of which can fail. */
  function Finish(env: Env, w: World, name: String): World {
    SetupStep(env, BuildStep(env, NpmInstallStep(env, w, name), name), name)
  }

  lemma FinishCommands(env: Env, w: World, name: String)
    ensures var w3 := NpmInstallStep(env, w, name);
      Commands(Finish(env, w, name).log) == Commands(w.log)
        + (if Exists(w.fs, PackageJson(name)) then [NpmInstall(name)] else [])
        + (if Contains(PackageJsonContent(w3.fs, name), "\"build\"") then [NpmBuild(name)] else [])
        + [Setup(env.windows, name)]
  {
    var w3 := NpmInstallStep(env, w, name);
    var w4 := BuildStep(env, w3, name);
    NpmInstallCommands(env, w, name);
    BuildCommands(env, w3, name);
    CommandsOfRun(env, w4, Setup(env.windows, name));
  }

  lemma NpmInstallCommands(env: Env, w: World, name: String)
    ensures Commands(NpmInstallStep(env, w, name).log)
      == Commands(w.log) + (if Exists(w.fs, PackageJson(name)) then [NpmInstall(name)] else [])
  {
    if Exists(w.fs, PackageJson(name)) {
      CommandsOfSay(w, Text, "Installing NPM dependencies...");
      CommandsOfRun(env, SaySpec(w, Text, "Installing NPM dependencies..."), NpmInstall(name));
    } else {
      assert Commands(w.log) + [] == Commands(w.log);
    }
  }

  lemma BuildCommands(env: Env, w: World, name: String)
    ensures Commands(BuildStep(env, w, name).log)
      == Commands(w.log) + (if Contains(PackageJsonContent(w.fs, name), "\"build\"") then [NpmBuild(name)] else [])
  {
    if Contains(PackageJsonContent(w.fs, name), "\"build\"") {
      CommandsOfSay(w, Text, "Building assets...");
      CommandsOfRun(env, SaySpec(w, Text, "Building assets..."), NpmBuild(name));
    } else {
      assert Commands(w.log) + [] == Commands(w.log);
    }
  }

  /** Without `package.json` there is no build, whatever happened before. */
  lemma NoBuildWithoutPackageJson(fs: Node, name: String)
    requires !Exists(fs, PackageJson(name))
    ensures !Contains(PackageJsonContent(fs, name), "\"build\"")
  {
  }
}
