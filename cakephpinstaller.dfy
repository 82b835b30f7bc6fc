/**
 * `CakePHPInstaller::install`: one `composer create-project` run, fatal
 * when the process fails.
 */
module CakePHPInstaller {
  import opened Prelude
  import opened Host

  /** `composer create-project --prefer-dist cakephp/app <name>`, with a 300 second timeout. */
  function CreateProject(name: String): Command {
    Command(["composer", "create-project", "--prefer-dist", "cakephp/app", name], None, 300, None)
  }

  function InstallSpec(env: Env, w: World, name: String): (World, Status) {
    var w1 := SaySpec(w, Section, "Installing CakePHP 5 application");
    var w2 := RunSpec(env, w1, CreateProject(name)).0;
    var r := RunSpec(env, w1, CreateProject(name)).1;
    (w2, if r.ok then Completed else Thrown("Failed to create CakePHP project: " + r.errorOutput))
  }

  method Install(h: Host, name: String) returns (status: Status)
    modifies h
    ensures (h.State(), status) == InstallSpec(h.env, old(h.State()), name)
  {
    h.Say(Section, "Installing CakePHP 5 application");
    var r := h.Run(CreateProject(name));
    if !r.ok {
      return Thrown("Failed to create CakePHP project: " + r.errorOutput);
    }
    status := Completed;
  }

  /**
   * Exactly one process runs, `composer create-project --prefer-dist
   * cakephp/app <name>` in the current directory with a 300 second timeout
   * and no input, and the filesystem is whatever that process leaves. The
   * outcome depends on `isSuccessful()` alone, whatever the process wrote
   * to its error stream: success returns normally, failure throws with the
   * error output in the message.
   */
  lemma InstallRunsCreateProject(env: Env, w: World, name: String)
    ensures var w' := InstallSpec(env, w, name).0;
      var status := InstallSpec(env, w, name).1;
      var r := env.runner(Command(["composer", "create-project", "--prefer-dist", "cakephp/app", name], None, 300, None), w.fs);
      Commands(w'.log) == Commands(w.log) + [Command(["composer", "create-project", "--prefer-dist", "cakephp/app", name], None, 300, None)] &&
      w'.fs == r.fs &&
      (status == Completed <==> r.ok) &&
      (!r.ok ==> status == Thrown("Failed to create CakePHP project: " + r.errorOutput))
  {
    var w1 := SaySpec(w, Section, "Installing CakePHP 5 application");
    CommandsOfSay(w, Section, "Installing CakePHP 5 application");
    CommandsOfRun(env, w1, CreateProject(name));
  }
}
