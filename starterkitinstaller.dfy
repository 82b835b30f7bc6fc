/**
 * `StarterKitInstaller`: runs the service of a registered starter kit and
 * then configures the new application in four phases (database, security
 * salt and debug flag, email, migrations), each configuration phase being
 * one rewrite of `config/.env`; any other kit falls back to the plain
 * Composer install with no configuration.
 */
module StarterKitInstaller {
  import opened Prelude
  import opened FileTree
  import opened Host
  import opened EnvFile
  import CakePHPInstaller
  import SaasStarterKitService
  import SimpleStarterKitService

  /** The registered starter kits. */
  datatype Kit = SaasKit | SimpleKit

  /** `$this->starterKitServices[$starterKit]`, if set. */
  function Lookup(key: String): Option<Kit> {
    if key == "saas" then Some(SaasKit)
    else if key == "simple" then Some(SimpleKit)
    else None
  }

  /**
   * The answers to the configuration prompts. `None` is an answer left
   * empty: the prompt's default where it has one, PHP `null` otherwise.
   */
  datatype Answers = Answers(
    dbHost: Option<String>, dbPort: Option<String>, dbName: Option<String>, dbUser: Option<String>,
    dbPassword: Option<String>, debug: Option<String>,
    smtpHost: Option<String>, smtpPort: Option<String>, smtpUser: Option<String>,
    smtpPassword: Option<String>, smtpClient: Option<String>)

  function DbName(a: Answers): String {
    a.dbName.GetOr("cakephp_app")
  }

  function DbSettingsOf(a: Answers): DbSettings {
    DbSettings(a.dbHost.GetOr("localhost"), a.dbPort.GetOr("3306"), DbName(a), a.dbUser.GetOr("root"), OrEmpty(a.dbPassword))
  }

  function DatabaseVars(a: Answers): seq<Assign> {
    var s := DbSettingsOf(a);
    [Assign("export DB_HOST", s.host),
     Assign("export DB_PORT", s.port),
     Assign("export DB_DATABASE", s.name),
     Assign("export DB_USERNAME", s.user),
     Assign("export DB_PASSWORD", s.password)]
  }

  /** `bin2hex(random_bytes(32))` */
  function Salt(env: Env): String {
    Bin2Hex(env.entropy)
  }

  function SecurityVars(env: Env, a: Answers): seq<Assign> {
    [Assign("export SECURITY_SALT", Salt(env)),
     Assign("export DEBUG", a.debug.GetOr("false"))]
  }

  function EmailVars(a: Answers): seq<Assign> {
    [Assign("export EMAIL_TRANSPORT_HOST", a.smtpHost.GetOr("smtp.gmail.com")),
     Assign("export EMAIL_TRANSPORT_PORT", a.smtpPort.GetOr("587")),
     Assign("export EMAIL_TRANSPORT_USERNAME", OrEmpty(a.smtpUser)),
     Assign("export EMAIL_TRANSPORT_PASSWORD", OrEmpty(a.smtpPassword)),
     Assign("export EMAIL_TRANSPORT_CLIENT", OrEmpty(a.smtpClient)),
     Assign("export EMAIL_FROM", OrEmpty(a.smtpUser))]
  }

  /** `bin/cake migrations migrate` in the project, with a 120 second timeout. */
  function Migrate(name: String): Command {
    Command(["bin/cake", "migrations", "migrate"], Some(name), 120, None)
  }

  // ---------------------------------------------------------------------
  // `_updateEnvFile`

  function EnvPath(project: String): Path {
    [project, "config", ".env"]
  }

  function ConfigExample(project: String): Path {
    [project, "config", ".env.example"]
  }

  function RootExample(project: String): Path {
    [project, ".env.example"]
  }

  /** `config/.env.example` when it exists, the root `.env.example` otherwise. */
  function ExamplePath(fs: Node, project: String): Path {
    if Exists(fs, ConfigExample(project)) then ConfigExample(project) else RootExample(project)
  }

  /** Seeding changes the filesystem only. */
  lemma SeedKeepsLog(w: World, project: String)
    ensures SeedSpec(w, project).log == w.log
  {
  }

  /** A missing `config/.env` is copied from the example, when that exists. */
  function SeedSpec(w: World, project: String): World {
    if !Exists(w.fs, EnvPath(project)) && Exists(w.fs, ExamplePath(w.fs, project)) then
      CopySpec(w, ExamplePath(w.fs, project), EnvPath(project))
    else w
  }

  /** `file($envFile, ...)` when `config/.env` exists, `[]` otherwise (a directory reads as no lines). */
  function LinesRead(fs: Node, project: String): seq<String> {
    if Exists(fs, EnvPath(project)) then ReadLines(OrEmpty(Read(fs, EnvPath(project)))) else []
  }

  function WriteWarning(p: Path): String {
    "Could not write to " + Show(p) + ". \n" +
    "                The file may be locked or in use by another process. \n" +
    "                Please close any editors or Composer processes and try again."
  }

  /** `file_put_contents` of `config/.env`, and the warning when it fails. */
  function WriteEnv(w: World, project: String, content: String): World {
    var written := WriteSpec(w, EnvPath(project), content);
    if written.1 then written.0 else SaySpec(written.0, Warning, WriteWarning(EnvPath(project)))
  }

  function UpdateEnvSpec(env: Env, w: World, project: String, vars: seq<Assign>): World {
    var seeded := SeedSpec(w, project);
    WriteEnv(seeded, project, Merge(LinesRead(seeded.fs, project), vars, Eol(env)))
  }

  /** The first loop of `_updateEnvFile`: the entry lines, into an ordered array. */
  method ParseLines(lines: seq<String>) returns (m: EnvMap)
    ensures Valid(m) && m == Parse(lines)
  {
    m := Empty;
    var i := 0;
    while i < |lines|
      invariant 0 <= i <= |lines|
      invariant Valid(m) && m == PutAll(Empty, Entries(lines[..i]))
    {
      var line := lines[i];
      EntriesSnoc(lines, i);
      if IsEntry(line) {
        PutAllSnoc(Empty, Entries(lines[..i]), Split(line));
        m := Put(m, Split(line));
      } else {
        assert Entries(lines[..i + 1]) == Entries(lines[..i]);
      }
      i := i + 1;
    }
    assert lines[..|lines|] == lines;
  }

  /** The second loop: the given pairs, over the array read. */
  method PutEach(m0: EnvMap, vars: seq<Assign>) returns (m: EnvMap)
    requires Valid(m0)
    ensures Valid(m) && m == PutAll(m0, vars)
  {
    m := m0;
    var j := 0;
    while j < |vars|
      invariant 0 <= j <= |vars|
      invariant Valid(m) && m == PutAll(m0, vars[..j])
    {
      assert vars[..j + 1] == vars[..j] + [vars[j]];
      PutAllSnoc(m0, vars[..j], vars[j]);
      m := Put(m, vars[j]);
      j := j + 1;
    }
    assert vars[..|vars|] == vars;
  }

  /** The third loop: one `key=value` line per key, in the array's order. */
  method RenderMap(m: EnvMap) returns (newLines: seq<String>)
    requires Valid(m)
    ensures newLines == RenderLines(m)
  {
    newLines := [];
    var k := 0;
    while k < |m.order|
      invariant 0 <= k <= |m.order|
      invariant newLines == RenderLines(m)[..k]
    {
      var key := m.order[k];
      assert RenderLines(m)[..k + 1] == RenderLines(m)[..k] + [key + "=" + m.values[key]];
      newLines := newLines + [key + "=" + m.values[key]];
      k := k + 1;
    }
    assert newLines == RenderLines(m);
  }

  /** The first step of `_updateEnvFile`: a missing `config/.env` is copied from the example. */
  method SeedEnvFile(h: Host, project: String)
    modifies h
    ensures h.State() == SeedSpec(old(h.State()), project)
  {
    var envFile := EnvPath(project);
    var example := if Exists(h.fs, ConfigExample(project)) then ConfigExample(project) else RootExample(project);
    if !Exists(h.fs, envFile) && Exists(h.fs, example) {
      h.Copy(example, envFile);
    }
  }

  method UpdateEnvFile(h: Host, project: String, vars: seq<Assign>)
    modifies h
    ensures h.State() == UpdateEnvSpec(h.env, old(h.State()), project, vars)
  {
    var envFile := EnvPath(project);
    SeedEnvFile(h, project);
    ghost var seeded := h.State();
    var lines: seq<String> := [];
    if Exists(h.fs, envFile) {
      lines := ReadLines(OrEmpty(Read(h.fs, envFile)));
    }
    assert lines == LinesRead(h.fs, project);

    var envMap := ParseLines(lines);
    envMap := PutEach(envMap, vars);
    var newLines := RenderMap(envMap);
    var envContent := Implode(newLines, Eol(h.env)) + Eol(h.env);
    assert envContent == Merge(LinesRead(seeded.fs, project), vars, Eol(h.env));
    WriteEnvFile(h, project, envContent);
  }

  method WriteEnvFile(h: Host, project: String, content: String)
    modifies h
    ensures h.State() == WriteEnv(old(h.State()), project, content)
  {
    var envFile := EnvPath(project);
    var ok := h.Write(envFile, content);
    if !ok {
      h.Say(Warning, WriteWarning(envFile));
    }
  }

  // ---------------------------------------------------------------------
  // The phases.

  /** The section heading and the five database prompts. */
  function DatabaseQuestions(w: World): World {
    AskSpec(AskSpec(AskSpec(AskSpec(AskSpec(SaySpec(w, Section, "Database Configuration"),
      "Database host"), "Database port"), "Database name"), "Database username"), "Database password")
  }

  /** What is said once PDO has checked for (and perhaps created) the database `dbName`. */
  function DatabaseReport(r: DbReply, dbName: String): (e: Event)
    ensures e.Said?
  {
    match r
    case Created => Said(Success, "Database '" + dbName + "' created successfully!")
    case AlreadyExists => Said(Text, "Database '" + dbName + "' already exists.")
    case Failed(message) => Said(Warning, "Could not check or create database: " + message)
  }

  function DatabaseOutcome(env: Env, w: World, a: Answers): World {
    EmitSpec(w, DatabaseReport(env.database(DbSettingsOf(a)), DbName(a)))
  }

  function DatabaseSaved(env: Env, w: World, name: String, a: Answers): World {
    SaySpec(UpdateEnvSpec(env, DatabaseQuestions(w), name, DatabaseVars(a)), Success, "Database configuration saved to .env!")
  }

  function DatabasePhase(env: Env, w: World, name: String, a: Answers): World {
    DatabaseOutcome(env, DatabaseSaved(env, w, name, a), a)
  }

  function SecurityPhase(env: Env, w: World, name: String, a: Answers): World {
    var asked := AskSpec(w, "Set debug mode? (true/false)");
    SaySpec(UpdateEnvSpec(env, asked, name, SecurityVars(env, a)), Success, "Security salt and debug value updated in .env!")
  }

  /** The section heading and the five SMTP prompts. */
  function EmailQuestions(w: World): World {
    AskSpec(AskSpec(AskSpec(AskSpec(AskSpec(SaySpec(w, Section, "Email Configuration"),
      "SMTP Host"), "SMTP Port"), "SMTP Username"), "SMTP Password"), "SMTP Client")
  }

  function EmailPhase(env: Env, w: World, name: String, a: Answers): World {
    SaySpec(UpdateEnvSpec(env, EmailQuestions(w), name, EmailVars(a)), Success, "Email configuration saved to .env!")
  }

  function MigrationPhase(env: Env, w: World, name: String): World {
    var w1 := SaySpec(SaySpec(w, Section, "Running Database Migrations"), Text, "Running migrations...");
    var w2 := RunSpec(env, w1, Migrate(name)).0;
    var r := RunSpec(env, w1, Migrate(name)).1;
    if r.ok then SaySpec(w2, Success, "Migrations completed successfully!")
    else SaySpec(w2, Warning, "Migrations failed: " + r.errorOutput)
  }

  /** The configuration of `config/.env`, before the migrations. */
  function Configure(env: Env, w: World, name: String, a: Answers): World {
    EmailPhase(env, SecurityPhase(env, DatabasePhase(env, w, name, a), name, a), name, a)
  }

  function Phases(env: Env, w: World, name: String, a: Answers): World {
    MigrationPhase(env, Configure(env, w, name, a), name)
  }

  method ConfigureDatabase(h: Host, name: String, a: Answers)
    modifies h
    ensures h.State() == DatabasePhase(h.env, old(h.State()), name, a)
  {
    h.Say(Section, "Database Configuration");
    h.Ask("Database host");
    h.Ask("Database port");
    h.Ask("Database name");
    h.Ask("Database username");
    h.Ask("Database password");
    assert h.State() == DatabaseQuestions(old(h.State()));
    UpdateEnvFile(h, name, DatabaseVars(a));
    h.Say(Success, "Database configuration saved to .env!");
    assert h.State() == DatabaseSaved(h.env, old(h.State()), name, a);
    var dbName := DbName(a);
    match h.env.database(DbSettingsOf(a))
    case Created =>
      h.Say(Success, "Database '" + dbName + "' created successfully!");
    case AlreadyExists =>
      h.Say(Text, "Database '" + dbName + "' already exists.");
    case Failed(message) =>
      h.Say(Warning, "Could not check or create database: " + message);
  }

  method UpdateSecurityAndDebug(h: Host, name: String, a: Answers)
    modifies h
    ensures h.State() == SecurityPhase(h.env, old(h.State()), name, a)
  {
    h.Ask("Set debug mode? (true/false)");
    UpdateEnvFile(h, name, SecurityVars(h.env, a));
    h.Say(Success, "Security salt and debug value updated in .env!");
  }

  method ConfigureEmail(h: Host, name: String, a: Answers)
    modifies h
    ensures h.State() == EmailPhase(h.env, old(h.State()), name, a)
  {
    h.Say(Section, "Email Configuration");
    h.Ask("SMTP Host");
    h.Ask("SMTP Port");
    h.Ask("SMTP Username");
    h.Ask("SMTP Password");
    h.Ask("SMTP Client");
    assert h.State() == EmailQuestions(old(h.State()));
    UpdateEnvFile(h, name, EmailVars(a));
    h.Say(Success, "Email configuration saved to .env!");
  }

  method RunMigrations(h: Host, name: String)
    modifies h
    ensures h.State() == MigrationPhase(h.env, old(h.State()), name)
  {
    h.Say(Section, "Running Database Migrations");
    h.Say(Text, "Running migrations...");
    var r := h.Run(Migrate(name));
    if r.ok {
      h.Say(Success, "Migrations completed successfully!");
    } else {
      h.Say(Warning, "Migrations failed: " + r.errorOutput);
    }
  }

  // ---------------------------------------------------------------------
  // `install`

  function ServiceSpec(env: Env, w: World, kit: Kit, name: String): (World, Status) {
    match kit
    case SaasKit => SaasStarterKitService.InstallSpec(env, w, name)
    case SimpleKit => SimpleStarterKitService.InstallSpec(w, name)
  }

  function Heading(key: String): String {
    "Installing " + key + " starter kit"
  }

  function Installed(key: String): String {
    key + " starter kit installed successfully!"
  }

  /** A registered kit: its service, then (unless it threw) the four phases. */
  function KitSpec(env: Env, w: World, kit: Kit, name: String, key: String, a: Answers): (World, Status) {
    var served := ServiceSpec(env, w, kit, name);
    if served.1.Thrown? then served
    else (Finish(env, served.0, name, key, a), Completed)
  }

  /** The four phases and the closing success line. */
  function Finish(env: Env, w: World, name: String, key: String, a: Answers): World {
    SaySpec(Phases(env, w, name, a), Success, Installed(key))
  }

  /** Any other key: the plain Composer install. */
  function BasicSpec(env: Env, w: World, name: String): (World, Status) {
    var basic := CakePHPInstaller.InstallSpec(env, w, name);
    if basic.1.Thrown? then basic
    else (SaySpec(basic.0, Success, "Basic CakePHP application installed."), Completed)
  }

  function InstallSpec(env: Env, w: World, name: String, key: String, a: Answers): (World, Status) {
    var w1 := SaySpec(w, Section, Heading(key));
    if Lookup(key).Some? then KitSpec(env, w1, Lookup(key).value, name, key, a)
    else BasicSpec(env, w1, name)
  }

  /** `new $serviceClass($this->io)` and its `install($name)`. */
  method RunService(h: Host, kit: Kit, name: String) returns (status: Status)
    modifies h
    ensures (h.State(), status) == ServiceSpec(h.env, old(h.State()), kit, name)
  {
    match kit
    case SaasKit =>
      status := SaasStarterKitService.Install(h, name);
    case SimpleKit =>
      status := SimpleStarterKitService.Install(h, name);
  }

  /** The four phases after a kit's service, in order. */
  method RunPhases(h: Host, name: String, a: Answers)
    modifies h
    ensures h.State() == Phases(h.env, old(h.State()), name, a)
  {
    ConfigureDatabase(h, name, a);
    UpdateSecurityAndDebug(h, name, a);
    ConfigureEmail(h, name, a);
    RunMigrations(h, name);
  }

  method Install(h: Host, name: String, key: String, a: Answers) returns (status: Status)
    modifies h
    ensures (h.State(), status) == InstallSpec(h.env, old(h.State()), name, key, a)
  {
    h.Say(Section, Heading(key));
    var kit := Lookup(key);
    if kit.Some? {
      status := InstallKit(h, kit.value, name, key, a);
    } else {
      status := InstallBasic(h, name);
    }
  }

  method InstallKit(h: Host, kit: Kit, name: String, key: String, a: Answers) returns (status: Status)
    modifies h
    ensures (h.State(), status) == KitSpec(h.env, old(h.State()), kit, name, key, a)
  {
    status := RunService(h, kit, name);
    if status.Thrown? {
      return;
    }
    RunFinish(h, name, key, a);
  }

  method RunFinish(h: Host, name: String, key: String, a: Answers)
    modifies h
    ensures h.State() == Finish(h.env, old(h.State()), name, key, a)
  {
    RunPhases(h, name, a);
    h.Say(Success, Installed(key));
  }

  method InstallBasic(h: Host, name: String) returns (status: Status)
    modifies h
    ensures (h.State(), status) == BasicSpec(h.env, old(h.State()), name)
  {
    status := CakePHPInstaller.Install(h, name);
    if status.Thrown? {
      return;
    }
    h.Say(Success, "Basic CakePHP application installed.");
  }

  // ---------------------------------------------------------------------
  // Properties of `_updateEnvFile`.

  /**
   * An existing, unlocked `config/.env` is rewritten as the merge of its
   * text with the pairs, in place: nothing else in the tree changes and
   * nothing is said.
   */
  lemma UpdateEnvOverFile(env: Env, w: World, project: String, vars: seq<Assign>, text: String)
    requires Get(w.fs, EnvPath(project)) == Some(File(text, false))
    ensures var content := MergeText(text, vars, Eol(env));
      var r := UpdateEnvSpec(env, w, project, vars);
      Set(w.fs, EnvPath(project), Some(File(content, false))).Some? &&
      r == World(Set(w.fs, EnvPath(project), Some(File(content, false))).value, w.log) &&
      Get(r.fs, EnvPath(project)) == Some(File(content, false))
  {
    var content := MergeText(text, vars, Eol(env));
    assert SeedSpec(w, project) == w;
    assert LinesRead(w.fs, project) == ReadLines(text);
    WriteOverFile(w.fs, EnvPath(project), text, content);
    ReadAfterWrite(w.fs, EnvPath(project), content);
  }

  /** A locked `config/.env`, or a directory in its place, is left alone with a warning. */
  lemma UpdateEnvRefused(env: Env, w: World, project: String, vars: seq<Assign>)
    requires Exists(w.fs, EnvPath(project))
    requires Get(w.fs, EnvPath(project)).value.Dir? || Get(w.fs, EnvPath(project)).value.locked
    ensures UpdateEnvSpec(env, w, project, vars) == SaySpec(w, Warning, WriteWarning(EnvPath(project)))
  {
    assert SeedSpec(w, project) == w;
    WriteEnvRefused(w, project, Merge(LinesRead(w.fs, project), vars, Eol(env)));
  }

  lemma WriteEnvRefused(w: World, project: String, content: String)
    requires Exists(w.fs, EnvPath(project))
    requires Get(w.fs, EnvPath(project)).value.Dir? || Get(w.fs, EnvPath(project)).value.locked
    ensures WriteEnv(w, project, content) == SaySpec(w, Warning, WriteWarning(EnvPath(project)))
  {
    assert Write(w.fs, EnvPath(project), content).None?;
    assert WriteSpec(w, EnvPath(project), content) == (w, false);
  }

  /**
   * A missing `config/.env` starts as a copy of the example (the one in
   * `config/` when there is one, else the one in the project root), so the
   * written file is the merge of the example's text with the pairs.
   */
  lemma UpdateEnvFromExample(env: Env, w: World, project: String, vars: seq<Assign>, text: String, locked: bool)
    requires !Exists(w.fs, EnvPath(project)) && IsDir(w.fs, [project, "config"])
    requires Get(w.fs, ExamplePath(w.fs, project)) == Some(File(text, locked))
    ensures var r := UpdateEnvSpec(env, w, project, vars);
      r.log == w.log && Get(r.fs, EnvPath(project)) == Some(File(MergeText(text, vars, Eol(env)), false))
  {
    var p := EnvPath(project);
    assert p[..|p| - 1] == [project, "config"];
    SetInDir(w.fs, p, Some(File(text, false)));
    GetSet(w.fs, p, Some(File(text, false)));
    var seeded := SeedSpec(w, project);
    assert seeded == World(Set(w.fs, p, Some(File(text, false))).value, w.log);
    UpdateEnvOverFile(env, seeded, project, vars, text);
    assert UpdateEnvSpec(env, w, project, vars) == UpdateEnvSpec(env, seeded, project, vars) by {
      assert SeedSpec(seeded, project) == seeded;
    }
  }

  /** With no `config/.env` and no example, the file written holds exactly the pairs, one per line. */
  lemma UpdateEnvFromNothing(env: Env, w: World, project: String, vars: seq<Assign>)
    requires !Exists(w.fs, EnvPath(project)) && !Exists(w.fs, ConfigExample(project)) && !Exists(w.fs, RootExample(project))
    requires IsDir(w.fs, [project, "config"]) && DistinctKeys(vars)
    ensures var r := UpdateEnvSpec(env, w, project, vars);
      r.log == w.log && Get(r.fs, EnvPath(project)) == Some(File(Implode(Lines(vars), Eol(env)) + Eol(env), false))
  {
    var p := EnvPath(project);
    var content := Implode(Lines(vars), Eol(env)) + Eol(env);
    assert SeedSpec(w, project) == w;
    assert LinesRead(w.fs, project) == [];
    MergeOfNothing(vars, Eol(env));
    assert p[..|p| - 1] == [project, "config"];
    SetInDir(w.fs, p, Some(File(content, false)));
    ReadAfterWrite(w.fs, p, content);
  }

  /** Without a `config/` directory nothing can be copied or written: only the warning is left. */
  lemma UpdateEnvWithoutConfigDir(env: Env, w: World, project: String, vars: seq<Assign>)
    requires !Exists(w.fs, [project, "config"])
    ensures UpdateEnvSpec(env, w, project, vars) == SaySpec(w, Warning, WriteWarning(EnvPath(project)))
  {
    SeedWithoutConfigDir(w, project);
    WriteEnvWithoutConfigDir(w, project, Merge(LinesRead(w.fs, project), vars, Eol(env)));
  }

  lemma SeedWithoutConfigDir(w: World, project: String)
    requires !Exists(w.fs, [project, "config"])
    ensures SeedSpec(w, project) == w
  {
    var p := EnvPath(project);
    assert p[..|p| - 1] == [project, "config"];
    assert p[..2] == [project, "config"];
    GetBelowMissing(w.fs, p, 2);
    SetWithoutDir(w.fs, p, Some(File(OrEmpty(Read(w.fs, ExamplePath(w.fs, project))), false)));
  }

  lemma WriteEnvWithoutConfigDir(w: World, project: String, content: String)
    requires !Exists(w.fs, [project, "config"])
    ensures WriteEnv(w, project, content) == SaySpec(w, Warning, WriteWarning(EnvPath(project)))
  {
    var p := EnvPath(project);
    assert p[..|p| - 1] == [project, "config"];
    assert p[..2] == [project, "config"];
    GetBelowMissing(w.fs, p, 2);
    SetWithoutDir(w.fs, p, Some(File(content, false)));
  }

  /** `_updateEnvFile` starts no process and says at most its one warning. */
  lemma UpdateEnvQuiet(env: Env, w: World, project: String, vars: seq<Assign>)
    ensures var r := UpdateEnvSpec(env, w, project, vars);
      (r.log == w.log || r.log == w.log + [Said(Warning, WriteWarning(EnvPath(project)))]) &&
      Commands(r.log) == Commands(w.log)
  {
    var seeded := SeedSpec(w, project);
    SeedKeepsLog(w, project);
    WriteEnvQuiet(seeded, project, Merge(LinesRead(seeded.fs, project), vars, Eol(env)));
  }

  lemma WriteEnvQuiet(w: World, project: String, content: String)
    ensures var r := WriteEnv(w, project, content);
      (r.log == w.log || r.log == w.log + [Said(Warning, WriteWarning(EnvPath(project)))]) &&
      Commands(r.log) == Commands(w.log)
  {
    var written := WriteSpec(w, EnvPath(project), content);
    WriteKeepsLog(w, EnvPath(project), content);
    if !written.1 {
      CommandsOfSay(written.0, Warning, WriteWarning(EnvPath(project)));
    }
  }


  // ---------------------------------------------------------------------
  // Properties of the phases.

  /** Every pair the three configuration phases write, in the order they write them. */
  function AllVars(env: Env, a: Answers): seq<Assign> {
    DatabaseVars(a) + SecurityVars(env, a) + EmailVars(a)
  }

  /** An answer that can be written as the value of one `.env` line and read back unchanged. */
  predicate OneLine(v: Option<String>, eol: String) {
    '\n' !in OrEmpty(v) && (eol == "\n" ==> !EndsInCR(OrEmpty(v)))
  }

  /** The database and debug answers, which later phases must read back, fit on one line. */
  predicate EarlyAnswersFit(a: Answers, eol: String) {
    OneLine(a.dbHost, eol) && OneLine(a.dbPort, eol) && OneLine(a.dbName, eol) &&
    OneLine(a.dbUser, eol) && OneLine(a.dbPassword, eol) && OneLine(a.debug, eol)
  }

  predicate AnswersFit(a: Answers, eol: String) {
    EarlyAnswersFit(a, eol) &&
    OneLine(a.smtpHost, eol) && OneLine(a.smtpPort, eol) && OneLine(a.smtpUser, eol) &&
    OneLine(a.smtpPassword, eol) && OneLine(a.smtpClient, eol)
  }

  /** The salt is 64 lower-case hex digits that decode to the 32 random bytes. */
  lemma SaltIsHex(env: Env)
    ensures |Salt(env)| == 64 && (forall i :: 0 <= i < 64 ==> IsHexDigit(Salt(env)[i]))
    ensures Hex2Bin(Salt(env)) == env.entropy
  {
    Hex2BinBin2Hex(env.entropy);
  }

  lemma OneLineValue(v: Option<String>, default: String, eol: String)
    requires OneLine(v, eol) && OneLine(Some(default), eol)
    ensures OneLine(Some(v.GetOr(default)), eol)
  {
  }

  /** Plain text of one line: what every key and default the phases write is. */
  predicate Plain(s: String) {
    EntryKey(s) && '\n' !in s && !EndsInCR(s)
  }

  // One lemma per constant keeps each check of a literal string small.
  lemma PlainDbHostKey() ensures Plain("export DB_HOST") {}
  lemma PlainDbPortKey() ensures Plain("export DB_PORT") {}
  lemma PlainDbDatabaseKey() ensures Plain("export DB_DATABASE") {}
  lemma PlainDbUsernameKey() ensures Plain("export DB_USERNAME") {}
  lemma PlainDbPasswordKey() ensures Plain("export DB_PASSWORD") {}
  lemma PlainSaltKey() ensures Plain("export SECURITY_SALT") {}
  lemma PlainDebugKey() ensures Plain("export DEBUG") {}
  lemma PlainSmtpHostKey() ensures Plain("export EMAIL_TRANSPORT_HOST") {}
  lemma PlainSmtpPortKey() ensures Plain("export EMAIL_TRANSPORT_PORT") {}
  lemma PlainSmtpUsernameKey() ensures Plain("export EMAIL_TRANSPORT_USERNAME") {}
  lemma PlainSmtpPasswordKey() ensures Plain("export EMAIL_TRANSPORT_PASSWORD") {}
  lemma PlainSmtpClientKey() ensures Plain("export EMAIL_TRANSPORT_CLIENT") {}
  lemma PlainEmailFromKey() ensures Plain("export EMAIL_FROM") {}

  lemma PlainLocalhost() ensures Plain("localhost") {}
  lemma PlainMysqlPort() ensures Plain("3306") {}
  lemma PlainAppDatabase() ensures Plain("cakephp_app") {}
  lemma PlainRootUser() ensures Plain("root") {}
  lemma PlainFalse() ensures Plain("false") {}
  lemma PlainGmailHost() ensures Plain("smtp.gmail.com") {}
  lemma PlainSubmissionPort() ensures Plain("587") {}

  lemma DatabaseVarsFit(a: Answers, eol: String)
    requires EarlyAnswersFit(a, eol)
    ensures forall x :: x in DatabaseVars(a) ==> Fits(x, eol)
  {
    PlainDbHostKey(); PlainDbPortKey(); PlainDbDatabaseKey(); PlainDbUsernameKey(); PlainDbPasswordKey();
    PlainLocalhost(); PlainMysqlPort(); PlainAppDatabase(); PlainRootUser();
    OneLineValue(a.dbHost, "localhost", eol);
    OneLineValue(a.dbPort, "3306", eol);
    OneLineValue(a.dbName, "cakephp_app", eol);
    OneLineValue(a.dbUser, "root", eol);
  }

  lemma SecurityVarsFit(env: Env, a: Answers)
    requires OneLine(a.debug, Eol(env))
    ensures forall x :: x in SecurityVars(env, a) ==> Fits(x, Eol(env))
  {
    var eol := Eol(env);
    SaltIsHex(env);
    var salt := Salt(env);
    assert '\n' !in salt && !EndsInCR(salt) by {
      assert forall i :: 0 <= i < |salt| ==> salt[i] != '\n' && salt[i] != '\r';
    }
    PlainSaltKey(); PlainDebugKey(); PlainFalse();
    OneLineValue(a.debug, "false", eol);
  }

  lemma EmailVarsFit(a: Answers, eol: String)
    requires AnswersFit(a, eol)
    ensures forall x :: x in EmailVars(a) ==> Fits(x, eol)
  {
    PlainSmtpHostKey(); PlainSmtpPortKey(); PlainSmtpUsernameKey(); PlainSmtpPasswordKey(); PlainSmtpClientKey(); PlainEmailFromKey();
    PlainGmailHost(); PlainSubmissionPort();
    OneLineValue(a.smtpHost, "smtp.gmail.com", eol);
    OneLineValue(a.smtpPort, "587", eol);
  }

  lemma EarlyVarsFit(env: Env, a: Answers)
    requires EarlyAnswersFit(a, Eol(env))
    ensures forall x :: x in DatabaseVars(a) + SecurityVars(env, a) ==> Fits(x, Eol(env))
  {
    DatabaseVarsFit(a, Eol(env));
    SecurityVarsFit(env, a);
  }

  lemma AllVarsFit(env: Env, a: Answers)
    requires AnswersFit(a, Eol(env))
    ensures forall x :: x in AllVars(env, a) ==> Fits(x, Eol(env))
  {
    EarlyVarsFit(env, a);
    EmailVarsFit(a, Eol(env));
  }

  /** The thirteen keys the phases set are all different. */
  lemma AllKeysDistinct(env: Env, a: Answers)
    ensures DistinctKeys(AllVars(env, a))
  {
    var ks := Keys(AllVars(env, a));
    assert ks == ["export DB_HOST", "export DB_PORT", "export DB_DATABASE", "export DB_USERNAME", "export DB_PASSWORD",
                  "export SECURITY_SALT", "export DEBUG",
                  "export EMAIL_TRANSPORT_HOST", "export EMAIL_TRANSPORT_PORT", "export EMAIL_TRANSPORT_USERNAME",
                  "export EMAIL_TRANSPORT_PASSWORD", "export EMAIL_TRANSPORT_CLIENT", "export EMAIL_FROM"];
  }

  lemma DatabasePhaseOverFile(env: Env, w: World, name: String, a: Answers, text: String)
    requires Get(w.fs, EnvPath(name)) == Some(File(text, false))
    ensures Get(DatabasePhase(env, w, name, a).fs, EnvPath(name)) == Some(File(MergeText(text, DatabaseVars(a), Eol(env)), false))
  {
    UpdateEnvOverFile(env, DatabaseQuestions(w), name, DatabaseVars(a), text);
  }

  lemma SecurityPhaseOverFile(env: Env, w: World, name: String, a: Answers, text: String)
    requires Get(w.fs, EnvPath(name)) == Some(File(text, false))
    ensures Get(SecurityPhase(env, w, name, a).fs, EnvPath(name)) == Some(File(MergeText(text, SecurityVars(env, a), Eol(env)), false))
  {
    UpdateEnvOverFile(env, AskSpec(w, "Set debug mode? (true/false)"), name, SecurityVars(env, a), text);
  }

  lemma EmailPhaseOverFile(env: Env, w: World, name: String, a: Answers, text: String)
    requires Get(w.fs, EnvPath(name)) == Some(File(text, false))
    ensures Get(EmailPhase(env, w, name, a).fs, EnvPath(name)) == Some(File(MergeText(text, EmailVars(a), Eol(env)), false))
  {
    UpdateEnvOverFile(env, EmailQuestions(w), name, EmailVars(a), text);
  }

  /**
   * Over an unlocked `config/.env`, the three configuration phases rewrite
   * it three times, each rewrite merging one phase's pairs into what the
   * previous one wrote.
   */
  lemma ConfigureOverFile(env: Env, w: World, name: String, a: Answers, text: String)
    requires Get(w.fs, EnvPath(name)) == Some(File(text, false))
    ensures var eol := Eol(env);
      Get(Configure(env, w, name, a).fs, EnvPath(name)) ==
      Some(File(MergeText(MergeText(MergeText(text, DatabaseVars(a), eol), SecurityVars(env, a), eol), EmailVars(a), eol), false))
  {
    var eol := Eol(env);
    var t1 := MergeText(text, DatabaseVars(a), eol);
    var t2 := MergeText(t1, SecurityVars(env, a), eol);
    DatabasePhaseOverFile(env, w, name, a, text);
    var w1 := DatabasePhase(env, w, name, a);
    SecurityPhaseOverFile(env, w1, name, a, t1);
    EmailPhaseOverFile(env, SecurityPhase(env, w1, name, a), name, a, t2);
  }

  /**
   * When the file's lines and the earlier answers can be written back, the
   * three rewrites come to one merge of all thirteen pairs.
   */
  lemma ConfigureMergesOnce(env: Env, w: World, name: String, a: Answers, text: String)
    requires Get(w.fs, EnvPath(name)) == Some(File(text, false))
    requires ReadableWith(ReadLines(text), Eol(env)) && EarlyAnswersFit(a, Eol(env))
    ensures Get(Configure(env, w, name, a).fs, EnvPath(name)) == Some(File(MergeText(text, AllVars(env, a), Eol(env)), false))
  {
    var eol := Eol(env);
    ConfigureOverFile(env, w, name, a, text);
    EarlyVarsFit(env, a);
    assert forall x :: x in DatabaseVars(a) ==> Fits(x, eol) by {
      assert forall x :: x in DatabaseVars(a) ==> x in DatabaseVars(a) + SecurityVars(env, a);
    }
    MergeThenMerge(text, DatabaseVars(a), SecurityVars(env, a), eol);
    MergeThenMerge(text, DatabaseVars(a) + SecurityVars(env, a), EmailVars(a), eol);
  }

  /**
   * Reading the configured `config/.env` back gives every answer under its
   * key, the salt and the debug flag included, and every other key of the
   * old file with its old value.
   */
  lemma ConfiguredValues(env: Env, w: World, name: String, a: Answers, text: String)
    requires Get(w.fs, EnvPath(name)) == Some(File(text, false))
    requires ReadableWith(ReadLines(text), Eol(env)) && AnswersFit(a, Eol(env))
    ensures var c := MergeText(text, AllVars(env, a), Eol(env));
      Read(Configure(env, w, name, a).fs, EnvPath(name)) == Some(c) && ReadsBack(text, c, AllVars(env, a))
  {
    ConfigureMergesOnce(env, w, name, a, text);
    AnswersReadBack(env, a, text);
  }

  lemma AnswersReadBack(env: Env, a: Answers, text: String)
    requires ReadableWith(ReadLines(text), Eol(env)) && AnswersFit(a, Eol(env))
    ensures ReadsBack(text, MergeText(text, AllVars(env, a), Eol(env)), AllVars(env, a))
  {
    AllKeysDistinct(env, a);
    AllVarsFit(env, a);
    MergeReadsBack(text, AllVars(env, a), Eol(env));
  }

  /**
   * `after`, read as a `.env` file, has every pair of `xs` and every other
   * key of `before` with its value there.
   */
  ghost predicate ReadsBack(before: String, after: String, xs: seq<Assign>) {
    var old_, m := Parse(ReadLines(before)), Parse(ReadLines(after));
    (forall x :: x in xs ==> x.key in m.values && m.values[x.key] == x.value) &&
    (forall k :: k in old_.values && k !in Keys(xs) ==> k in m.values && m.values[k] == old_.values[k])
  }

  lemma MergeReadsBack(text: String, xs: seq<Assign>, eol: String)
    requires IsEol(eol) && DistinctKeys(xs) && forall x :: x in xs ==> Fits(x, eol)
    requires ReadableWith(ReadLines(text), eol)
    ensures ReadsBack(text, MergeText(text, xs, eol), xs)
  {
    var lines := ReadLines(text);
    var m := PutAll(Parse(lines), xs);
    MergeKeys(lines, xs);
    ParsedFits(lines, eol);
    PutAllFits(Parse(lines), xs, eol);
    Reparse(m, eol);
    forall x | x in xs
      ensures x.key in m.values && m.values[x.key] == x.value
    {
      var i :| 0 <= i < |xs| && xs[i] == x;
    }
  }

  // ---------------------------------------------------------------------
  // The processes the installer starts.

  /** Five questions in a row start no process. */
  lemma AskFiveCommands(w: World, q1: String, q2: String, q3: String, q4: String, q5: String)
    ensures Commands(AskSpec(AskSpec(AskSpec(AskSpec(AskSpec(w, q1), q2), q3), q4), q5).log) == Commands(w.log)
  {
    var w1 := AskSpec(w, q1);
    var w2 := AskSpec(w1, q2);
    var w3 := AskSpec(w2, q3);
    var w4 := AskSpec(w3, q4);
    CommandsOfEmit(w, Asked(q1));
    CommandsOfEmit(w1, Asked(q2));
    CommandsOfEmit(w2, Asked(q3));
    CommandsOfEmit(w3, Asked(q4));
    CommandsOfEmit(w4, Asked(q5));
  }

  lemma DatabasePhaseCommands(env: Env, w: World, name: String, a: Answers)
    ensures Commands(DatabasePhase(env, w, name, a).log) == Commands(w.log)
  {
    var w0 := SaySpec(w, Section, "Database Configuration");
    CommandsOfSay(w, Section, "Database Configuration");
    AskFiveCommands(w0, "Database host", "Database port", "Database name", "Database username", "Database password");
    var asked := DatabaseQuestions(w);
    var u := UpdateEnvSpec(env, asked, name, DatabaseVars(a));
    UpdateEnvQuiet(env, asked, name, DatabaseVars(a));
    var saved := DatabaseSaved(env, w, name, a);
    CommandsOfSay(u, Success, "Database configuration saved to .env!");
    CommandsOfEmit(saved, DatabaseReport(env.database(DbSettingsOf(a)), DbName(a)));
  }

  lemma SecurityPhaseCommands(env: Env, w: World, name: String, a: Answers)
    ensures Commands(SecurityPhase(env, w, name, a).log) == Commands(w.log)
  {
    var asked := AskSpec(w, "Set debug mode? (true/false)");
    CommandsOfEmit(w, Asked("Set debug mode? (true/false)"));
    var u := UpdateEnvSpec(env, asked, name, SecurityVars(env, a));
    UpdateEnvQuiet(env, asked, name, SecurityVars(env, a));
    CommandsOfSay(u, Success, "Security salt and debug value updated in .env!");
  }

  lemma EmailPhaseCommands(env: Env, w: World, name: String, a: Answers)
    ensures Commands(EmailPhase(env, w, name, a).log) == Commands(w.log)
  {
    var w0 := SaySpec(w, Section, "Email Configuration");
    CommandsOfSay(w, Section, "Email Configuration");
    var asked := EmailQuestions(w);
    AskFiveCommands(w0, "SMTP Host", "SMTP Port", "SMTP Username", "SMTP Password", "SMTP Client");
    var u := UpdateEnvSpec(env, asked, name, EmailVars(a));
    UpdateEnvQuiet(env, asked, name, EmailVars(a));
    CommandsOfSay(u, Success, "Email configuration saved to .env!");
  }

  lemma MigrationPhaseCommands(env: Env, w: World, name: String)
    ensures Commands(MigrationPhase(env, w, name).log) == Commands(w.log) + [Migrate(name)]
  {
    var w0 := SaySpec(w, Section, "Running Database Migrations");
    CommandsOfSay(w, Section, "Running Database Migrations");
    var w1 := SaySpec(w0, Text, "Running migrations...");
    CommandsOfSay(w0, Text, "Running migrations...");
    var w2 := RunSpec(env, w1, Migrate(name)).0;
    var r := RunSpec(env, w1, Migrate(name)).1;
    CommandsOfRun(env, w1, Migrate(name));
    if r.ok {
      CommandsOfSay(w2, Success, "Migrations completed successfully!");
    } else {
      CommandsOfSay(w2, Warning, "Migrations failed: " + r.errorOutput);
    }
  }

  /**
   * The phases start exactly one process, the migrations: the database is
   * reached directly and the `.env` rewrites are file writes.
   */
  lemma PhasesCommands(env: Env, w: World, name: String, a: Answers)
    ensures Commands(Phases(env, w, name, a).log) == Commands(w.log) + [Command(["bin/cake", "migrations", "migrate"], Some(name), 120, None)]
  {
    var w1 := DatabasePhase(env, w, name, a);
    DatabasePhaseCommands(env, w, name, a);
    var w2 := SecurityPhase(env, w1, name, a);
    SecurityPhaseCommands(env, w1, name, a);
    var w3 := EmailPhase(env, w2, name, a);
    EmailPhaseCommands(env, w2, name, a);
    MigrationPhaseCommands(env, w3, name);
  }

  // ---------------------------------------------------------------------
  // Properties of `install`.

  /**
   * A key with no registered kit ("react", "next", "api", "cms", anything
   * else) gets the plain Composer install and nothing more: one process,
   * no configuration, and the outcome of `composer create-project`.
   */
  lemma UnregisteredKitFallsBack(env: Env, w: World, name: String, key: String, a: Answers)
    requires key != "saas" && key != "simple"
    ensures var w' := InstallSpec(env, w, name, key, a).0;
      var status := InstallSpec(env, w, name, key, a).1;
      var r := env.runner(CakePHPInstaller.CreateProject(name), w.fs);
      Commands(w'.log) == Commands(w.log) + [CakePHPInstaller.CreateProject(name)] &&
      w'.fs == r.fs && (status == Completed <==> r.ok)
  {
    var w1 := SaySpec(w, Section, Heading(key));
    CommandsOfSay(w, Section, Heading(key));
    CakePHPInstaller.InstallRunsCreateProject(env, w1, name);
    var w2 := CakePHPInstaller.InstallSpec(env, w1, name).0;
    CommandsOfSay(w2, Success, "Basic CakePHP application installed.");
  }

  /**
   * With the modelled process runner, which always starts its process, the
   * simple kit always completes, whatever the database and the migrations
   * do; its only process is the migrations run.
   */
  lemma SimpleKitRunsOnlyMigrations(env: Env, w: World, name: String, a: Answers)
    ensures var w' := InstallSpec(env, w, name, "simple", a).0;
      var status := InstallSpec(env, w, name, "simple", a).1;
      status == Completed && Commands(w'.log) == Commands(w.log) + [Migrate(name)]
  {
    var w1 := SaySpec(w, Section, Heading("simple"));
    CommandsOfSay(w, Section, Heading("simple"));
    SimpleStarterKitService.InstallOnlyReports(w1, name, name);
    var w2 := SimpleStarterKitService.InstallSpec(w1, name).0;
    assert Commands(w2.log) == Commands(w.log);
    assert Lookup("simple") == Some(SimpleKit);
    assert ServiceSpec(env, w1, SimpleKit, name) == (w2, Completed);
    assert InstallSpec(env, w, name, "simple", a) == (Finish(env, w2, name, "simple", a), Completed);
    FinishCommands(env, w2, name, "simple", a);
  }

  /** After the service, the only process is the migrations run. */
  lemma FinishCommands(env: Env, w: World, name: String, key: String, a: Answers)
    ensures Commands(Finish(env, w, name, key, a).log) == Commands(w.log) + [Migrate(name)]
  {
    PhasesCommands(env, w, name, a);
    CommandsOfSay(Phases(env, w, name, a), Success, Installed(key));
  }

  /**
   * A failed clone ends the SAAS install at once with the clone's error
   * output: after the heading and the clone's own line and run nothing is
   * said, asked or run, and the filesystem is what the clone left.
   */
  lemma SaasCloneFailure(env: Env, w: World, name: String, a: Answers)
    requires !env.runner(SaasStarterKitService.Clone(name), w.fs).ok
    ensures var reply := env.runner(SaasStarterKitService.Clone(name), w.fs);
      var r := InstallSpec(env, w, name, "saas", a);
      r.1 == Thrown("Failed to clone SAAS starter kit: " + reply.errorOutput) &&
      r.0.fs == reply.fs &&
      r.0.log == w.log + [Said(Section, Heading("saas")), Said(Text, "Installing SAAS starter kit from GitHub..."),
                          Ran(SaasStarterKitService.Clone(name))] &&
      Commands(r.0.log) == Commands(w.log) + [SaasStarterKitService.Clone(name)]
  {
    var w1 := SaySpec(w, Section, Heading("saas"));
    CommandsOfSay(w, Section, Heading("saas"));
    SaasStarterKitService.CloneFailureStops(env, w1, name);
  }

  /**
   * Once the SAAS service completes, the install completes too, having
   * started the service's processes and then the migrations.
   */
  lemma SaasServiceThenMigrations(env: Env, w: World, name: String, a: Answers)
    ensures var w1 := SaySpec(w, Section, Heading("saas"));
      var ws := SaasStarterKitService.InstallSpec(env, w1, name).0;
      var s := SaasStarterKitService.InstallSpec(env, w1, name).1;
      var w' := InstallSpec(env, w, name, "saas", a).0;
      var status := InstallSpec(env, w, name, "saas", a).1;
      (status == Completed <==> s == Completed) &&
      (s == Completed ==> Commands(w'.log) == Commands(ws.log) + [Migrate(name)]) &&
      (s.Thrown? ==> (w', status) == (ws, s))
  {
    var w1 := SaySpec(w, Section, Heading("saas"));
    var ws := SaasStarterKitService.InstallSpec(env, w1, name).0;
    var s := SaasStarterKitService.InstallSpec(env, w1, name).1;
    if s == Completed {
      FinishCommands(env, ws, name, "saas", a);
    }
  }
}
