/**
 * What the installer acts on: the filesystem below the working directory,
 * the console (`SymfonyStyle`), external processes (`Symfony\Process`), the
 * database server, the random source and the platform. Processes, the
 * database and the random bytes are given as an oracle `Env`; the
 * filesystem and the console output are the state of a `Host`.
 */
module Host {
  import opened Prelude
  import opened FileTree

  /** One `new Process($argv, $cwd)` with its timeout and standard input. */
  datatype Command = Command(argv: seq<String>, cwd: Option<String>, timeout: nat, stdin: Option<String>)

  /**
   * What running a process gives back: `isSuccessful()`, `getErrorOutput()`,
   * and the filesystem as the process left it (a `git clone` creates the
   * project directory, `composer install` fills `vendor/`, ...).
   */
  datatype Reply = Reply(ok: bool, errorOutput: String, fs: Node)

  /** The `SymfonyStyle` calls the installer makes. */
  datatype Level = Title | Section | Text | Success | Warning | Error

  datatype Event =
    | Said(level: Level, text: String)   // `$io->title(...)`, `$io->text(...)`, ...
    | Printed(text: String)              // `print(...)` when there is no `$io`
    | Asked(question: String)            // `$io->ask(...)`, `askHidden`, `askQuestion`
    | Ran(cmd: Command)                  // `$process->run()`
    | Unlink(path: Path, ok: bool)       // `@unlink($path)` and whether it succeeded
    | Rmdir(path: Path, ok: bool)        // `@rmdir($path)` and whether it succeeded

  /** The connection details `_configureDatabase` hands to PDO. */
  datatype DbSettings = DbSettings(host: String, port: String, name: String, user: String, password: String)

  /** What the PDO check-and-create comes to: created, already there, or a `PDOException`. */
  datatype DbReply = Created | AlreadyExists | Failed(message: String)

  type Bytes32 = s: seq<byte> | |s| == 32 witness seq(32, _ => 0 as byte)

  /** The environment as an oracle, fixed for one run of the installer. */
  datatype Env = Env(
    runner: (Command, Node) -> Reply,
    database: DbSettings -> DbReply,
    entropy: Bytes32,      // `random_bytes(32)`
    windows: bool)         // `strtoupper(substr(PHP_OS, 0, 3)) === 'WIN'`

  /** `PHP_EOL` */
  function Eol(env: Env): String {
    if env.windows then "\r\n" else "\n"
  }

  /** The filesystem and everything said or done so far, in order. */
  datatype World = World(fs: Node, log: seq<Event>)

  /** How an installer step ends: normally, or with a `RuntimeException`. */
  datatype Status = Completed | Thrown(message: String)

  // ---------------------------------------------------------------------
  // The single steps, on worlds.

  function EmitSpec(w: World, e: Event): World {
    World(w.fs, w.log + [e])
  }

  function SaySpec(w: World, level: Level, text: String): World {
    EmitSpec(w, Said(level, text))
  }

  /** Runs `cmd` against the current filesystem and records that it ran. */
  function RunSpec(env: Env, w: World, cmd: Command): (World, Reply) {
    var r := env.runner(cmd, w.fs);
    (World(r.fs, w.log + [Ran(cmd)]), r)
  }

  /** `file_put_contents($p, $content) !== false`, and the world after it. */
  function WriteSpec(w: World, p: Path, content: String): (World, bool)
    requires |p| > 0
  {
    match Write(w.fs, p, content)
    case Some(t) => (World(t, w.log), true)
    case None => (w, false)
  }

  /** A write changes the filesystem only. */
  lemma WriteKeepsLog(w: World, p: Path, content: String)
    requires |p| > 0
    ensures WriteSpec(w, p, content).0.log == w.log
  {
  }

  /** `copy($src, $dst)`, whose result the installer ignores. */
  function CopySpec(w: World, src: Path, dst: Path): World
    requires |dst| > 0
  {
    match Copy(w.fs, src, dst)
    case Some(t) => World(t, w.log)
    case None => w
  }

  // ---------------------------------------------------------------------
  // Projections of the log.

  /** The processes started, in order. */
  function Commands(log: seq<Event>): (r: seq<Command>)
    ensures |r| <= |log|
    decreases |log|
  {
    if |log| == 0 then []
    else Commands(log[..|log| - 1]) + (if log[|log| - 1].Ran? then [log[|log| - 1].cmd] else [])
  }

  lemma {:induction false} CommandsConcat(a: seq<Event>, b: seq<Event>)
    ensures Commands(a + b) == Commands(a) + Commands(b)
    decreases |b|
  {
    if |b| == 0 {
      assert a + b == a;
    } else {
      assert (a + b)[..|a + b| - 1] == a + b[..|b| - 1];
      CommandsConcat(a, b[..|b| - 1]);
    }
  }

  lemma CommandsOfSay(w: World, level: Level, text: String)
    ensures Commands(SaySpec(w, level, text).log) == Commands(w.log)
  {
    assert SaySpec(w, level, text).log[..|w.log|] == w.log;
  }

  lemma CommandsOfEmit(w: World, e: Event)
    requires !e.Ran?
    ensures Commands(EmitSpec(w, e).log) == Commands(w.log)
  {
    assert EmitSpec(w, e).log[..|w.log|] == w.log;
  }

  lemma CommandsOfRun(env: Env, w: World, cmd: Command)
    ensures Commands(RunSpec(env, w, cmd).0.log) == Commands(w.log) + [cmd]
  {
    assert RunSpec(env, w, cmd).0.log[..|w.log|] == w.log;
  }

  /** A command is among those started exactly when the log records it. */
  lemma {:induction false} CommandsRan(log: seq<Event>, c: Command)
    ensures c in Commands(log) <==> Ran(c) in log
    decreases |log|
  {
    if |log| > 0 {
      CommandsRan(log[..|log| - 1], c);
      assert log == log[..|log| - 1] + [log[|log| - 1]];
    }
  }

  /** A stretch of the log without a process run starts no process. */
  lemma {:induction false} CommandsOfQuiet(log: seq<Event>)
    requires forall i :: 0 <= i < |log| ==> !log[i].Ran?
    ensures Commands(log) == []
    decreases |log|
  {
    if |log| > 0 {
      CommandsOfQuiet(log[..|log| - 1]);
    }
  }

  /** How many events of the log have the property `p`. */
  function Count(p: Event -> bool, log: seq<Event>): nat
    decreases |log|
  {
    if |log| == 0 then 0
    else Count(p, log[..|log| - 1]) + (if p(log[|log| - 1]) then 1 else 0)
  }

  lemma {:induction false} CountConcat(p: Event -> bool, a: seq<Event>, b: seq<Event>)
    ensures Count(p, a + b) == Count(p, a) + Count(p, b)
    decreases |b|
  {
    if |b| == 0 {
      assert a + b == a;
    } else {
      assert (a + b)[..|a + b| - 1] == a + b[..|b| - 1];
      CountConcat(p, a, b[..|b| - 1]);
    }
  }

  // ---------------------------------------------------------------------
  // The host: a filesystem and a console log that the installer's calls
  // change in place.

  /** `$io->ask($question)` and the like: the answer is an input of the model. */
  function AskSpec(w: World, question: String): World {
    EmitSpec(w, Asked(question))
  }

  class Host {
    var fs: Node
    var log: seq<Event>
    const env: Env

    function State(): World
      reads this
    {
      World(fs, log)
    }

    constructor(env: Env, fs: Node)
      ensures this.fs == fs && log == []
    {
      this.env := env;
      this.fs := fs;
      log := [];
    }

    method Emit(e: Event)
      modifies this
      ensures State() == EmitSpec(old(State()), e)
    {
      log := log + [e];
    }

    method Say(level: Level, text: String)
      modifies this
      ensures State() == SaySpec(old(State()), level, text)
    {
      Emit(Said(level, text));
    }

    method Ask(question: String)
      modifies this
      ensures State() == AskSpec(old(State()), question)
    {
      Emit(Asked(question));
    }

    method Run(cmd: Command) returns (r: Reply)
      modifies this
      ensures (State(), r) == RunSpec(env, old(State()), cmd)
    {
      r := env.runner(cmd, fs);
      fs := r.fs;
      log := log + [Ran(cmd)];
    }

    method Write(p: Path, content: String) returns (ok: bool)
      requires |p| > 0
      modifies this
      ensures (State(), ok) == WriteSpec(old(State()), p, content)
    {
      var t := FileTree.Write(fs, p, content);
      ok := t.Some?;
      if ok {
        fs := t.value;
      }
    }

    method Copy(src: Path, dst: Path)
      requires |dst| > 0
      modifies this
      ensures State() == CopySpec(old(State()), src, dst)
    {
      var t := FileTree.Copy(fs, src, dst);
      if t.Some? {
        fs := t.value;
      }
    }

    /** Puts what is left of a removed subtree back in its place. */
    method Replace(p: Path, r: Option<Node>)
      requires |p| > 0 && Exists(fs, p)
      modifies this
      ensures Set(old(fs), p, r).Some? && fs == Set(old(fs), p, r).value && log == old(log)
    {
      SetExisting(fs, p, r);
      fs := Set(fs, p, r).value;
    }
  }
}
