# cakephp-installer, modelled in Dafny

This project models the core of the `cakephp-installer` console tool. Its
`new` command creates a CakePHP application. Without a starter kit it runs
`composer create-project`. With the registered `saas` or `simple` kit it
runs the kit's service, then configures the new application in four
phases:

- the database settings;
- the security salt and the debug flag;
- the SMTP settings;
- the migrations.

Each of the first three phases rewrites `config/.env` by merging
`key=value` pairs into it. The command can also clear an existing target
directory with a best-effort recursive delete.

The model has one module per source file, plus three shared modules:

- `Prelude` holds the PHP building blocks: `??`, `implode`,
  `strpos !== false`, truthiness of a `?string`, and `bin2hex`.
- `FileTree` is the filesystem: a tree whose entries may be *locked*, so
  that they can be neither deleted nor overwritten.
- `Host` is what the program acts on. A `Host` object holds the filesystem
  and the ordered log of everything said, asked, run, unlinked and
  removed. An `Env` oracle, fixed for one run, stands for:
  - the process runner, which takes the argv, cwd, timeout and stdin and
    gives back `isSuccessful()`, `getErrorOutput()` and the filesystem the
    process leaves;
  - the PDO check;
  - the 32 random bytes;
  - the platform.

Every method that changes state is proved against a function on `World`
values: `(h.State(), r) == XSpec(h.env, old(h.State()), ...)`. The lemmas
then state the source's promises about those functions. `EnvFile` is the
merge of `_updateEnvFile` as a pure function from lines and pairs to the
written text. The `foreach` loops themselves are methods in
`StarterKitInstaller`, proved against it.

## Model

| member | source | states |
|---|---|---|
| Prelude.Bin2Hex | src/Installer/StarterKitInstaller.php:196 | `bin2hex` gives two characters per byte, each a lower-case hex digit |
| Prelude.IndexOf | src/Installer/StarterKitInstaller.php:303-304 | `strpos` on one character: the first position of the character, or none when it does not occur |
| Prelude.Hex2BinBin2Hex | src/Installer/StarterKitInstaller.php:196 | `bin2hex` loses nothing: decoding the hex recovers the bytes |
| EnvFile.Put | src/Installer/StarterKitInstaller.php:305 | `$envMap[$k] = $v` keeps the ordered array well formed: every key listed once, and exactly the listed keys have values |
| EnvFile.PutAll | src/Installer/StarterKitInstaller.php:310-312 | the overwrite loop keeps the ordered array well formed |
| EnvFile.PutAllSnoc | src/Installer/StarterKitInstaller.php:310-312 | one more pair is one more assignment, applied last |
| EnvFile.NewKeys | src/Installer/StarterKitInstaller.php:310-312 | the appended keys are exactly the keys of the pairs that were not already present |
| EnvFile.Overlay | src/Installer/StarterKitInstaller.php:310-312 | the keys given a value are exactly the keys of the pairs |
| EnvFile.NewKeysDistinct | src/Installer/StarterKitInstaller.php:310-312 | no key is appended twice |
| EnvFile.PutAllIsOverlay | src/Installer/StarterKitInstaller.php:310-312 | existing keys keep their positions, new keys follow in order of first appearance, each pair's key takes its last value, and other keys keep theirs |
| EnvFile.ReadLines | src/Installer/StarterKitInstaller.php:297 | `file()` with FILE_IGNORE_NEW_LINES and FILE_SKIP_EMPTY_LINES returns only non-empty lines without `\n` |
| EnvFile.Split | src/Installer/StarterKitInstaller.php:304 | `explode('=', $line, 2)` splits at the first `=`: the key has no `=` and the line is key, `=`, value |
| EnvFile.EntriesSnoc | src/Installer/StarterKitInstaller.php:302-307 | one more line adds its split as an entry exactly when it has a `=` and does not start with `#` |
| EnvFile.Parse | src/Installer/StarterKitInstaller.php:300-307 | the array read from the file is well formed |
| EnvFile.UnknownSnoc | src/Installer/StarterKitInstaller.php:310-312 | the reference list of unknown keys grows by a key exactly when it is not known |
| EnvFile.NewKeysOfDistinct | src/Installer/StarterKitInstaller.php:310-312 | for pairs with distinct keys, as in the installer's array literals, the appended keys are the unknown keys in the pairs' order |
| EnvFile.OverlayLast | src/Installer/StarterKitInstaller.php:305-311 | a key ends with the value of the last pair that sets it |
| EnvFile.NewKeysPrefix | src/Installer/StarterKitInstaller.php:310-312 | keys appended for earlier pairs stay where they are when later pairs come |
| EnvFile.NewKeysFirstOccurrence | src/Installer/StarterKitInstaller.php:310-312 | a new key is appended where its first occurrence puts it |
| EnvFile.NewKeysInOrder | src/Installer/StarterKitInstaller.php:310-312 | new keys are appended in the order in which they first occur |
| EnvFile.MergeKeys | src/Installer/StarterKitInstaller.php:302-318 | the file's keys keep their positions and relative order, new keys follow in pair order, every pair's key has its value, and every other key keeps its own |
| EnvFile.OverlayOfDistinct | src/Installer/StarterKitInstaller.php:310-312 | with distinct keys, every pair's key holds that pair's value |
| EnvFile.OverlayKeys | src/Installer/StarterKitInstaller.php:310-312 | a key has a value from the pairs exactly when some pair has that key |
| EnvFile.ParseFirstPositionLastValue | src/Installer/StarterKitInstaller.php:302-307 | a key repeated in the file is listed once, at its first position, with its last value |
| EnvFile.EntriesOf | src/Installer/StarterKitInstaller.php:302-306 | a pair is an entry exactly when some line has a `=`, does not start with `#`, and splits into that pair |
| EnvFile.SplitLine | src/Installer/StarterKitInstaller.php:304-317 | a written `key=value` line splits back into its pair when the key has no `=` and does not start with `#` |
| EnvFile.EntryKeys | src/Installer/StarterKitInstaller.php:303-304 | every key read from a file can be written back |
| EnvFile.PutAllFrom | src/Installer/StarterKitInstaller.php:305-311 | every value after the merge is the file's value or one a pair gives |
| EnvFile.DroppedLinesGone | src/Installer/StarterKitInstaller.php:297-318 | comments, lines without `=` and empty lines do not appear in the rewritten file |
| EnvFile.PutAllConcat | src/Installer/StarterKitInstaller.php:310-312 | two overwrite loops in a row equal one loop over both lists |
| EnvFile.PutAllTwice | src/Installer/StarterKitInstaller.php:310-312 | applying the same pairs again changes nothing |
| EnvFile.NoNewKeys | src/Installer/StarterKitInstaller.php:310-312 | pairs whose keys are all present append nothing |
| EnvFile.RebuildFromPairs | src/Installer/StarterKitInstaller.php:305-316 | putting an array's own pairs into an empty array rebuilds it |
| EnvFile.PairsKeys | src/Installer/StarterKitInstaller.php:316 | an array's pairs have its keys, in order, each once |
| EnvFile.PairsDetermine | src/Installer/StarterKitInstaller.php:316-318 | two arrays with the same pairs are equal |
| EnvFile.ReadLinesStep | src/Installer/StarterKitInstaller.php:297-320 | a line that survives the line ending is read back as a line of its own |
| EnvFile.ReadLinesStepLF | src/Installer/StarterKitInstaller.php:297-320 | the same, for `\n` |
| EnvFile.ReadLinesStepCRLF | src/Installer/StarterKitInstaller.php:297-320 | the same, for `\r\n` |
| EnvFile.ReadRendered | src/Installer/StarterKitInstaller.php:297-320 | `file()` reads back exactly the lines that `implode(PHP_EOL, ...) . PHP_EOL` joined |
| EnvFile.ReadOneLine | src/Installer/StarterKitInstaller.php:297-320 | a single written line reads back as itself |
| EnvFile.ReadEol | src/Installer/StarterKitInstaller.php:297-320 | a file holding only a line ending reads as no lines |
| EnvFile.EntriesLines | src/Installer/StarterKitInstaller.php:302-318 | written entry lines parse back into the pairs they came from |
| EnvFile.LineSurvives | src/Installer/StarterKitInstaller.php:297-317 | a pair that fits on one line gives a line that survives writing and reading |
| EnvFile.Reparse | src/Installer/StarterKitInstaller.php:297-320 | the written content parses back into the array that was written |
| EnvFile.PairsFit | src/Installer/StarterKitInstaller.php:316-318 | the pairs of an array that fits on lines each fit |
| EnvFile.LinesSurvive | src/Installer/StarterKitInstaller.php:316-320 | the lines of pairs that fit each survive |
| EnvFile.ParsedFits | src/Installer/StarterKitInstaller.php:297-307 | an array read from lines that can be written back fits on lines |
| EnvFile.PutAllFits | src/Installer/StarterKitInstaller.php:310-312 | merging pairs that fit keeps the array fitting |
| EnvFile.MergeIdempotent | src/Installer/StarterKitInstaller.php:280-320 | merging the same pairs twice writes what merging once wrote |
| EnvFile.MergeThenMerge | src/Installer/StarterKitInstaller.php:280-320 | a merge after a merge equals one merge of both lists, so a later phase keeps an earlier phase's keys |
| EnvFile.NotIdempotentOnBareCR | src/Installer/StarterKitInstaller.php:297 | the condition for idempotence is needed: a last line `a=b\r` with no line break changes on the second merge |
| EnvFile.MergeBareCR | src/Installer/StarterKitInstaller.php:297-320 | a last line without a line break keeps its `\r` |
| EnvFile.MergeCRLF | src/Installer/StarterKitInstaller.php:297-320 | a `\r\n` file is rewritten with the platform's line ending |
| EnvFile.ReadCRLF | src/Installer/StarterKitInstaller.php:297 | FILE_IGNORE_NEW_LINES also drops the `\r` of `\r\n` |
| EnvFile.ParseOne | src/Installer/StarterKitInstaller.php:302-307 | one entry line gives a one-key array |
| EnvFile.RenderOne | src/Installer/StarterKitInstaller.php:314-320 | a one-key array gives one line and the trailing line ending |
| EnvFile.MergeOfNothing | src/Installer/StarterKitInstaller.php:294-320 | with no lines read, the written text is exactly the pairs, one line each, with a trailing line ending |
| EnvFile.PairsOfDistinct | src/Installer/StarterKitInstaller.php:310-318 | pairs with distinct keys come back out of an empty array as they went in |
| Host.Host.Emit | src/Installer/StarterKitInstaller.php:78 | one console call appends its event to the log |
| Host.Host.Say | src/Installer/StarterKitInstaller.php:78 | `$io->section/text/success/warning/error` appends one event |
| Host.Host.Ask | src/Installer/StarterKitInstaller.php:140-144 | a prompt is recorded; its answer is an input |
| Host.Host.Run | src/Installer/CakePHPInstaller.php:73-90 | a process is recorded and the filesystem becomes what it leaves |
| Host.Host.Write | src/Installer/StarterKitInstaller.php:323 | `file_put_contents` changes the filesystem as `FileTree.Write` says and reports whether it worked |
| Host.Host.Copy | src/Installer/StarterKitInstaller.php:291 | `copy` changes the filesystem only when the source is a file and the target can be written |
| Host.WriteKeepsLog | src/Installer/StarterKitInstaller.php:323 | a write says nothing |
| Host.CommandsConcat | src/Service/SaasStarterKitService.php:60-134 | the processes of two stretches of the log are those of the first, then those of the second |
| Host.CommandsOfSay | src/Installer/StarterKitInstaller.php:78 | saying something starts no process |
| Host.CommandsOfEmit | src/Util/DirectoryHelper.php:61-73 | an event other than a process run starts no process |
| Host.CommandsOfRun | src/Installer/CakePHPInstaller.php:82-87 | running a process adds exactly that process |
| Host.CommandsRan | src/Installer/CakePHPInstaller.php:82-87 | a process is among those started exactly when the log records it |
| Host.CommandsOfQuiet | src/Command/NewCommand.php:165-175 | a stretch of the log without a process run starts no process |
| Host.CountConcat | src/Util/DirectoryHelper.php:61-73 | counting events over two stretches of the log adds up |
| FileTree.Find | src/Util/DirectoryHelper.php:52-55 | the first entry of that name, or none when no entry has it |
| FileTree.Without | src/Util/DirectoryHelper.php:61 | removing an entry leaves no entry of that name |
| FileTree.GetSet | src/Installer/StarterKitInstaller.php:323 | after a successful update, the path holds exactly what was put there |
| FileTree.ReadAfterWrite | src/Installer/StarterKitInstaller.php:323 | a written file reads back as written, not locked |
| FileTree.WriteOverFile | src/Installer/StarterKitInstaller.php:323-324 | overwriting an unlocked file succeeds |
| FileTree.WriteBeside | src/Installer/StarterKitInstaller.php:290-291 | a file can be written next to an existing one and reads back as written |
| FileTree.SetInDir | src/Installer/StarterKitInstaller.php:323 | an update succeeds whenever the directory that should hold the path exists |
| FileTree.SetWithoutDir | src/Installer/StarterKitInstaller.php:323-324 | an update fails when the directory that should hold the path is missing |
| FileTree.GetBelowMissing | src/Installer/StarterKitInstaller.php:285-295 | nothing exists below a missing path |
| DirectoryHelper.EraseTree | src/Util/DirectoryHelper.php:52-74 | the recursive walk over one node gives what is left of it and the attempts and warnings that `Erase` describes |
| DirectoryHelper.EraseEntries | src/Util/DirectoryHelper.php:53-67 | the `foreach` over a directory's entries gives the entries kept and the events, in the order the tree lists the entries |
| DirectoryHelper.RemoveDirectory | src/Util/DirectoryHelper.php:44-75 | `removeDirectory` changes the world as `RemoveSpec` says |
| DirectoryHelper.AttemptsConcat | src/Util/DirectoryHelper.php:53-74 | the attempts of two stretches of events add up |
| DirectoryHelper.AttemptsOfWarned | src/Util/DirectoryHelper.php:61-64 | a failed attempt and its warning count as one attempt |
| DirectoryHelper.EraseInPostOrder | src/Util/DirectoryHelper.php:52-70 | every entry is visited, and each directory's `rmdir` comes after everything in it (post-order) |
| DirectoryHelper.EraseFirstInPostOrder | src/Util/DirectoryHelper.php:53-67 | the same for the first entries of a directory |
| DirectoryHelper.PairedConcat | src/Util/DirectoryHelper.php:53-74 | warnings paired with failures in two stretches stay paired when joined |
| DirectoryHelper.PairedOfWarned | src/Util/DirectoryHelper.php:61-73 | a failure followed by its warning is paired |
| DirectoryHelper.EraseWarnsPairwise | src/Util/DirectoryHelper.php:59-74 | exactly one warning per failed `unlink` or `rmdir`, right after it and naming its path, and nothing else is said |
| DirectoryHelper.EraseFirstWarnsPairwise | src/Util/DirectoryHelper.php:53-67 | the same for the first entries of a directory |
| DirectoryHelper.EraseUnlocked | src/Util/DirectoryHelper.php:52-74 | nothing is left exactly when nothing is locked, and then no attempt fails and no warning comes |
| DirectoryHelper.EraseFirstUnlocked | src/Util/DirectoryHelper.php:53-67 | the same for the first entries of a directory |
| DirectoryHelper.EraseFirstIncludes | src/Util/DirectoryHelper.php:53-67 | the events of one entry are among the directory's, and an entry left over leaves the directory non-empty |
| DirectoryHelper.LockedFileAncestors | src/Util/DirectoryHelper.php:59-74 | a locked file stays, its `unlink` fails, and the `rmdir` of every directory on the way to it fails too |
| DirectoryHelper.AncestorsOfChild | src/Util/DirectoryHelper.php:57-70 | the directories on the way to a path are the top one and those on the way from its child |
| DirectoryHelper.RemoveNotDir | src/Util/DirectoryHelper.php:47-49 | a path that is not a directory is left alone, with no warning |
| DirectoryHelper.RemoveUnlocked | src/Util/DirectoryHelper.php:52-74 | with nothing locked the whole tree, the path included, is gone and no warning is emitted |
| DirectoryHelper.RemoveOnlyDeletes | src/Util/DirectoryHelper.php:44-75 | only attempts and their paired warnings are logged, and no process starts; on a tree whose directories can all be listed the routine throws nothing |
| DirectoryHelper.NoCommands | src/Util/DirectoryHelper.php:44-75 | a log of attempts and warnings holds no process |
| CakePHPInstaller.Install | src/Installer/CakePHPInstaller.php:68-93 | the install changes the world and returns the status as `InstallSpec` says |
| CakePHPInstaller.InstallRunsCreateProject | src/Installer/CakePHPInstaller.php:70-92 | exactly one process, `composer create-project --prefer-dist cakephp/app <name>` with timeout 300; success decided by `isSuccessful()` alone; failure throws `Failed to create CakePHP project: ` and the error output |
| SimpleStarterKitService.Install | src/Service/SimpleStarterKitService.php:60-67 | the install changes the world as `InstallSpec` says |
| SimpleStarterKitService.InstallOnlyReports | src/Service/SimpleStarterKitService.php:60-67 | returns normally, touches no file, starts no process, ignores the name, and says one text line then one success line |
| SaasStarterKitService.Install | src/Service/SaasStarterKitService.php:55-135 | the install changes the world and returns the status as `InstallSpec` says |
| SaasStarterKitService.RunClone | src/Service/SaasStarterKitService.php:57-75 | the clone step as `CloneStep` says |
| SaasStarterKitService.RunStripGit | src/Service/SaasStarterKitService.php:78-82 | the `.git` removal as `StripGit` says |
| SaasStarterKitService.RunComposer | src/Service/SaasStarterKitService.php:85-97 | the composer step as `ComposerStep` says |
| SaasStarterKitService.RunNpmInstall | src/Service/SaasStarterKitService.php:100-111 | the npm install step as `NpmInstallStep` says |
| SaasStarterKitService.RunBuild | src/Service/SaasStarterKitService.php:114-125 | the build step as `BuildStep` says |
| SaasStarterKitService.CloneFailureStops | src/Service/SaasStarterKitService.php:57-75 | a failed clone throws `Failed to clone SAAS starter kit: ` and the error output; the log gains only the clone's line and the clone, and the filesystem is what the clone left |
| SaasStarterKitService.ComposerFailureStops | src/Service/SaasStarterKitService.php:78-97 | after a good clone, a failed `composer install` in `name` throws, and no npm, build or setup runs |
| SaasStarterKitService.CloneCommands | src/Service/SaasStarterKitService.php:60-71 | the clone step starts exactly `git clone <url> name` with timeout 300 |
| SaasStarterKitService.StripGitCommands | src/Service/SaasStarterKitService.php:78-82 | removing `.git` starts no process |
| SaasStarterKitService.ComposerCommands | src/Service/SaasStarterKitService.php:86-93 | the composer step starts exactly `composer install` in `name` with timeout 300 |
| SaasStarterKitService.StripGitOnlyWhenDir | src/Service/SaasStarterKitService.php:78-82 | `name/.git` is touched only when it is a directory, and is then gone unless something in it is locked |
| SaasStarterKitService.SuccessfulInstall | src/Service/SaasStarterKitService.php:55-135 | after a good clone and composer run, and with every run finishing in time, the install completes, starting npm install iff `package.json` exists, the build iff its content has `"build"`, then `[php] bin/cake setup -n` with input `Y`, never looking at their results |
| SaasStarterKitService.FinishCommands | src/Service/SaasStarterKitService.php:100-134 | the last three steps start their processes in order |
| SaasStarterKitService.NpmInstallCommands | src/Service/SaasStarterKitService.php:100-111 | `npm install` in `name` runs exactly when `package.json` exists |
| SaasStarterKitService.BuildCommands | src/Service/SaasStarterKitService.php:114-125 | `npm run build` runs exactly when the content of `package.json` contains `"build"` |
| SaasStarterKitService.NoBuildWithoutPackageJson | src/Service/SaasStarterKitService.php:114-115 | without `package.json` there is no build |
| StarterKitInstaller.SeedKeepsLog | src/Installer/StarterKitInstaller.php:284-292 | seeding says nothing |
| StarterKitInstaller.ParseLines | src/Installer/StarterKitInstaller.php:300-307 | the parse loop builds the array `Parse` describes |
| StarterKitInstaller.PutEach | src/Installer/StarterKitInstaller.php:309-312 | the overwrite loop builds the array `PutAll` describes |
| StarterKitInstaller.RenderMap | src/Installer/StarterKitInstaller.php:314-318 | the rebuild loop gives one `key=value` line per key, in order |
| StarterKitInstaller.SeedEnvFile | src/Installer/StarterKitInstaller.php:282-292 | a missing `config/.env` is copied from `config/.env.example`, else from the root `.env.example` |
| StarterKitInstaller.UpdateEnvFile | src/Installer/StarterKitInstaller.php:280-331 | `_updateEnvFile` changes the world as `UpdateEnvSpec` says |
| StarterKitInstaller.WriteEnvFile | src/Installer/StarterKitInstaller.php:323-330 | the write, and the warning when it fails |
| StarterKitInstaller.DatabaseReport | src/Installer/StarterKitInstaller.php:174-183 | each outcome of the database check is a console message |
| StarterKitInstaller.ConfigureDatabase | src/Installer/StarterKitInstaller.php:135-185 | the database phase as `DatabasePhase` says |
| StarterKitInstaller.UpdateSecurityAndDebug | src/Installer/StarterKitInstaller.php:193-209 | the security phase as `SecurityPhase` says |
| StarterKitInstaller.ConfigureEmail | src/Installer/StarterKitInstaller.php:217-242 | the email phase as `EmailPhase` says |
| StarterKitInstaller.RunMigrations | src/Installer/StarterKitInstaller.php:250-271 | the migrations phase as `MigrationPhase` says |
| StarterKitInstaller.RunService | src/Installer/StarterKitInstaller.php:83-89 | the registered kit's service runs as `ServiceSpec` says |
| StarterKitInstaller.RunPhases | src/Installer/StarterKitInstaller.php:100-103 | the four phases run in order |
| StarterKitInstaller.Install | src/Installer/StarterKitInstaller.php:76-127 | `install` changes the world and returns the status as `InstallSpec` says |
| StarterKitInstaller.InstallKit | src/Installer/StarterKitInstaller.php:81-109 | a registered kit: the service, then the phases and the success line |
| StarterKitInstaller.RunFinish | src/Installer/StarterKitInstaller.php:100-107 | the phases and the success line |
| StarterKitInstaller.InstallBasic | src/Installer/StarterKitInstaller.php:112-126 | the fallback install and its success line |
| StarterKitInstaller.UpdateEnvOverFile | src/Installer/StarterKitInstaller.php:290-323 | an existing unlocked `config/.env` is never replaced by the template: it is rewritten as the merge of its own text, nothing else changes and nothing is said |
| StarterKitInstaller.UpdateEnvRefused | src/Installer/StarterKitInstaller.php:323-330 | a locked `config/.env`, or a directory in its place, is left alone and the only effect is the warning |
| StarterKitInstaller.WriteEnvRefused | src/Installer/StarterKitInstaller.php:323-330 | a write that cannot happen gives the warning only |
| StarterKitInstaller.UpdateEnvFromExample | src/Installer/StarterKitInstaller.php:284-298 | a missing `config/.env` is seeded from `config/.env.example` when present, else from `.env.example`, and the written file is the merge of that text |
| StarterKitInstaller.UpdateEnvFromNothing | src/Installer/StarterKitInstaller.php:284-320 | with no `config/.env` and no example the written file holds exactly the pairs, one line each |
| StarterKitInstaller.UpdateEnvWithoutConfigDir | src/Installer/StarterKitInstaller.php:290-330 | without a `config/` directory nothing is copied or written, only the warning is said |
| StarterKitInstaller.SeedWithoutConfigDir | src/Installer/StarterKitInstaller.php:290-291 | without `config/` the copy does nothing |
| StarterKitInstaller.WriteEnvWithoutConfigDir | src/Installer/StarterKitInstaller.php:323-330 | without `config/` the write fails with the warning |
| StarterKitInstaller.UpdateEnvQuiet | src/Installer/StarterKitInstaller.php:280-331 | the merge starts no process and says at most its one warning |
| StarterKitInstaller.WriteEnvQuiet | src/Installer/StarterKitInstaller.php:323-330 | the write starts no process and says at most one warning |
| StarterKitInstaller.SaltIsHex | src/Installer/StarterKitInstaller.php:195-196 | the salt is 64 lower-case hex digits that decode to the 32 random bytes |
| StarterKitInstaller.OneLineValue | src/Installer/StarterKitInstaller.php:140-143 | an answer or its default fits on one line when both do |
| StarterKitInstaller.DatabaseVarsFit | src/Installer/StarterKitInstaller.php:147-156 | the five database pairs fit on one line each |
| StarterKitInstaller.SecurityVarsFit | src/Installer/StarterKitInstaller.php:201-207 | the salt and debug pairs fit on one line each |
| StarterKitInstaller.EmailVarsFit | src/Installer/StarterKitInstaller.php:229-240 | the six email pairs fit on one line each |
| StarterKitInstaller.EarlyVarsFit | src/Installer/StarterKitInstaller.php:147-207 | the database and security pairs fit |
| StarterKitInstaller.AllVarsFit | src/Installer/StarterKitInstaller.php:147-240 | all thirteen pairs fit |
| StarterKitInstaller.AllKeysDistinct | src/Installer/StarterKitInstaller.php:150-237 | the thirteen keys the phases set are all different |
| StarterKitInstaller.DatabasePhaseOverFile | src/Installer/StarterKitInstaller.php:147-156 | the database phase writes the merge of the file with the five `DB_*` pairs |
| StarterKitInstaller.SecurityPhaseOverFile | src/Installer/StarterKitInstaller.php:201-207 | the security phase writes the merge with `SECURITY_SALT` and `DEBUG` |
| StarterKitInstaller.EmailPhaseOverFile | src/Installer/StarterKitInstaller.php:229-240 | the email phase writes the merge with the six email pairs, `EMAIL_FROM` being the SMTP username |
| StarterKitInstaller.ConfigureOverFile | src/Installer/StarterKitInstaller.php:100-102 | the three phases rewrite the file three times, each merging into what the previous one wrote |
| StarterKitInstaller.ConfigureMergesOnce | src/Installer/StarterKitInstaller.php:100-102 | the three rewrites come to one merge of all thirteen pairs, so later phases keep earlier keys |
| StarterKitInstaller.ConfiguredValues | src/Installer/StarterKitInstaller.php:100-240 | reading the configured file back gives every answer under its key and every other key of the old file with its old value |
| StarterKitInstaller.AnswersReadBack | src/Installer/StarterKitInstaller.php:140-240 | the thirteen pairs read back from the merged text |
| StarterKitInstaller.MergeReadsBack | src/Installer/StarterKitInstaller.php:280-331 | after a merge the file, read again, has every pair and every other old key with its value |
| StarterKitInstaller.AskFiveCommands | src/Installer/StarterKitInstaller.php:140-144 | five prompts start no process |
| StarterKitInstaller.DatabasePhaseCommands | src/Installer/StarterKitInstaller.php:135-185 | the database phase starts no process |
| StarterKitInstaller.SecurityPhaseCommands | src/Installer/StarterKitInstaller.php:193-209 | the security phase starts no process |
| StarterKitInstaller.EmailPhaseCommands | src/Installer/StarterKitInstaller.php:217-242 | the email phase starts no process |
| StarterKitInstaller.MigrationPhaseCommands | src/Installer/StarterKitInstaller.php:257-264 | the migrations phase starts exactly `bin/cake migrations migrate` in `name` with timeout 120 |
| StarterKitInstaller.PhasesCommands | src/Installer/StarterKitInstaller.php:100-103 | the phases start exactly one process, the migrations |
| StarterKitInstaller.UnregisteredKitFallsBack | src/Installer/StarterKitInstaller.php:62-126 | any key but `saas` and `simple` gets the plain Composer install only, with its outcome, and none of the phases |
| StarterKitInstaller.SimpleKitRunsOnlyMigrations | src/Installer/StarterKitInstaller.php:81-107 | with a runner that always starts its process, the simple kit always completes, and its only process is the migrations run, even though it created nothing |
| StarterKitInstaller.FinishCommands | src/Installer/StarterKitInstaller.php:100-107 | after the service, the only process is the migrations run |
| StarterKitInstaller.SaasCloneFailure | src/Installer/StarterKitInstaller.php:78-89 | a failed clone ends the SAAS install at once, throwing the clone's message: after the heading, the clone's line and the clone, nothing is said, asked or run |
| StarterKitInstaller.SaasServiceThenMigrations | src/Installer/StarterKitInstaller.php:81-107 | once the SAAS service completes, and when the migrations run finishes in time, the install completes, having started the service's processes and then the migrations |
| NewCommand.ResolveKit | src/Command/NewCommand.php:140-152 | an option given is used unprompted; otherwise the method prompt decides: `starter-kit` asks for the kit, anything else leaves none |
| NewCommand.SelectStarterKit | src/Command/NewCommand.php:192-211 | the kit prompt as `SelectSpec` says |
| NewCommand.PrepareTarget | src/Command/NewCommand.php:126-137 | refused exactly when `Prepare` refuses; otherwise the world `Prepare` gives |
| NewCommand.ResolveStarterKit | src/Command/NewCommand.php:140-152 | the kit resolution as `ResolveKit` says |
| NewCommand.RunInstaller | src/Command/NewCommand.php:155-163 | the installer dispatch as `Dispatch` says |
| NewCommand.SayEach | src/Command/NewCommand.php:166-175 | the `text([...])` lines as `SayLines` says |
| NewCommand.Finish | src/Command/NewCommand.php:165-183 | the closing lines and the exit code as `Conclude` says |
| NewCommand.Execute | src/Command/NewCommand.php:111-184 | `execute` changes the world and returns the exit code as `ExecuteSpec` says |
| NewCommand.RefusedWithoutForce | src/Command/NewCommand.php:126-130 | an existing target without `--force` gives FAILURE: nothing removed, no prompt, no installer, the error last |
| NewCommand.NoTargetNoRemoval | src/Command/NewCommand.php:126 | without a target directory the check changes nothing |
| NewCommand.ForceRemovesFirst | src/Command/NewCommand.php:131-136 | with `--force` the target is removed before any process runs, and is gone when nothing in it is locked |
| NewCommand.PromptedKitIsOffered | src/Command/NewCommand.php:140-207 | prompts settle on no kit or one of the six keys; the method prompt defaults to manual and the kit prompt to `saas` |
| NewCommand.FalsyKitsAreManual | src/Command/NewCommand.php:155 | `""` and `"0"` install exactly as no kit does |
| NewCommand.ManualRunsCreateProject | src/Command/NewCommand.php:159-163 | a falsy kit runs `CakePHPInstaller` alone: the single `composer create-project` |
| NewCommand.ExitCodeFollowsInstaller | src/Command/NewCommand.php:165-183 | SUCCESS exactly when the installer returned, with the farewell last; an exception gives FAILURE and `Installation failed: ` with its message last |
| NewCommand.SayLinesLog | src/Command/NewCommand.php:166-175 | the lines are said one text event each, in order, and no file changes |
| NewCommand.BannerCommands | src/Command/NewCommand.php:118-123 | the title and the opening text start no process |
| NewCommand.PrepareCommands | src/Command/NewCommand.php:126-137 | the existence check, when the command goes on, starts no process |
| NewCommand.ResolveKitCommands | src/Command/NewCommand.php:140-152 | the prompts start no process |
| NewCommand.ConcludeLog | src/Command/NewCommand.php:165-183 | after the installer the command says exactly the success line and the six next-step lines, or exactly `Installation failed: ` and the message, and starts no process |
| NewCommand.ExecuteOutcome | src/Command/NewCommand.php:111-184 | for directories that can be listed and runs that finish in time, the exit code is SUCCESS or FAILURE, SUCCESS exactly when the installer completed; every process is the installer's; after a completed install the command says only the success line and the next steps, so no error; after an exception, the failure line |

## Left out

- Process streaming, timeout enforcement and cwd checks are not modelled. The process runner is an oracle that gets the argv, cwd, timeout and stdin and gives back success, error output and the new filesystem.
- Timeouts: Symfony's `Process::run` throws `ProcessTimedOutException` when a run passes its timeout. That exception is a `RuntimeException`; no installer step catches it, and `execute` turns it into FAILURE (src/Command/NewCommand.php:178-182). The model's runner always finishes, so the completions stated by SaasStarterKitService.SuccessfulInstall, StarterKitInstaller.SaasServiceThenMigrations and StarterKitInstaller.SimpleKitRunsOnlyMigrations, and the migrations phase that "only warns" (src/Installer/StarterKitInstaller.php:257-270), hold only for runs that finish within their timeouts. This affects the clone, composer, npm install, build, setup, create-project and migrations runs.
- DirectoryHelper.RemoveOnlyDeletes: every directory `removeDirectory` reaches can be listed. A directory that `is_dir` accepts but `scandir` cannot read (for example mode 0300 for a user who is not root) makes `scandir` return false. Under `strict_types=1`, `array_diff(false, ...)` then throws a `TypeError` (src/Util/DirectoryHelper.php:52). That is an `\Error`, so no `catch (\Exception)` stops it. It escapes from the `--force` removal (src/Command/NewCommand.php:134, outside the `try`) and from the `.git` removal (src/Service/SaasStarterKitService.php:81). This path is not modelled.
- NewCommand.ExecuteOutcome: the exit code is stated for the modelled runner and for listable directories. A run that times out gives FAILURE where the model follows what the modelled runner returned. An unreadable directory under `--force`, or one met during the `.git` removal, ends the command with an uncaught `TypeError` instead of either exit code.
- Prompt answers (`ask`, `askHidden`, `askQuestion`) are inputs of the model. Symfony's re-asking until a `ChoiceQuestion` gets a valid key is the `Answerable` precondition of `NewCommand.PromptedKitIsOffered`.
- The PDO check and create (src/Installer/StarterKitInstaller.php:161-184) is the `database` oracle. Its three outcomes become the console messages the source gives.
- `random_bytes(32)` is the `entropy` oracle. Only the hex encoding is modelled.
- `_displayLogo` (src/Command/NewCommand.php:219-232) and the command's help and description text are console decoration with no effect on the outcome.
- The `chmod` of `bin/cake` (src/Installer/StarterKitInstaller.php:91-97, 119-125) and the `@chmod` calls of `removeDirectory` are not modelled, because their results are never looked at. The platform is the `windows` flag, which chooses `PHP_EOL` and the `php` prefix of the setup command.
- Directory entries are walked in the order the tree stores them, and a new entry goes last. The ascending sort of `scandir` is not modelled, so the order of sibling events is the tree's.
- Paths are written with `/`; `DIRECTORY_SEPARATOR` is not modelled. The project name is taken as one path component below the working directory.
- `removeDirectory` works on the tree found when it starts. Nothing concurrent changes the tree while it runs.
- A read of an existing file is modelled as always succeeding. `file()` returning `false` is not modelled.
- PHP turns numeric-string array keys into integers. This is not modelled because it makes no difference to the text written.
- `$io->write($buffer)` of process output is not modelled, and `$io->text([...])` is one text event per line.
- `StarterKitServiceInterface` is only a method signature, realised here by the two services. tests/InstallerTest.php only checks that the classes exist.
- StarterKitInstaller.SimpleKitRunsOnlyMigrations: completion holds only for the modelled runner, which always starts its process. Symfony's `Process` throws when its cwd does not exist. The simple kit creates no `name` directory, so on a fresh target the migrations run (src/Installer/StarterKitInstaller.php:257-264) would throw, `install` would not catch it, and the command would return FAILURE (src/Command/NewCommand.php:178-182). The same holds for every process run in a cwd that is missing.
- EnvFile.MergeIdempotent: holds only for pairs that fit on one line and a file whose lines can be written back. `EnvFile.NotIdempotentOnBareCR` shows the last line `a=b\r` without a line break, where idempotence fails.
- StarterKitInstaller.ConfigureMergesOnce: needs the file's lines and the database and debug answers to survive a rewrite. An answer holding a line break would change what the next phase reads.

Where the code and its description differ, the model follows the code:

- Comment lines, lines without `=` and empty lines are dropped when `config/.env` is rewritten, not preserved (`EnvFile.DroppedLinesGone`).
- A locked file inside a removed tree gives one warning for its own `unlink`, plus one for the `rmdir` of every directory on the way to it, not a single warning (`DirectoryHelper.LockedFileAncestors`).
- The security salt is 64 hex characters, although the comment at src/Installer/StarterKitInstaller.php:195 says 32 (`StarterKitInstaller.SaltIsHex`).
