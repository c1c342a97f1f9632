# cleanvibe, modelled in Dafny

cleanvibe is a small command-line tool. `cleanvibe new PATH` creates a project
directory holding three scaffold files: `CLAUDE.md` (conventions for the coding
assistant, dated), `README.md` and `.gitignore`. It then initialises a git
repository and hands off to the `claude` assistant. `cleanvibe clone REPO [PATH]`
clones a repository and writes only the scaffold files that the clone lacks,
then hands off in the same way. Both commands accept `--dry-run`, which prints
what would happen, and `--no-claude`, which skips the hand-off.

The project has four modules:

- `Text` (`text.dfy`) holds the few pieces of Python's `str` that the tool relies on.
  - `rstrip` and `rsplit(..., 1)[-1]` are each tied to their result by a uniqueness lemma.
  - `split("\n")` is not called by cleanvibe. It is used only to state what the
    templates' lines are.
  - Formatting an `int` in decimal reads back to the same number.
- `Templates` (`templates.dfy`) holds the three templates as pure functions of the
  project name. The date that `CLAUDE.md` embeds is a parameter (`today`) rather
  than a reading of the clock.
- `Scaffold` (`scaffold.dfy`) holds the two workflows. The target directory is a
  `Workspace` object with three fields:
  - whether the directory exists;
  - its entries, as a map from file name to contents;
  - an append-only log of everything observable the run does: lines on stdout and
    stderr, git runs, the hand-off, and `sys.exit`.

  `create_project`, `clone_project`, `_write`, `_git_init` and `_launch_claude` are
  methods on it, each proved against a specification function of the old state.
  The properties are lemmas about those specification functions.
- `Cli` (`cli.dfy`) holds `main`'s dispatch over an already parsed command, the
  non-empty guard of `new`, and how `clone` derives its directory name from the
  repository reference.

External programs are not run. `git clone` is represented by two inputs: its exit
status and the entries it leaves in the directory. The exit status of
`git init`/`add`/`commit` is an input that is ignored, as the source ignores it
(git is taken to be installed; see "Left out").
The hand-off to the assistant is one abstract `LaunchAssistant` effect. The exit
status of a run is the code of its first `Exit` effect, or 0 when there is none
(`Scaffold.ExitCode`).

## Model

| member | source | states |
|---|---|---|
| Text.RStrip | cleanvibe/cli.py:73 | `repo.rstrip("/")` is a prefix of the input, only `/` follows it, and it does not itself end in `/` |
| Text.RStripUnique | cleanvibe/cli.py:73 | those three properties determine the stripped string completely |
| Text.AfterLast | cleanvibe/cli.py:73 | `rsplit("/", 1)[-1]` is a suffix without `/`, either the whole string or preceded by a `/` |
| Text.AfterLastUnique | cleanvibe/cli.py:73 | the last segment is the only suffix with those properties |
| Text.LastSegment | cleanvibe/cli.py:73 | the last segment has no `/` and ends the string once its trailing `/` are stripped. It serves both for the repository reference and, for POSIX paths, for `path.name` (cleanvibe/scaffold.py:18, 58) |
| Text.NatToDecimal | cleanvibe/scaffold.py:55 | the decimal text of a number is non-empty, all digits, and has no leading zero |
| Text.IntToDecimal | cleanvibe/scaffold.py:55 | `str(n)`: all digits for a non-negative number, a `-` followed by digits for a negative one |
| Text.IntToDecimalRoundTrip | cleanvibe/scaffold.py:55 | the exit status printed in the clone error message reads back as the same integer, negative statuses included |
| Templates.ClaudeMd | cleanvibe/templates.py:11-29 | CLAUDE.md starts with `# <name>` plus a newline and ends with `Today's date is <today>.` plus a newline |
| Templates.ClaudeMdLines | cleanvibe/templates.py:13-28 | split into lines, the first line is `# <name>`, the last line is the date line, and a final newline follows it |
| Templates.ClaudeMdNameRecoverable | cleanvibe/templates.py:13 | two names that yield the same CLAUDE.md are equal |
| Templates.ClaudeMdDateRecoverable | cleanvibe/templates.py:12-28 | two dates that yield the same CLAUDE.md for a project are equal |
| Templates.ClaudeMdDiffersOnlyInDate | cleanvibe/templates.py:12-28 | for a fixed project, the documents of two dates share everything before the date and the `.` and newline after it |
| Templates.ClaudeMdDiffersOnlyInHeader | cleanvibe/templates.py:13-29 | for a fixed date, everything after the title line is the same for every project name |
| Templates.ReadmeMd | cleanvibe/templates.py:32-50 | README.md starts with `# <name>` |
| Templates.ReadmeMdLines | cleanvibe/templates.py:33-47 | README.md's first line is `# <name>`, and one of its lines is `cd <name>` |
| Templates.Gitignore | cleanvibe/templates.py:53-80 | the ignore list, spelled out entry by entry |
| Templates.TemplatesCarryName | cleanvibe/templates.py:13-80 | the ignore list is non-empty, and both markdown files carry the name right after `# ` |
| Scaffold.ExitCode | cleanvibe/scaffold.py:56 | the process status: 0 when the run never calls `sys.exit`, and a non-zero status comes from a `sys.exit` with that code (also cleanvibe/cli.py:61, 66) |
| Scaffold.ExitCodeAfter | cleanvibe/scaffold.py:56 | effects that are not `sys.exit` leave the exit status to the effects after them |
| Scaffold.ExitCodeAt | cleanvibe/scaffold.py:56 | the first `sys.exit` in a run decides its exit status |
| Scaffold.InjectedLineInjective | cleanvibe/scaffold.py:64-74 | different files give different "Injected … (was missing)" lines |
| Scaffold.CreatedIsNotInjected | cleanvibe/scaffold.py:64-82 | a "Created" line is never an "Injected" line |
| Scaffold.AddMissingScaffold | cleanvibe/scaffold.py:60-74 | the three guarded writes, applied in order, add exactly the scaffold files that are absent, and what is present wins |
| Scaffold.WriteScaffoldOverlay | cleanvibe/scaffold.py:33-35 | the three unconditional writes overlay the scaffold on the entries |
| Scaffold.CreateEffects | cleanvibe/scaffold.py:16-40 | everything `create_project` does, dry run or not. It never writes to stderr and never calls `sys.exit` |
| Scaffold.CreatedFiles | cleanvibe/scaffold.py:20-35 | the entries after `create_project`: a dry run keeps them, and a real run only adds scaffold names and never removes a modelled entry |
| Scaffold.CloneEffects | cleanvibe/scaffold.py:43-77 | everything `clone_project` does for a given clone outcome. A real run starts with `git clone` of the repository into the path, and a dry run only prints |
| Scaffold.ClonedFiles | cleanvibe/scaffold.py:45-74 | the entries after `clone_project`. A dry run or a failed clone keeps them; a successful clone keeps every cloned entry and adds only scaffold names |
| Scaffold.Workspace.Write | cleanvibe/scaffold.py:80-82 | `_write` creates or overwrites exactly that entry and logs `  Created <file>` |
| Scaffold.Workspace.InitGit | cleanvibe/scaffold.py:85-93 | whatever git's status, `_git_init` logs the git run and the "Initialized git repo" line, and changes no modelled entry |
| Scaffold.Workspace.LaunchClaude | cleanvibe/scaffold.py:96-101 | `_launch_claude` logs the launch line and then the hand-off in that directory |
| Scaffold.Workspace.MaybeLaunch | cleanvibe/scaffold.py:39-40 | a hand-off is logged exactly when `no_claude` is false |
| Scaffold.Workspace.Emit | cleanvibe/cli.py:60-66 | recording an effect appends it to the log and changes no entry |
| Scaffold.Workspace.Say | cleanvibe/scaffold.py:21-28 | `print` appends one stdout line and changes no entry |
| Scaffold.Workspace.WriteScaffold | cleanvibe/scaffold.py:33-35 | the entries become the old entries overlaid with the scaffold for the name, and three "Created" lines are logged |
| Scaffold.Workspace.InjectMissing | cleanvibe/scaffold.py:61-64 | a file is written and reported only when absent, and an existing file keeps its contents |
| Scaffold.Workspace.InjectScaffold | cleanvibe/scaffold.py:60-74 | the entries become the scaffold completed by the existing entries, and the injections are logged |
| Scaffold.Workspace.AnnounceCreate | cleanvibe/scaffold.py:20-28 | the dry-run lines of `create_project` are logged, and the entries are unchanged |
| Scaffold.Workspace.AnnounceClone | cleanvibe/scaffold.py:45-50 | the dry-run lines of `clone_project` are logged, and the entries are unchanged |
| Scaffold.Workspace.CreateProject | cleanvibe/scaffold.py:16-40 | the new entries and log are `CreatedFiles` and `CreateEffects` of the old state, and the directory exists unless this was a dry run |
| Scaffold.Workspace.CloneProject | cleanvibe/scaffold.py:43-77 | the new entries and log are `ClonedFiles` and `CloneEffects` of the old state and the clone outcome |
| Scaffold.Workspace.FailClone | cleanvibe/scaffold.py:54-56 | a failed clone logs the error carrying git's status to stderr, then `Exit(1)` |
| Scaffold.Workspace.CompleteClone | cleanvibe/scaffold.py:58-77 | after a successful clone, the scaffold fills what is missing, the injections are logged and the optional hand-off follows |
| Scaffold.NotLaunchAnnouncement | cleanvibe/scaffold.py:21-28 | a dry-run line whose word after "Would " does not start with `l` is not the launch announcement |
| Scaffold.CreateDryRunKeepsFiles | cleanvibe/scaffold.py:20-29 | a dry-run `create_project` leaves the entries unchanged |
| Scaffold.CreateDryRunOnlyPrints | cleanvibe/scaffold.py:20-29 | a dry-run `create_project` only prints to stdout: no git, no hand-off, no exit |
| Scaffold.CreateDryRunAnnouncesLaunch | cleanvibe/scaffold.py:27-28 | the dry run prints "Would launch: claude" if and only if `no_claude` is false |
| Scaffold.CloneDryRunKeepsFiles | cleanvibe/scaffold.py:45-51 | a dry-run `clone_project` leaves the entries unchanged, whatever git would do |
| Scaffold.CloneDryRunOnlyPrints | cleanvibe/scaffold.py:45-51 | a dry-run `clone_project` only prints: no clone, no hand-off, no exit |
| Scaffold.CloneDryRunAnnouncesLaunch | cleanvibe/scaffold.py:49-50 | the clone dry run prints "Would launch: claude" if and only if `no_claude` is false |
| Scaffold.CreateWritesScaffold | cleanvibe/scaffold.py:18-35 | after a real `create_project`, the three files hold the templates for the path's last segment, overwriting what was there, and every other entry is kept |
| Scaffold.CreateGitBestEffort | cleanvibe/scaffold.py:37-93 | `create_project` never sets a non-zero exit status, and a real run always logs the git run and "Initialized git repo with initial commit" |
| Scaffold.CloneFailureStops | cleanvibe/scaffold.py:53-56 | a failed clone exits with 1 whatever git's status was, and git's status reads back from the error line. Nothing is printed to stdout, nothing is injected or launched, and the entries are unchanged |
| Scaffold.InjectionAdditive | cleanvibe/scaffold.py:60-74 | after a clone, every cloned entry keeps its exact contents, every missing scaffold file gets its template, and no other entry appears |
| Scaffold.CloneExitStatus | cleanvibe/scaffold.py:43-77 | `clone_project` exits with 1 exactly when a real clone fails; a dry run and a successful clone end with status 0 |
| Scaffold.CloneInjectionReported | cleanvibe/scaffold.py:53-77 | in the whole log of a successful clone, "Injected X (was missing)" appears if and only if X is a scaffold file the clone lacked |
| Scaffold.InjectionReported | cleanvibe/scaffold.py:61-74 | "Injected X (was missing)" is logged if and only if X is a scaffold file that the clone lacked |
| Scaffold.OtherEntriesUntouched | cleanvibe/scaffold.py:31-35 | neither workflow adds, removes or changes a modelled entry outside the three scaffold names |
| Scaffold.CreateLaunchConditions | cleanvibe/scaffold.py:39-40 | `create_project` hands off if and only if the run is real and `no_claude` is false, and always in the new directory |
| Scaffold.CloneLaunchConditions | cleanvibe/scaffold.py:45-77 | `clone_project` hands off if and only if the run is real, the clone succeeded and `no_claude` is false, and always in the target |
| Cli.DeriveRepoName | cleanvibe/cli.py:72-75 | the derived name has no `/`, and it is the last segment itself or the last segment minus one `.git` |
| Cli.CloneTarget | cleanvibe/cli.py:71-76 | an explicit path is the target as given; otherwise the target is a single segment, the reference's last segment with or without one `.git` removed |
| Cli.LastSegmentOf | cleanvibe/cli.py:73 | the last segment of `prefix + base + "///…"` is `base` |
| Cli.RepoNameDropsOneGit | cleanvibe/cli.py:74-75 | a reference ending in `<stem>.git`, with or without trailing `/`, gives `<stem>`, so exactly one `.git` is removed |
| Cli.RepoNameKeepsPlainSegment | cleanvibe/cli.py:73-75 | a last segment that does not end in `.git` is used as it is |
| Cli.RepoNameOfUrl | cleanvibe/cli.py:72-75 | `https://example.com/group/my-repo.git` gives `my-repo` |
| Cli.RepoNameOfDoubleSuffix | cleanvibe/cli.py:74-75 | `a/x.git.git` gives `x.git` |
| Cli.DerivedNameIsOwnPathName | cleanvibe/cli.py:76 | the derived name is its own last segment, and so (read as a POSIX path) its own `Path(...).name`, so the cloned project is named after it |
| Cli.Occupied | cleanvibe/cli.py:64 | the guard holds exactly when the directory exists and has at least one entry |
| Cli.OccupiedWhenValid | cleanvibe/cli.py:64 | in a workspace where a missing directory has no entries, the guard comes down to "has at least one entry" |
| Cli.RefusalLine | cleanvibe/cli.py:65 | the refusal starts with `Error: `, carries the path right after it, and ends with ` already exists and is not empty.` |
| Cli.RunEffects | cleanvibe/cli.py:59-78 | everything one run of `main` does. Every run has at least two effects, and it opens with the usage text exactly when there is no subcommand |
| Cli.RunKeepsToKnownNames | cleanvibe/cli.py:59-78 | the entries after one run of `main` (`RunFiles`) have only existing, cloned or scaffold names, and only `clone` can drop an existing entry (the clone replaces the directory's contents) |
| Cli.RunPresent | cleanvibe/cli.py:59-78 | the directory never disappears, and it comes into being only through a real `new` or `clone` |
| Cli.Run | cleanvibe/cli.py:59-78 | the new directory state and log are `RunPresent`, `RunFiles` and `RunEffects` of the old state and the command |
| Cli.RunNew | cleanvibe/cli.py:63-68 | the `new` branch keeps to the same specification |
| Cli.RunClone | cleanvibe/cli.py:70-78 | the `clone` branch, with the target given or derived, keeps to the same specification |
| Cli.HelpWhenNoCommand | cleanvibe/cli.py:59-61 | with no subcommand, the usage text is shown, the status is 0, no tool runs and nothing changes |
| Cli.NewRefusesOccupied | cleanvibe/cli.py:64-66 | `new` on an existing non-empty directory writes the error to stderr and exits with 1, with or without `--dry-run`. `create_project` never starts: nothing goes to stdout, no tool runs, and no entry changes |
| Cli.NewDelegates | cleanvibe/cli.py:67-68 | `new` on a missing or empty directory prints "Creating project" and then is exactly `create_project` with both flags as given, exiting with 0 |
| Cli.ExplicitPathUnchanged | cleanvibe/cli.py:71 | an explicit clone path is used unchanged |
| Cli.DerivedTargetScaffold | cleanvibe/cli.py:71-78 | without a path, a successful clone ends up holding the cloned entries, completed by the scaffold for the derived name |
| Cli.CloneRunExitStatus | cleanvibe/cli.py:70-78 | `main` on `clone` exits with 1 exactly when a real clone fails and with 0 otherwise, whether the target was given or derived |
| Cli.DryRunChangesNothing | cleanvibe/cli.py:63-78 | with `--dry-run`, either command leaves the directory and its entries as they were and runs no tool |

Two details of the code that the model keeps:

- A failed `git clone` exits with status 1 whatever git's status was. Git's status
  appears only in the stderr message (cleanvibe/scaffold.py:55-56).
- An injected file prints two lines: `  Created <file>` from `_write`, then
  `  Injected <file> (was missing)` (cleanvibe/scaffold.py:63-64, 82).

## Left out

- Templates.ClaudeGuidance: the prose between CLAUDE.md's title line and its date line
  (the workflow rules, the two TODO sections and the `# currentDate` heading) is a
  named constant whose wording the model leaves open. No property depends on it.
- Templates.ReadmeIntro: likewise, the prose between README.md's title line and its
  `cd` line is a named constant with open wording.
- `datetime.now().strftime("%Y-%m-%d")`: the clock reading is the `today` parameter.
  Its format is not constrained.
- argparse: option parsing, `--version`, the usage text (one `HelpShown` effect) and
  argparse's own error exits are not modelled. `main` starts from a parsed `Command`.
- Scaffold.Workspace.InitGit: git is assumed to be installed. When `git` cannot be
  started, `subprocess.run` raises `FileNotFoundError` (cleanvibe/scaffold.py:86);
  nothing catches it, so the process ends with a traceback and status 1 before the
  "Initialized" line. This is not modelled, so Scaffold.CreateGitBestEffort's status 0
  holds only when git can be started.
- Scaffold.Workspace.InitGit, Scaffold.CreatedFiles, Scaffold.OtherEntriesUntouched,
  Cli.RunKeepsToKnownNames: the `.git` directory that `git init` creates is not an
  entry of the model, so "no other entry appears" and "changes no entry" are about the
  modelled entries only. What `git add` and `git commit` then write inside `.git` is
  not modelled either.
- Scaffold.Workspace.CloneProject: likewise, git is assumed to be installed. The uncaught
  `FileNotFoundError` from `git clone` (cleanvibe/scaffold.py:53) is not modelled.
- git: `git init`, `git add .` and `git commit` are one `GitSetup` effect whose status
  is ignored. `git clone` is its status plus the entries it leaves.
  - On failure, the directory is taken to be as it was before the clone.
  - Whether git accepts a given target (for example an existing non-empty one) shows
    only through the status.
- `_launch_claude`: the platform branch (a new console window on Windows; `chdir` plus
  `execlp` elsewhere) and the message printed when `claude` is not installed are not
  modelled. Each is one `LaunchAssistant` effect.
  - The exit status of the replacing process is not modelled either.
  - A launch is always the last thing either workflow does, so nothing in the model
    follows it.
- Text.LastSegment: paths are read as POSIX paths. On Windows, pathlib also splits at
  `\` and drops a drive prefix, so `Path(r"C:\work\proj").name` is `proj` where the
  model gives the whole string; that is not modelled. The same holds for the
  `Path(...).name` reading of Cli.DerivedNameIsOwnPathName.
  - As `path.name`, it also keeps a final `.` segment, which pathlib drops. pathlib
    names `a/.` "a" and `.` the empty string, where the model gives ".". For example,
    `clone x/..git` derives the target ".". pathlib would give the injected scaffold
    the name "", and the model gives it ".".
  - How a `Path` prints, including its normalisation of repeated separators, is not
    modelled either: the log shows the path string as given.
- Cli.DerivedNameIsOwnPathName: its `Path(...).name` reading holds only for POSIX
  paths and for a derived name other than "." (see Text.LastSegment).
- Cli.Occupied: `exists()` and `iterdir()` on the real filesystem are reduced to "the
  directory exists and has an entry". A path that names a regular file (for which
  `iterdir()` raises) is not modelled.
- Scaffold.Workspace.InjectMissing, Scaffold.InjectionReported, Scaffold.InjectionAdditive,
  Scaffold.CreateWritesScaffold: entry names are compared exactly. On a case-insensitive
  file system (the default on macOS and Windows) a clone holding `readme.md` already
  has `README.md`, which the model would inject. Writes are taken to be byte-exact, so
  the newline translation of text mode on Windows (`\r\n`) is not modelled. Output is
  taken to reach stdout in order; `os.execlp` does not flush Python's buffers, so when
  stdout is a pipe the lines printed before the hand-off can be lost, which the log
  does not show.
- Only top-level entries of the target directory are modelled. File encoding (UTF-8)
  and write failures are not.
- Cli.DryRunChangesNothing: it does not claim that a dry run never exits. A refused
  `new --dry-run` still exits with status 1, because the guard runs before the
  dry-run branch.
