/** The two workflows of cleanvibe: creating a scaffolded project and
    cloning a repository and injecting whatever scaffolding it lacks.

    The target directory is a `Workspace`: whether it exists, its top-level
    entries (file name to contents) and the log of everything the process
    does that can be observed from outside (lines printed, git runs
    requested, the assistant launched, the exit status). External tools are
    not run: the outcome of `git clone` is given as its exit status and the
    directory it produces; the status of `git init`/`add`/`commit` is
    accepted and ignored, as the code ignores it. */
module Scaffold {
  import opened Text
  import opened Templates

  const ClaudeFile: string := "CLAUDE.md"
  const ReadmeFile: string := "README.md"
  const GitignoreFile: string := ".gitignore"

  /** The names of the three scaffold files. */
  const ScaffoldNames: set<string> := {ClaudeFile, ReadmeFile, GitignoreFile}

  /** The scaffold of project `name`: file name to contents. */
  function Scaffolding(name: string, today: string): map<string, string>
  {
    map[ClaudeFile := ClaudeMd(name, today), ReadmeFile := ReadmeMd(name), GitignoreFile := Gitignore]
  }

  /** `path / file` as it prints. */
  function Child(path: string, file: string): string
  {
    path + "/" + file
  }

  /** What one run of the program does that can be seen from outside. */
  datatype Effect =
    | Out(line: string)                  // a line on standard output
    | Err(line: string)                  // a line on standard error
    | HelpShown                          // the usage text on standard output
    | GitSetup(dir: string)              // git init, git add ., git commit in dir
    | GitClone(repo: string, dir: string)
    | LaunchAssistant(dir: string)       // hand-off to `claude` rooted at dir
    | Exit(code: int)                    // sys.exit(code)

  /** An effect that runs an external tool. */
  predicate RunsTool(e: Effect)
  {
    e.GitSetup? || e.GitClone? || e.LaunchAssistant?
  }

  /** Whether a log hands off to the assistant. */
  predicate Launches(effects: seq<Effect>)
  {
    exists e :: e in effects && e.LaunchAssistant?
  }

  /** The process exit status: the code of the first `sys.exit`, or 0 when
      the program runs to its end. */
  function ExitCode(effects: seq<Effect>): (code: int)
    ensures (forall i :: 0 <= i < |effects| ==> !effects[i].Exit?) ==> code == 0
    ensures code != 0 ==> exists i :: 0 <= i < |effects| && effects[i] == Exit(code)
  {
    if effects == [] then 0
    else if effects[0].Exit? then effects[0].code
    else ExitCode(effects[1..])
  }

  /** Effects that do not exit leave the exit status to what follows them. */
  lemma {:induction false} ExitCodeAfter(a: seq<Effect>, b: seq<Effect>)
    requires forall i :: 0 <= i < |a| ==> !a[i].Exit?
    ensures ExitCode(a + b) == ExitCode(b)
  {
    if a == [] {
      assert a + b == b;
    } else {
      assert (a + b)[0] == a[0];
      assert (a + b)[1..] == a[1..] + b;
      ExitCodeAfter(a[1..], b);
    }
  }

  /** The first `sys.exit` decides the status. */
  lemma {:induction false} ExitCodeAt(effects: seq<Effect>, k: nat)
    requires k < |effects| && effects[k].Exit?
    requires forall i :: 0 <= i < k ==> !effects[i].Exit?
    ensures ExitCode(effects) == effects[k].code
  {
    if k > 0 {
      ExitCodeAt(effects[1..], k - 1);
    }
  }

  // ---------------------------------------------------------------------------
  // The lines the workflows print
  // ---------------------------------------------------------------------------

  /** What `_write` prints after writing `file`. */
  function CreatedLine(file: string): string
  {
    "  Created " + file
  }

  function InjectedLine(file: string): string
  {
    "  Injected " + file + " (was missing)"
  }

  const GitDoneLine: string := "  Initialized git repo with initial commit"
  const LaunchLine: string := "  Launching Claude Code..."
  /** The opening of every line a dry run prints. */
  const DryRun: string := "[dry-run] Would "
  const DryRunLaunchLine: string := DryRun + "launch: claude"
  const CloneFailurePrefix: string := "Error: git clone failed with exit code "

  /** The message for a failed clone, carrying git's status. */
  function CloneFailureLine(status: int): string
  {
    CloneFailurePrefix + IntToDecimal(status)
  }

  lemma InjectedLineInjective(f: string, g: string)
    requires InjectedLine(f) == InjectedLine(g)
    ensures f == g
  {
    assert InjectedLine(f)[11..11 + |f|] == f;
    assert InjectedLine(g)[11..11 + |g|] == g;
  }

  lemma CreatedIsNotInjected(f: string, g: string)
    ensures CreatedLine(f) != InjectedLine(g)
  {
    assert CreatedLine(f)[2] == 'C';
    assert InjectedLine(g)[2] == 'I';
  }

  // ---------------------------------------------------------------------------
  // Specification of the workflows
  // ---------------------------------------------------------------------------

  /** `_launch_claude(dir)`, the hand-off being one abstract effect. */
  function LaunchEffects(dir: string, noClaude: bool): seq<Effect>
  {
    if noClaude then [] else [Out(LaunchLine), LaunchAssistant(dir)]
  }

  /** What a dry run of `create_project` prints. */
  function CreateDryRunEffects(path: string, noClaude: bool): seq<Effect>
  {
    [ Out(DryRun + "create directory: " + path),
      Out(DryRun + "write: " + Child(path, ClaudeFile)),
      Out(DryRun + "write: " + Child(path, ReadmeFile)),
      Out(DryRun + "write: " + Child(path, GitignoreFile)),
      Out(DryRun + "run: git init"),
      Out(DryRun + "run: git add . && git commit") ]
    + (if noClaude then [] else [Out(DryRunLaunchLine)])
  }

  /** What writing the three scaffold files prints. */
  const WriteAllEffects: seq<Effect> :=
    [Out(CreatedLine(ClaudeFile)), Out(CreatedLine(ReadmeFile)), Out(CreatedLine(GitignoreFile))]

  /** What `_git_init` prints and runs. */
  function GitInitEffects(dir: string): seq<Effect>
  {
    [GitSetup(dir), Out(GitDoneLine)]
  }

  /** The effects of `create_project(path, dry_run, no_claude)`. */
  function CreateEffects(path: string, dryRun: bool, noClaude: bool): (effects: seq<Effect>)
    ensures forall i :: 0 <= i < |effects| ==> !effects[i].Exit? && !effects[i].Err?
  {
    if dryRun then CreateDryRunEffects(path, noClaude)
    else WriteAllEffects + GitInitEffects(path) + LaunchEffects(path, noClaude)
  }

  /** The directory's entries after `create_project`. */
  function CreatedFiles(files: map<string, string>, path: string, dryRun: bool, today: string): (r: map<string, string>)
    ensures files.Keys <= r.Keys <= files.Keys + ScaffoldNames
    ensures dryRun ==> r == files
  {
    if dryRun then files else files + Scaffolding(LastSegment(path), today)
  }

  /** What injecting `file` into the cloned entries prints. */
  function InjectEffects(cloned: map<string, string>, file: string): seq<Effect>
  {
    if file in cloned then [] else [Out(CreatedLine(file)), Out(InjectedLine(file))]
  }

  /** The effects of injecting all three scaffold files. */
  function InjectAllEffects(cloned: map<string, string>): seq<Effect>
  {
    InjectEffects(cloned, ClaudeFile) + InjectEffects(cloned, ReadmeFile) + InjectEffects(cloned, GitignoreFile)
  }

  /** What a dry run of `clone_project` prints. */
  function CloneDryRunEffects(repo: string, path: string, noClaude: bool): seq<Effect>
  {
    [ Out(DryRun + "run: git clone " + repo + " " + path),
      Out(DryRun + "check for missing " + ClaudeFile + " / " + ReadmeFile + " / " + GitignoreFile),
      Out(DryRun + "inject any missing files") ]
    + (if noClaude then [] else [Out(DryRunLaunchLine)])
  }

  /** The effects of `clone_project(repo, path, dry_run, no_claude)` when
      `git clone` ends with `status` and leaves `cloned` in the directory. */
  function CloneEffects(repo: string, path: string, dryRun: bool, noClaude: bool,
                        status: int, cloned: map<string, string>): (effects: seq<Effect>)
    ensures !dryRun ==> |effects| >= 1 && effects[0] == GitClone(repo, path)
    ensures dryRun ==> forall i :: 0 <= i < |effects| ==> effects[i].Out?
  {
    if dryRun then CloneDryRunEffects(repo, path, noClaude)
    else if status != 0 then [GitClone(repo, path), Err(CloneFailureLine(status)), Exit(1)]
    else [GitClone(repo, path)] + (InjectAllEffects(cloned) + LaunchEffects(path, noClaude))
  }

  /** The directory's entries after `clone_project`: what the clone produced,
      completed by the scaffold files it lacks. A failed clone leaves the
      directory as it was. */
  function ClonedFiles(files: map<string, string>, path: string, dryRun: bool, today: string,
                       status: int, cloned: map<string, string>): (r: map<string, string>)
    ensures dryRun || status != 0 ==> r == files
    ensures !dryRun && status == 0 ==> cloned.Keys <= r.Keys <= cloned.Keys + ScaffoldNames
  {
    if dryRun || status != 0 then files else Scaffolding(LastSegment(path), today) + cloned
  }

  /** Adding `file` only if it is absent. */
  function AddMissing(files: map<string, string>, file: string, content: string): map<string, string>
  {
    if file in files then files else files[file := content]
  }

  /** Adding the three scaffold files one after the other, each only if
      absent, completes the entries with the scaffold. */
  lemma AddMissingScaffold(files: map<string, string>, name: string, today: string)
    ensures var s := Scaffolding(name, today);
      AddMissing(AddMissing(AddMissing(files, ClaudeFile, s[ClaudeFile]), ReadmeFile, s[ReadmeFile]),
                 GitignoreFile, s[GitignoreFile])
      == s + files
  {
  }

  /** Writing the three scaffold files one after the other overlays the
      scaffold on the entries. */
  lemma WriteScaffoldOverlay(files: map<string, string>, name: string, today: string)
    ensures var s := Scaffolding(name, today);
      files[ClaudeFile := s[ClaudeFile]][ReadmeFile := s[ReadmeFile]][GitignoreFile := s[GitignoreFile]]
      == files + s
  {
  }

  /** Appending to the log in two steps is appending once (a proof step
      for the workflow methods). */
  lemma LogGrows(log: seq<Effect>, first: seq<Effect>, second: seq<Effect>)
    ensures log + first + second == log + (first + second)
  {
  }

  // ---------------------------------------------------------------------------
  // The target directory and the workflows acting on it
  // ---------------------------------------------------------------------------

  class Workspace {
    /** Whether the target directory exists. */
    var present: bool
    /** Its top-level entries: name to contents. */
    var files: map<string, string>
    /** Everything observable this run has done so far. */
    var log: seq<Effect>

    /** A directory that does not exist has no entries. Every workflow keeps
        this; it is what makes `main`'s `exists()` test redundant next to
        the non-empty test (Cli.OccupiedWhenValid). */
    ghost predicate Valid()
      reads this
    {
      present || files == map[]
    }

    constructor (present: bool, files: map<string, string>)
      requires present || files == map[]
      ensures Valid()
      ensures this.present == present && this.files == files && log == []
    {
      this.present := present;
      this.files := files;
      log := [];
    }

    /** Recording one observable effect that leaves the entries alone. */
    method Emit(e: Effect)
      requires Valid()
      modifies this
      ensures Valid() && present == old(present) && files == old(files)
      ensures log == old(log) + [e]
    {
      log := log + [e];
    }

    /** Printing one line on standard output. */
    method Say(line: string)
      requires Valid()
      modifies this
      ensures Valid() && present == old(present) && files == old(files)
      ensures log == old(log) + [Out(line)]
    {
      Emit(Out(line));
    }

    /** `_write(path / file, content)`: create or overwrite one entry. */
    method Write(file: string, content: string)
      requires Valid() && present
      modifies this
      ensures Valid() && present
      ensures files == old(files)[file := content]
      ensures log == old(log) + [Out(CreatedLine(file))]
    {
      files := files[file := content];
      log := log + [Out(CreatedLine(file))];
    }

    /** `_git_init(dir)`: best effort. Whatever status git ends with
        (`gitStatus`), the same line is printed and nothing else changes. */
    method InitGit(dir: string, gitStatus: int)
      requires Valid()
      modifies this
      ensures Valid() && present == old(present) && files == old(files)
      ensures log == old(log) + GitInitEffects(dir)
    {
      log := log + [GitSetup(dir)];
      log := log + [Out(GitDoneLine)];
    }

    /** `_launch_claude(dir)`. */
    method LaunchClaude(dir: string)
      requires Valid()
      modifies this
      ensures Valid() && present == old(present) && files == old(files)
      ensures log == old(log) + LaunchEffects(dir, false)
    {
      log := log + [Out(LaunchLine)];
      log := log + [LaunchAssistant(dir)];
    }

    /** `if not no_claude: _launch_claude(dir)`. */
    method MaybeLaunch(dir: string, noClaude: bool)
      requires Valid()
      modifies this
      ensures Valid() && present == old(present) && files == old(files)
      ensures log == old(log) + LaunchEffects(dir, noClaude)
    {
      if !noClaude {
        LaunchClaude(dir);
      } else {
        assert log + [] == log;
      }
    }

    /** The three `_write` calls of `create_project`. */
    method WriteScaffold(name: string, today: string)
      requires Valid() && present
      modifies this
      ensures Valid() && present
      ensures files == old(files) + Scaffolding(name, today)
      ensures log == old(log) + WriteAllEffects
    {
      WriteScaffoldOverlay(files, name, today);
      Write(ClaudeFile, ClaudeMd(name, today));
      Write(ReadmeFile, ReadmeMd(name));
      Write(GitignoreFile, Gitignore);
    }

    /** One guarded injection of `clone_project`: `file` is written and
        reported only when the clone did not produce it. */
    method InjectMissing(file: string, content: string)
      requires Valid() && present
      modifies this
      ensures Valid() && present
      ensures files == AddMissing(old(files), file, content)
      ensures log == old(log) + InjectEffects(old(files), file)
    {
      if file !in files {
        Write(file, content);
        Say(InjectedLine(file));
      }
    }

    /** The three guarded injections of `clone_project`. */
    method InjectScaffold(name: string, today: string)
      requires Valid() && present
      modifies this
      ensures Valid() && present
      ensures files == Scaffolding(name, today) + old(files)
      ensures log == old(log) + InjectAllEffects(old(files))
    {
      AddMissingScaffold(files, name, today);
      InjectMissing(ClaudeFile, ClaudeMd(name, today));
      InjectMissing(ReadmeFile, ReadmeMd(name));
      InjectMissing(GitignoreFile, Gitignore);
    }

    /** The dry-run branch of `create_project`. */
    method AnnounceCreate(path: string, noClaude: bool)
      requires Valid()
      modifies this
      ensures Valid() && present == old(present) && files == old(files)
      ensures log == old(log) + CreateDryRunEffects(path, noClaude)
    {
      Say(DryRun + "create directory: " + path);
      Say(DryRun + "write: " + Child(path, ClaudeFile));
      Say(DryRun + "write: " + Child(path, ReadmeFile));
      Say(DryRun + "write: " + Child(path, GitignoreFile));
      Say(DryRun + "run: git init");
      Say(DryRun + "run: git add . && git commit");
      if !noClaude {
        Say(DryRunLaunchLine);
      }
    }

    /** The dry-run branch of `clone_project`. */
    method AnnounceClone(repo: string, path: string, noClaude: bool)
      requires Valid()
      modifies this
      ensures Valid() && present == old(present) && files == old(files)
      ensures log == old(log) + CloneDryRunEffects(repo, path, noClaude)
    {
      Say(DryRun + "run: git clone " + repo + " " + path);
      Say(DryRun + "check for missing " + ClaudeFile + " / " + ReadmeFile + " / " + GitignoreFile);
      Say(DryRun + "inject any missing files");
      if !noClaude {
        Say(DryRunLaunchLine);
      }
    }

    /** `create_project(path, dry_run, no_claude)` on the directory at
        `path`, on day `today`, `git` ending with `gitStatus`. */
    method CreateProject(path: string, dryRun: bool, noClaude: bool, today: string, gitStatus: int)
      requires Valid()
      modifies this
      ensures Valid()
      ensures present == (old(present) || !dryRun)
      ensures files == CreatedFiles(old(files), path, dryRun, today)
      ensures log == old(log) + CreateEffects(path, dryRun, noClaude)
    {
      var name := LastSegment(path);
      if dryRun {
        AnnounceCreate(path, noClaude);
        return;
      }
      present := true;
      WriteScaffold(name, today);
      InitGit(path, gitStatus);
      MaybeLaunch(path, noClaude);
      LogGrows(old(log), WriteAllEffects, GitInitEffects(path));
      LogGrows(old(log), WriteAllEffects + GitInitEffects(path), LaunchEffects(path, noClaude));
    }

    /** `clone_project(repo, path, dry_run, no_claude)`, `git clone` ending
        with `cloneStatus` and, when it succeeds, leaving `cloned` in the
        directory. */
    method CloneProject(repo: string, path: string, dryRun: bool, noClaude: bool, today: string,
                        cloneStatus: int, cloned: map<string, string>)
      requires Valid()
      modifies this
      ensures Valid()
      ensures present == (old(present) || (!dryRun && cloneStatus == 0))
      ensures files == ClonedFiles(old(files), path, dryRun, today, cloneStatus, cloned)
      ensures log == old(log) + CloneEffects(repo, path, dryRun, noClaude, cloneStatus, cloned)
    {
      if dryRun {
        AnnounceClone(repo, path, noClaude);
        return;
      }
      log := log + [GitClone(repo, path)];
      if cloneStatus != 0 {
        FailClone(cloneStatus);
        LogGrows(old(log), [GitClone(repo, path)], [Err(CloneFailureLine(cloneStatus)), Exit(1)]);
        return;
      }
      present, files := true, cloned;
      CompleteClone(path, noClaude, today);
      LogGrows(old(log), [GitClone(repo, path)], InjectAllEffects(cloned) + LaunchEffects(path, noClaude));
    }

    /** A failed `git clone`: the message to standard error, then `sys.exit(1)`. */
    method FailClone(status: int)
      requires Valid()
      modifies this
      ensures Valid() && present == old(present) && files == old(files)
      ensures log == old(log) + [Err(CloneFailureLine(status)), Exit(1)]
    {
      log := log + [Err(CloneFailureLine(status))];
      log := log + [Exit(1)];
    }

    /** What `clone_project` does once the clone succeeded: inject the
        missing scaffold files for the directory's name, then launch. */
    method CompleteClone(path: string, noClaude: bool, today: string)
      requires Valid() && present
      modifies this
      ensures Valid() && present
      ensures files == Scaffolding(LastSegment(path), today) + old(files)
      ensures log == old(log) + (InjectAllEffects(old(files)) + LaunchEffects(path, noClaude))
    {
      InjectScaffold(LastSegment(path), today);
      MaybeLaunch(path, noClaude);
      LogGrows(old(log), InjectAllEffects(old(files)), LaunchEffects(path, noClaude));
    }

  }

  // ---------------------------------------------------------------------------
  // Properties of the workflows
  // ---------------------------------------------------------------------------

  /** The launch announcement is told apart from the other dry-run lines by
      the word after "Would ". */
  lemma NotLaunchAnnouncement(line: string)
    requires |line| > |DryRun| && line[|DryRun|] != 'l'
    ensures line != DryRunLaunchLine
  {
    assert DryRunLaunchLine[|DryRun|] == 'l';
  }

  /** A dry run of `create_project` changes no entry. */
  lemma CreateDryRunKeepsFiles(files: map<string, string>, path: string, today: string)
    ensures CreatedFiles(files, path, true, today) == files
  {
  }

  /** A dry run of `create_project` only prints to standard output: it runs
      no tool and does not exit. */
  lemma CreateDryRunOnlyPrints(path: string, noClaude: bool)
    ensures forall i :: 0 <= i < |CreateEffects(path, true, noClaude)| ==>
      CreateEffects(path, true, noClaude)[i].Out?
  {
  }

  /** A dry run of `create_project` announces the launch exactly when one
      would happen. */
  lemma CreateDryRunAnnouncesLaunch(path: string, noClaude: bool)
    ensures Out(DryRunLaunchLine) in CreateEffects(path, true, noClaude) <==> !noClaude
  {
    var effects := CreateEffects(path, true, noClaude);
    if noClaude {
      assert |effects| == 6;
      forall i | 0 <= i < 6
        ensures effects[i] != Out(DryRunLaunchLine)
      {
        NotLaunchAnnouncement(effects[i].line);
      }
    } else {
      assert effects[6] == Out(DryRunLaunchLine);
    }
  }

  /** A dry run of `clone_project` changes no entry whatever git would do. */
  lemma CloneDryRunKeepsFiles(files: map<string, string>, path: string, today: string,
                              status: int, cloned: map<string, string>)
    ensures ClonedFiles(files, path, true, today, status, cloned) == files
  {
  }

  /** A dry run of `clone_project` only prints to standard output: it runs
      no tool, in particular not `git clone`, and does not exit. */
  lemma CloneDryRunOnlyPrints(repo: string, path: string, noClaude: bool, status: int, cloned: map<string, string>)
    ensures forall i :: 0 <= i < |CloneEffects(repo, path, true, noClaude, status, cloned)| ==>
      CloneEffects(repo, path, true, noClaude, status, cloned)[i].Out?
  {
  }

  /** A dry run of `clone_project` announces the launch exactly when one
      would happen. */
  lemma CloneDryRunAnnouncesLaunch(repo: string, path: string, noClaude: bool, status: int,
                                   cloned: map<string, string>)
    ensures Out(DryRunLaunchLine) in CloneEffects(repo, path, true, noClaude, status, cloned) <==> !noClaude
  {
    var effects := CloneEffects(repo, path, true, noClaude, status, cloned);
    if noClaude {
      assert |effects| == 3;
      NotLaunchAnnouncement(effects[0].line);
      NotLaunchAnnouncement(effects[1].line);
      NotLaunchAnnouncement(effects[2].line);
    } else {
      assert effects[3] == Out(DryRunLaunchLine);
    }
  }

  /** After a real `create_project`, the three scaffold files hold the
      templates for the directory's own name — overwriting whatever was
      there — and every other entry is as it was. */
  lemma CreateWritesScaffold(files: map<string, string>, path: string, today: string)
    ensures var r := CreatedFiles(files, path, false, today);
      r.Keys == files.Keys + ScaffoldNames &&
      r[ClaudeFile] == ClaudeMd(LastSegment(path), today) &&
      r[ReadmeFile] == ReadmeMd(LastSegment(path)) &&
      r[GitignoreFile] == Gitignore &&
      forall f :: f in files && f !in ScaffoldNames ==> r[f] == files[f]
  {
    var s := Scaffolding(LastSegment(path), today);
    var r := files + s;
    assert s.Keys == ScaffoldNames;
    assert r == CreatedFiles(files, path, false, today);
    assert r.Keys == files.Keys + s.Keys;
    forall f | f in files && f !in ScaffoldNames
      ensures r[f] == files[f]
    {
      assert f !in s;
    }
  }

  /** The git step never decides the outcome: `create_project` always reports
      the repository as initialised and never sets a non-zero exit status. */
  lemma CreateGitBestEffort(path: string, dryRun: bool, noClaude: bool)
    ensures ExitCode(CreateEffects(path, dryRun, noClaude)) == 0
    ensures !dryRun ==> (GitSetup(path) in CreateEffects(path, dryRun, noClaude)
                         && Out(GitDoneLine) in CreateEffects(path, dryRun, noClaude))
  {
    var effects := CreateEffects(path, dryRun, noClaude);
    ExitCodeAfter(effects, []);
    assert effects + [] == effects;
    if !dryRun {
      assert effects[3] == GitSetup(path) && effects[4] == Out(GitDoneLine);
    }
  }

  /** A failed clone exits with status 1 whatever git's own status was,
      reports git's status in the message, and neither injects nor launches;
      the directory is left alone. */
  lemma CloneFailureStops(repo: string, path: string, noClaude: bool, status: int,
                          files: map<string, string>, cloned: map<string, string>, today: string)
    requires status != 0
    ensures var effects := CloneEffects(repo, path, false, noClaude, status, cloned);
      ExitCode(effects) == 1 &&
      !Launches(effects) &&
      (forall e :: e in effects ==> !e.Out?) &&
      Err(CloneFailureLine(status)) in effects
    ensures ParseInt(CloneFailureLine(status)[|CloneFailurePrefix|..]) == Some(status)
    ensures ClonedFiles(files, path, false, today, status, cloned) == files
  {
    var effects := CloneEffects(repo, path, false, noClaude, status, cloned);
    ExitCodeAt(effects, 2);
    assert effects[1] == Err(CloneFailureLine(status));
    IntToDecimalRoundTrip(status);
    assert CloneFailureLine(status)[|CloneFailurePrefix|..] == IntToDecimal(status);
  }

  /** `clone_project` exits with 1 exactly when a real clone fails, and
      otherwise runs to its end with status 0, dry run included. */
  lemma CloneExitStatus(repo: string, path: string, dryRun: bool, noClaude: bool,
                        status: int, cloned: map<string, string>)
    ensures ExitCode(CloneEffects(repo, path, dryRun, noClaude, status, cloned))
      == (if !dryRun && status != 0 then 1 else 0)
  {
    var effects := CloneEffects(repo, path, dryRun, noClaude, status, cloned);
    if !dryRun && status != 0 {
      ExitCodeAt(effects, 2);
    } else {
      assert forall i :: 0 <= i < |effects| ==> !effects[i].Exit?;
    }
  }

  /** Injection is additive only: every entry the clone produced keeps its
      exact contents; every missing scaffold file gets its template for the
      directory's name; no other entry appears. */
  lemma InjectionAdditive(files: map<string, string>, path: string, today: string, cloned: map<string, string>)
    ensures var r := ClonedFiles(files, path, false, today, 0, cloned);
      r.Keys == cloned.Keys + ScaffoldNames &&
      (forall f :: f in cloned ==> r[f] == cloned[f]) &&
      (forall f :: f in ScaffoldNames && f !in cloned ==> r[f] == Scaffolding(LastSegment(path), today)[f])
  {
  }

  /** "Injected X (was missing)" is printed for exactly the scaffold files the
      clone lacked. */
  lemma InjectionReported(cloned: map<string, string>, file: string)
    ensures Out(InjectedLine(file)) in InjectAllEffects(cloned) <==> file in ScaffoldNames && file !in cloned
  {
    var effects := InjectAllEffects(cloned);
    if Out(InjectedLine(file)) in effects {
      var k :| 0 <= k < |effects| && effects[k] == Out(InjectedLine(file));
      var e := effects[k];
      assert e in InjectEffects(cloned, ClaudeFile) || e in InjectEffects(cloned, ReadmeFile)
          || e in InjectEffects(cloned, GitignoreFile);
      forall g | e in InjectEffects(cloned, g)
        ensures file == g && g !in cloned
      {
        CreatedIsNotInjected(g, file);
        InjectedLineInjective(file, g);
      }
    }
  }

  /** "Injected X (was missing)" appears in the log of a successful
      `clone_project` for exactly the scaffold files the clone lacked: the
      launch lines that may follow are not injection reports. */
  lemma CloneInjectionReported(repo: string, path: string, noClaude: bool,
                               cloned: map<string, string>, file: string)
    ensures Out(InjectedLine(file)) in CloneEffects(repo, path, false, noClaude, 0, cloned)
      <==> file in ScaffoldNames && file !in cloned
  {
    InjectionReported(cloned, file);
    assert InjectedLine(file)[2] == 'I' && LaunchLine[2] == 'L';
    var effects := CloneEffects(repo, path, false, noClaude, 0, cloned);
    assert effects == [GitClone(repo, path)] + InjectAllEffects(cloned) + LaunchEffects(path, noClaude);
  }

  /** Neither workflow touches an entry outside the three scaffold names:
      `create_project` keeps what was there, `clone_project` keeps what the
      clone produced. */
  lemma OtherEntriesUntouched(files: map<string, string>, path: string, dryRun: bool, today: string,
                              status: int, cloned: map<string, string>, f: string)
    requires f !in ScaffoldNames
    ensures f in CreatedFiles(files, path, dryRun, today) <==> f in files
    ensures f in files ==> CreatedFiles(files, path, dryRun, today)[f] == files[f]
    ensures !dryRun && status == 0 ==>
      (f in ClonedFiles(files, path, dryRun, today, status, cloned) <==> f in cloned) &&
      (f in cloned ==> ClonedFiles(files, path, dryRun, today, status, cloned)[f] == cloned[f])
  {
  }

  /** `create_project` launches the assistant exactly when it is not
      skipped and the run is not a dry run, and only in the new directory. */
  lemma CreateLaunchConditions(path: string, dryRun: bool, noClaude: bool)
    ensures Launches(CreateEffects(path, dryRun, noClaude)) <==> !dryRun && !noClaude
    ensures forall e :: e in CreateEffects(path, dryRun, noClaude) ==> (e.LaunchAssistant? ==> e.dir == path)
  {
    var effects := CreateEffects(path, dryRun, noClaude);
    if dryRun {
      CreateDryRunOnlyPrints(path, noClaude);
    } else if !noClaude {
      assert effects[6] == LaunchAssistant(path);
    }
  }

  /** `clone_project` launches the assistant exactly when it is not skipped,
      the run is not a dry run and the clone succeeded, and only in the
      cloned directory. */
  lemma CloneLaunchConditions(repo: string, path: string, dryRun: bool, noClaude: bool,
                              status: int, cloned: map<string, string>)
    ensures Launches(CloneEffects(repo, path, dryRun, noClaude, status, cloned))
        <==> !dryRun && !noClaude && status == 0
    ensures forall e :: e in CloneEffects(repo, path, dryRun, noClaude, status, cloned) ==>
      (e.LaunchAssistant? ==> e.dir == path)
  {
    var effects := CloneEffects(repo, path, dryRun, noClaude, status, cloned);
    if dryRun {
      CloneDryRunOnlyPrints(repo, path, noClaude, status, cloned);
    } else if status == 0 {
      var injected := InjectAllEffects(cloned);
      assert forall i :: 0 <= i < |injected| ==> injected[i].Out?;
      if !noClaude {
        assert effects[|effects| - 1] == LaunchAssistant(path);
      }
    }
  }
}
