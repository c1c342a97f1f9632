/** `main`: dispatch of an already parsed command line to the two workflows,
    with the `new` guard against a non-empty directory and the derivation of
    the clone target from the repository reference. */
module Cli {
  import opened Text
  import opened Scaffold

  /** The parsed command line. `Clone`'s optional `PATH` argument is `dest`,
      `None` when omitted. */
  datatype Command =
    | NoCommand
    | New(path: string, dryRun: bool, noClaude: bool)
    | Clone(repo: string, dest: Option<string>, dryRun: bool, noClaude: bool)

  // ---------------------------------------------------------------------------
  // The clone target
  // ---------------------------------------------------------------------------

  /** The directory name derived from a repository reference: its last
      segment with one trailing `.git` removed. */
  function DeriveRepoName(repo: string): (name: string)
    ensures '/' !in name
    ensures LastSegment(repo) == name || LastSegment(repo) == name + ".git"
  {
    var seg := LastSegment(repo);
    if EndsWith(seg, ".git") then
      assert seg == seg[..|seg| - 4] + ".git";
      seg[..|seg| - 4]
    else seg
  }

  /** The directory `clone` works in: the given path, unchanged, or else the
      name derived from the repository. */
  function CloneTarget(repo: string, dest: Option<string>): (target: string)
    ensures dest.Some? ==> target == dest.value
    ensures dest.None? ==> ('/' !in target && (LastSegment(repo) == target || LastSegment(repo) == target + ".git"))
  {
    if dest.Some? then dest.value else DeriveRepoName(repo)
  }

  /** `n` copies of `/`. */
  function Slashes(n: nat): (s: string)
    ensures |s| == n && forall i :: 0 <= i < n ==> s[i] == '/'
  {
    if n == 0 then [] else Slashes(n - 1) + ['/']
  }

  /** `prefix` is empty or ends in `/`: what may come before the last
      segment of a reference. */
  predicate SegmentBoundary(prefix: string)
  {
    prefix == [] || prefix[|prefix| - 1] == '/'
  }

  /** The last segment of `prefix + base` followed by any number of `/` is
      `base`, provided `base` is non-empty and has no `/`. */
  lemma LastSegmentOf(prefix: string, base: string, n: nat)
    requires SegmentBoundary(prefix)
    requires base != [] && '/' !in base
    ensures LastSegment(prefix + base + Slashes(n)) == base
  {
    var repo := prefix + base + Slashes(n);
    var trimmed := prefix + base;
    assert repo[..|trimmed|] == trimmed;
    assert base[|base| - 1] in base;
    RStripUnique(repo, '/', trimmed);
    assert trimmed[|trimmed| - |base|..] == base;
    AfterLastUnique(trimmed, '/', base);
  }

  /** A reference ending in `<stem>.git`, possibly with trailing `/`, gives
      back `<stem>`: exactly one `.git` is removed. */
  lemma RepoNameDropsOneGit(prefix: string, stem: string, n: nat)
    requires SegmentBoundary(prefix)
    requires '/' !in stem
    ensures DeriveRepoName(prefix + stem + ".git" + Slashes(n)) == stem
  {
    assert prefix + stem + ".git" == prefix + (stem + ".git");
    LastSegmentOf(prefix, stem + ".git", n);
    var seg := stem + ".git";
    assert seg[|seg| - 4..] == ".git";
    assert seg[..|seg| - 4] == stem;
  }

  /** A reference whose last segment does not end in `.git` gives back that
      segment unchanged. */
  lemma RepoNameKeepsPlainSegment(prefix: string, base: string, n: nat)
    requires SegmentBoundary(prefix)
    requires base != [] && '/' !in base && !EndsWith(base, ".git")
    ensures DeriveRepoName(prefix + base + Slashes(n)) == base
  {
    LastSegmentOf(prefix, base, n);
  }

  /** `https://example.com/group/my-repo.git` is cloned into `my-repo`. */
  lemma RepoNameOfUrl()
    ensures DeriveRepoName("https://example.com/group/my-repo.git") == "my-repo"
  {
    var prefix := "https://example.com/group/";
    assert SegmentBoundary(prefix) by { assert prefix[|prefix| - 1] == '/'; }
    RepoNameDropsOneGit(prefix, "my-repo", 0);
    var repo := prefix + "my-repo" + ".git";
    assert repo + Slashes(0) == repo;
    assert repo == "https://example.com/group/my-repo.git";
  }

  /** `a/x.git.git` is cloned into `x.git`: only one suffix goes. */
  lemma RepoNameOfDoubleSuffix()
    ensures DeriveRepoName("a/x.git.git") == "x.git"
  {
    RepoNameDropsOneGit("a/", "x.git", 0);
    assert "a/" + "x.git" + ".git" + Slashes(0) == "a/x.git.git";
  }

  /** The derived name is a single path segment, so the project created
      under it is named after it. */
  lemma DerivedNameIsOwnPathName(repo: string)
    ensures LastSegment(DeriveRepoName(repo)) == DeriveRepoName(repo)
  {
    var name := DeriveRepoName(repo);
    RStripNoSeparator(name, '/');
    AfterLastNoSeparator(name, '/');
  }

  // ---------------------------------------------------------------------------
  // Dispatch
  // ---------------------------------------------------------------------------

  /** `new` refuses a path that exists and has at least one entry. */
  predicate Occupied(present: bool, files: map<string, string>): (r: bool)
    ensures r <==> present && exists f :: f in files
  {
    present && |files| > 0
  }

  /** The refusal `new` prints; the path can be read back from it. */
  function RefusalLine(path: string): (line: string)
    ensures StartsWith(line, "Error: ") && |line| >= 7 + |path| && line[7..7 + |path|] == path
    ensures EndsWith(line, " already exists and is not empty.")
  {
    "Error: " + path + " already exists and is not empty."
  }

  /** In a consistent workspace a directory with entries exists, so the
      guard of `new` comes down to its non-empty test. */
  lemma OccupiedWhenValid(w: Workspace)
    requires w.Valid()
    ensures Occupied(w.present, w.files) <==> |w.files| > 0
  {
  }

  /** The effects of one run of `main` on the target directory, which
      exists (`present`) with entries `files`. */
  function RunEffects(cmd: Command, present: bool, files: map<string, string>,
                      cloneStatus: int, cloned: map<string, string>): (effects: seq<Effect>)
    ensures |effects| >= 2
    ensures effects[0] == HelpShown <==> cmd.NoCommand?
  {
    match cmd
    case NoCommand => [HelpShown, Exit(0)]
    case New(path, dryRun, noClaude) =>
      if Occupied(present, files) then [Err(RefusalLine(path)), Exit(1)]
      else [Out("Creating project: " + path)] + CreateEffects(path, dryRun, noClaude)
    case Clone(repo, dest, dryRun, noClaude) =>
      var target := CloneTarget(repo, dest);
      [Out("Cloning " + repo + " -> " + target)] + CloneEffects(repo, target, dryRun, noClaude, cloneStatus, cloned)
  }

  /** The target directory's entries after one run of `main`. */
  function RunFiles(cmd: Command, present: bool, files: map<string, string>, today: string,
                    cloneStatus: int, cloned: map<string, string>): map<string, string>
  {
    match cmd
    case NoCommand => files
    case New(path, dryRun, _) =>
      if Occupied(present, files) then files else CreatedFiles(files, path, dryRun, today)
    case Clone(repo, dest, dryRun, _) =>
      ClonedFiles(files, CloneTarget(repo, dest), dryRun, today, cloneStatus, cloned)
  }

  /** A run of `main` leaves only existing, cloned or scaffold names in the
      directory, and only `clone` (whose result replaces the directory's
      contents) can drop an existing entry. */
  lemma RunKeepsToKnownNames(cmd: Command, present: bool, files: map<string, string>, today: string,
                             cloneStatus: int, cloned: map<string, string>)
    ensures RunFiles(cmd, present, files, today, cloneStatus, cloned).Keys
      <= files.Keys + cloned.Keys + ScaffoldNames
    ensures !cmd.Clone? ==> files.Keys <= RunFiles(cmd, present, files, today, cloneStatus, cloned).Keys
  {
  }

  /** Whether the target directory exists after one run of `main`. */
  function RunPresent(cmd: Command, present: bool, files: map<string, string>, cloneStatus: int): (r: bool)
    ensures present ==> r
    ensures r && !present ==> !cmd.NoCommand? && !cmd.dryRun
  {
    match cmd
    case NoCommand => present
    case New(_, dryRun, _) => present || (!Occupied(present, files) && !dryRun)
    case Clone(_, _, dryRun, _) => present || (!dryRun && cloneStatus == 0)
  }

  /** `main(argv)` once `argv` is parsed into `cmd`, acting on the target
      directory `w`. */
  method Run(w: Workspace, cmd: Command, today: string, gitStatus: int,
             cloneStatus: int, cloned: map<string, string>)
    requires w.Valid()
    modifies w
    ensures w.Valid()
    ensures w.present == RunPresent(cmd, old(w.present), old(w.files), cloneStatus)
    ensures w.files == RunFiles(cmd, old(w.present), old(w.files), today, cloneStatus, cloned)
    ensures w.log == old(w.log) + RunEffects(cmd, old(w.present), old(w.files), cloneStatus, cloned)
  {
    match cmd {
      case NoCommand =>
        w.Emit(HelpShown);
        w.Emit(Exit(0));
        LogGrows(old(w.log), [HelpShown], [Exit(0)]);
      case New(path, dryRun, noClaude) =>
        RunNew(w, path, dryRun, noClaude, today, gitStatus);
      case Clone(repo, dest, dryRun, noClaude) =>
        RunClone(w, repo, dest, dryRun, noClaude, today, cloneStatus, cloned);
    }
  }

  /** The `new` branch of `main`. */
  method RunNew(w: Workspace, path: string, dryRun: bool, noClaude: bool, today: string, gitStatus: int)
    requires w.Valid()
    modifies w
    ensures w.Valid()
    ensures w.present == RunPresent(New(path, dryRun, noClaude), old(w.present), old(w.files), 0)
    ensures w.files == RunFiles(New(path, dryRun, noClaude), old(w.present), old(w.files), today, 0, map[])
    ensures w.log == old(w.log) + RunEffects(New(path, dryRun, noClaude), old(w.present), old(w.files), 0, map[])
  {
    if Occupied(w.present, w.files) {
      w.Emit(Err(RefusalLine(path)));
      w.Emit(Exit(1));
      return;
    }
    w.Say("Creating project: " + path);
    w.CreateProject(path, dryRun, noClaude, today, gitStatus);
    LogGrows(old(w.log), [Out("Creating project: " + path)], CreateEffects(path, dryRun, noClaude));
  }

  /** What `main` does on `clone`, spelled out for the branch: presence,
      entries and effects, one lemma each. */
  lemma ClonePresentBranch(repo: string, dest: Option<string>, dryRun: bool, noClaude: bool,
                           present: bool, files: map<string, string>, cloneStatus: int)
    ensures RunPresent(Clone(repo, dest, dryRun, noClaude), present, files, cloneStatus)
      == (present || (!dryRun && cloneStatus == 0))
  {
  }

  lemma CloneFilesBranch(repo: string, dest: Option<string>, dryRun: bool, noClaude: bool,
                         present: bool, files: map<string, string>, today: string,
                         cloneStatus: int, cloned: map<string, string>)
    ensures RunFiles(Clone(repo, dest, dryRun, noClaude), present, files, today, cloneStatus, cloned)
      == ClonedFiles(files, CloneTarget(repo, dest), dryRun, today, cloneStatus, cloned)
  {
  }

  lemma CloneEffectsBranch(repo: string, dest: Option<string>, dryRun: bool, noClaude: bool,
                           present: bool, files: map<string, string>,
                           cloneStatus: int, cloned: map<string, string>)
    ensures RunEffects(Clone(repo, dest, dryRun, noClaude), present, files, cloneStatus, cloned)
      == [Out("Cloning " + repo + " -> " + CloneTarget(repo, dest))]
         + CloneEffects(repo, CloneTarget(repo, dest), dryRun, noClaude, cloneStatus, cloned)
  {
  }

  /** The `clone` branch of `main`. */
  method RunClone(w: Workspace, repo: string, dest: Option<string>, dryRun: bool, noClaude: bool,
                  today: string, cloneStatus: int, cloned: map<string, string>)
    requires w.Valid()
    modifies w
    ensures w.Valid()
    ensures w.present == RunPresent(Clone(repo, dest, dryRun, noClaude), old(w.present), old(w.files), cloneStatus)
    ensures w.files == RunFiles(Clone(repo, dest, dryRun, noClaude), old(w.present), old(w.files), today, cloneStatus, cloned)
    ensures w.log == old(w.log) + RunEffects(Clone(repo, dest, dryRun, noClaude), old(w.present), old(w.files), cloneStatus, cloned)
  {
    var target := CloneTarget(repo, dest);
    ClonePresentBranch(repo, dest, dryRun, noClaude, w.present, w.files, cloneStatus);
    CloneFilesBranch(repo, dest, dryRun, noClaude, w.present, w.files, today, cloneStatus, cloned);
    CloneEffectsBranch(repo, dest, dryRun, noClaude, w.present, w.files, cloneStatus, cloned);
    w.Say("Cloning " + repo + " -> " + target);
    w.CloneProject(repo, target, dryRun, noClaude, today, cloneStatus, cloned);
    LogGrows(old(w.log), [Out("Cloning " + repo + " -> " + target)],
             CloneEffects(repo, target, dryRun, noClaude, cloneStatus, cloned));
  }

  // ---------------------------------------------------------------------------
  // Properties of the dispatch
  // ---------------------------------------------------------------------------

  /** With no subcommand, the usage text is shown and the status is 0;
      nothing runs and the directory is left alone. */
  lemma HelpWhenNoCommand(present: bool, files: map<string, string>, today: string,
                          cloneStatus: int, cloned: map<string, string>)
    ensures var effects := RunEffects(NoCommand, present, files, cloneStatus, cloned);
      effects[0] == HelpShown && ExitCode(effects) == 0 &&
      forall i :: 0 <= i < |effects| ==> !RunsTool(effects[i])
    ensures RunFiles(NoCommand, present, files, today, cloneStatus, cloned) == files
    ensures RunPresent(NoCommand, present, files, cloneStatus) == present
  {
    ExitCodeAt(RunEffects(NoCommand, present, files, cloneStatus, cloned), 1);
  }

  /** `new` on an existing, non-empty directory reports the error on
      standard error and exits with 1 before `create_project` is called:
      nothing is written, no tool runs — dry run or not. */
  lemma NewRefusesOccupied(path: string, dryRun: bool, noClaude: bool, present: bool,
                           files: map<string, string>, today: string, cloneStatus: int,
                           cloned: map<string, string>)
    requires Occupied(present, files)
    ensures var effects := RunEffects(New(path, dryRun, noClaude), present, files, cloneStatus, cloned);
      ExitCode(effects) == 1 && Err(RefusalLine(path)) in effects &&
      forall i :: 0 <= i < |effects| ==> !RunsTool(effects[i]) && !effects[i].Out?
    ensures RunFiles(New(path, dryRun, noClaude), present, files, today, cloneStatus, cloned) == files
    ensures RunPresent(New(path, dryRun, noClaude), present, files, cloneStatus)
  {
    var effects := RunEffects(New(path, dryRun, noClaude), present, files, cloneStatus, cloned);
    ExitCodeAt(effects, 1);
    assert effects[0] == Err(RefusalLine(path));
  }

  /** `new` on a missing or empty directory announces itself, then does
      exactly what `create_project` does with the flags as given; since
      `create_project` never exits, the status is 0. */
  lemma NewDelegates(path: string, dryRun: bool, noClaude: bool, present: bool,
                     files: map<string, string>, today: string, cloneStatus: int,
                     cloned: map<string, string>)
    requires !Occupied(present, files)
    ensures var effects := RunEffects(New(path, dryRun, noClaude), present, files, cloneStatus, cloned);
      effects[0] == Out("Creating project: " + path) &&
      effects[1..] == CreateEffects(path, dryRun, noClaude) &&
      ExitCode(effects) == 0
    ensures RunFiles(New(path, dryRun, noClaude), present, files, today, cloneStatus, cloned)
      == CreatedFiles(files, path, dryRun, today)
  {
    var effects := RunEffects(New(path, dryRun, noClaude), present, files, cloneStatus, cloned);
    CreateGitBestEffort(path, dryRun, noClaude);
    ExitCodeAfter([effects[0]], CreateEffects(path, dryRun, noClaude));
  }

  /** `clone` with an explicit path works in that path, unchanged. */
  lemma ExplicitPathUnchanged(repo: string, path: string)
    ensures CloneTarget(repo, Some(path)) == path
  {
  }

  /** `clone` without a path works in the derived directory, and the
      scaffold it injects is made for the derived name. */
  lemma DerivedTargetScaffold(repo: string, dryRun: bool, noClaude: bool, present: bool,
                              files: map<string, string>, today: string, cloned: map<string, string>)
    requires !dryRun
    ensures RunFiles(Clone(repo, None, dryRun, noClaude), present, files, today, 0, cloned)
      == Scaffolding(DeriveRepoName(repo), today) + cloned
  {
    var target := DeriveRepoName(repo);
    DerivedNameIsOwnPathName(repo);
    assert ClonedFiles(files, target, false, today, 0, cloned) == Scaffolding(target, today) + cloned;
    assert RunFiles(Clone(repo, None, dryRun, noClaude), present, files, today, 0, cloned)
      == ClonedFiles(files, target, false, today, 0, cloned);
  }

  /** `main` on `clone` exits with 1 exactly when a real clone fails, and
      with 0 otherwise, whether the target was given or derived. */
  lemma CloneRunExitStatus(repo: string, dest: Option<string>, dryRun: bool, noClaude: bool,
                           present: bool, files: map<string, string>, cloneStatus: int,
                           cloned: map<string, string>)
    ensures ExitCode(RunEffects(Clone(repo, dest, dryRun, noClaude), present, files, cloneStatus, cloned))
      == (if !dryRun && cloneStatus != 0 then 1 else 0)
  {
    var target := CloneTarget(repo, dest);
    CloneEffectsBranch(repo, dest, dryRun, noClaude, present, files, cloneStatus, cloned);
    CloneExitStatus(repo, target, dryRun, noClaude, cloneStatus, cloned);
    ExitCodeAfter([Out("Cloning " + repo + " -> " + target)],
                  CloneEffects(repo, target, dryRun, noClaude, cloneStatus, cloned));
  }

  /** A dry run of either command changes nothing in the directory and runs
      no tool (a refused `new` still exits with 1, as without the flag). */
  lemma DryRunChangesNothing(cmd: Command, present: bool, files: map<string, string>, today: string,
                             cloneStatus: int, cloned: map<string, string>)
    requires !cmd.NoCommand? && cmd.dryRun
    ensures RunFiles(cmd, present, files, today, cloneStatus, cloned) == files
    ensures RunPresent(cmd, present, files, cloneStatus) == present
    ensures var effects := RunEffects(cmd, present, files, cloneStatus, cloned);
      forall i :: 0 <= i < |effects| ==> !RunsTool(effects[i])
  {
    var effects := RunEffects(cmd, present, files, cloneStatus, cloned);
    if cmd.New? {
      if !Occupied(present, files) {
        CreateDryRunOnlyPrints(cmd.path, cmd.noClaude);
        assert effects[1..] == CreateEffects(cmd.path, true, cmd.noClaude);
      }
    } else {
      var target := CloneTarget(cmd.repo, cmd.dest);
      CloneDryRunOnlyPrints(cmd.repo, target, cmd.noClaude, cloneStatus, cloned);
      assert effects[1..] == CloneEffects(cmd.repo, target, true, cmd.noClaude, cloneStatus, cloned);
    }
  }
}
