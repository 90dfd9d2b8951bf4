/**
 * The per-repository mirror work of the first backup service, which shells out
 * to the git command line: `git clone --mirror` or `git remote update --prune`,
 * a `target` remote added when `git remote get-url target` fails, and
 * `git push target --mirror`. Every git invocation goes through
 * `RunGitCommand`, so a failed start or a non-zero exit code throws.
 */
module GitCliMirror {
  import opened Wrappers
  import opened GithubCommands
  import opened Effects

  /** What the first service observes of the machine: directories and git. */
  datatype CliEnv = CliEnv(dirExists: string -> bool, git: GitProcess)

  const UpdateCommand := "remote update --prune"
  const GetTargetUrlCommand := "remote get-url target"
  const PushCommand := "push target --mirror"

  /** `clone --mirror <sourceUrl> "<repoDir>"`, run in the process's own directory. */
  function CloneCommand(sourceUrl: string, repoDir: string): string
  {
    "clone --mirror " + sourceUrl + " \"" + repoDir + "\""
  }

  function AddTargetCommand(targetUrl: string): string
  {
    "remote add target " + targetUrl
  }

  /** One git invocation: the call, and the exception `RunGitCommand` throws for it. */
  function GitStep(env: CliEnv, command: string, workingDir: string): SyncResult
  {
    Step([Io(Git(command, workingDir))], RunGitCommand(env.git, command, workingDir))
  }

  predicate GitPasses(env: CliEnv, command: string, workingDir: string)
  {
    RunGitCommand(env.git, command, workingDir).Pass?
  }

  /** The status the first service announces for the mirror step: any existing directory is updated. */
  function MirrorStatus(dirExists: bool): string
  {
    if dirExists then "Updating" else "Cloning"
  }

  /** The command the mirror step runs, and where. */
  function MirrorCommand(env: CliEnv, model: BackupRequest, repo: string, workDir: string): (string, string)
  {
    var dir := RepoDir(workDir, repo);
    if env.dirExists(dir) then (UpdateCommand, dir)
    else (CloneCommand(SourceUrl(model, repo), dir), "")
  }

  function MirrorStep(env: CliEnv, model: BackupRequest, ctx: RepoContext, workDir: string): (r: SyncResult)
    ensures MirrorWorkOnly(r.effects, false)
    ensures r.failure.None? <==> GitPasses(env, MirrorCommand(env, model, ctx.repo, workDir).0,
                                           MirrorCommand(env, model, ctx.repo, workDir).1)
  {
    var dir := RepoDir(workDir, ctx.repo);
    var (command, where) := MirrorCommand(env, model, ctx.repo, workDir);
    if env.dirExists(dir) then
      Then(Step([Announce(ctx, "Updating", "Updating local mirror...")], Pass), GitStep(env, command, where))
    else
      Then(Step([Announce(ctx, "Cloning", "Cloning from source...")], Pass), GitStep(env, command, where))
  }

  /**
   * The `target` remote set-up: `get-url` is tried first and its failure is
   * swallowed; only then is the remote added, and a failing add throws.
   */
  function RemoteSetupStep(env: CliEnv, model: BackupRequest, repo: string, workDir: string): (r: SyncResult)
    ensures MirrorWorkOnly(r.effects, false)
  {
    var dir := RepoDir(workDir, repo);
    var probe := SyncResult([Io(Git(GetTargetUrlCommand, dir))], None);
    if GitPasses(env, GetTargetUrlCommand, dir) then probe
    else Then(probe, GitStep(env, AddTargetCommand(TargetUrl(model, repo)), dir))
  }

  function PushStep(env: CliEnv, ctx: RepoContext, workDir: string): (r: SyncResult)
    ensures MirrorWorkOnly(r.effects, false)
    ensures r.failure.None? <==> GitPasses(env, PushCommand, RepoDir(workDir, ctx.repo))
  {
    Then(Step([Announce(ctx, "Pushing", "Pushing to target...")], Pass),
         GitStep(env, PushCommand, RepoDir(workDir, ctx.repo)))
  }

  /** What the first service does for a repository it does not skip. */
  function CliSync(env: CliEnv, api: GithubApi, model: BackupRequest, ctx: RepoContext,
                   workDir: string, existsInTarget: bool): (r: SyncResult)
    ensures MirrorWorkOnly(r.effects, !existsInTarget)
  {
    var mirrored := MirrorStep(env, model, ctx, workDir);
    var created := CreateStep(api, model, ctx, existsInTarget, PrivateFlag);
    var remote := RemoteSetupStep(env, model, ctx.repo, workDir);
    var pushed := PushStep(env, ctx, workDir);
    ThenMirrorWorkOnly(mirrored, created, !existsInTarget);
    ThenMirrorWorkOnly(Then(mirrored, created), remote, !existsInTarget);
    ThenMirrorWorkOnly(Then(Then(mirrored, created), remote), pushed, !existsInTarget);
    Then(Then(Then(mirrored, created), remote), pushed)
  }

  /**
   * The remote set-up only ever probes and adds: the URL of an existing
   * `target` remote is never checked or changed, and the add is attempted
   * exactly when the probe fails.
   */
  lemma RemoteSetupCalls(env: CliEnv, model: BackupRequest, repo: string, workDir: string)
    ensures var dir := RepoDir(workDir, repo);
      var r := RemoteSetupStep(env, model, repo, workDir);
      && IoOnly(r.effects)
      && Calls(r.effects) ==
         [Git(GetTargetUrlCommand, dir)] +
         (if GitPasses(env, GetTargetUrlCommand, dir) then [] else [Git(AddTargetCommand(TargetUrl(model, repo)), dir)])
      && (r.failure.None? <==>
            GitPasses(env, GetTargetUrlCommand, dir) || GitPasses(env, AddTargetCommand(TargetUrl(model, repo)), dir))
  {
    var dir := RepoDir(workDir, repo);
    var probe := [Io(Git(GetTargetUrlCommand, dir))];
    assert Calls(probe) == [Git(GetTargetUrlCommand, dir)];
    if !GitPasses(env, GetTargetUrlCommand, dir) {
      var add := [Io(Git(AddTargetCommand(TargetUrl(model, repo)), dir))];
      CallsAppend(probe, add);
      assert Calls(add) == [Git(AddTargetCommand(TargetUrl(model, repo)), dir)];
    }
  }

  lemma MirrorStepFollows(env: CliEnv, model: BackupRequest, ctx: RepoContext, workDir: string)
    ensures Follows(MirrorStep(env, model, ctx, workDir), ctx,
                    [MirrorStatus(env.dirExists(RepoDir(workDir, ctx.repo)))])
    ensures Statuses(Sent(MirrorStep(env, model, ctx, workDir).effects)) ==
      [MirrorStatus(env.dirExists(RepoDir(workDir, ctx.repo)))]
    ensures var (command, where) := MirrorCommand(env, model, ctx.repo, workDir);
      Calls(MirrorStep(env, model, ctx, workDir).effects) == [Git(command, where)]
  {
    var (command, where) := MirrorCommand(env, model, ctx.repo, workDir);
    GitStepCalls(env, command, where);
    if env.dirExists(RepoDir(workDir, ctx.repo)) {
      AnnouncedThenFollows(ctx, "Updating", "Updating local mirror...", GitStep(env, command, where));
    } else {
      AnnouncedThenFollows(ctx, "Cloning", "Cloning from source...", GitStep(env, command, where));
    }
  }

  /** A git step makes exactly its one git call. */
  lemma GitStepCalls(env: CliEnv, command: string, workingDir: string)
    ensures IoOnly(GitStep(env, command, workingDir).effects)
    ensures Calls(GitStep(env, command, workingDir).effects) == [Git(command, workingDir)]
  {
    var effects := GitStep(env, command, workingDir).effects;
    assert effects[1..] == [];
  }

  lemma PushStepFollows(env: CliEnv, ctx: RepoContext, workDir: string)
    ensures Follows(PushStep(env, ctx, workDir), ctx, ["Pushing"])
    ensures Statuses(Sent(PushStep(env, ctx, workDir).effects)) == ["Pushing"]
    ensures Calls(PushStep(env, ctx, workDir).effects) == [Git(PushCommand, RepoDir(workDir, ctx.repo))]
  {
    GitStepCalls(env, PushCommand, RepoDir(workDir, ctx.repo));
    AnnouncedThenFollows(ctx, "Pushing", "Pushing to target...", GitStep(env, PushCommand, RepoDir(workDir, ctx.repo)));
  }

  /**
   * The first service announces the mirror step, `Creating` for a new
   * repository, then `Pushing`, all as progress events of this repository; a
   * step that throws stops the sequence after the mirror step was announced.
   */
  lemma CliSyncFollowsPlan(env: CliEnv, api: GithubApi, model: BackupRequest, ctx: RepoContext,
                           workDir: string, existsInTarget: bool)
    ensures var dir := RepoDir(workDir, ctx.repo);
      Follows(CliSync(env, api, model, ctx, workDir, existsInTarget), ctx,
              Plan(MirrorStatus(env.dirExists(dir)), existsInTarget))
    ensures Statuses(Sent(CliSync(env, api, model, ctx, workDir, existsInTarget).effects)) != []
  {
    var m := MirrorStep(env, model, ctx, workDir);
    var c := CreateStep(api, model, ctx, existsInTarget, PrivateFlag);
    var s := RemoteSetupStep(env, model, ctx.repo, workDir);
    var p := PushStep(env, ctx, workDir);
    var status := MirrorStatus(env.dirExists(RepoDir(workDir, ctx.repo)));
    var pc := if existsInTarget then [] else ["Creating"];
    CliStepsFollow(env, api, model, ctx, workDir, existsInTarget);
    assert CliSync(env, api, model, ctx, workDir, existsInTarget) == Then(Then(Then(m, c), s), p);
    ThenFollows4(m, c, s, p, ctx, [status], pc, [], ["Pushing"]);
    assert [status] + pc + [] + ["Pushing"] == Plan(status, existsInTarget);
  }

  /** Each of the four steps follows its own part of the plan. */
  lemma CliStepsFollow(env: CliEnv, api: GithubApi, model: BackupRequest, ctx: RepoContext,
                       workDir: string, existsInTarget: bool)
    ensures Follows(MirrorStep(env, model, ctx, workDir), ctx, [MirrorStatus(env.dirExists(RepoDir(workDir, ctx.repo)))])
    ensures Statuses(Sent(MirrorStep(env, model, ctx, workDir).effects)) != []
    ensures Follows(CreateStep(api, model, ctx, existsInTarget, PrivateFlag), ctx,
                    if existsInTarget then [] else ["Creating"])
    ensures Follows(RemoteSetupStep(env, model, ctx.repo, workDir), ctx, [])
    ensures Follows(PushStep(env, ctx, workDir), ctx, ["Pushing"])
  {
    MirrorStepFollows(env, model, ctx, workDir);
    CreateStepFollows(api, model, ctx, existsInTarget, PrivateFlag);
    RemoteSetupFollows(env, model, ctx, workDir);
    PushStepFollows(env, ctx, workDir);
  }

  lemma RemoteSetupFollows(env: CliEnv, model: BackupRequest, ctx: RepoContext, workDir: string)
    ensures Follows(RemoteSetupStep(env, model, ctx.repo, workDir), ctx, [])
  {
    RemoteSetupCalls(env, model, ctx.repo, workDir);
    IoStepFollows(RemoteSetupStep(env, model, ctx.repo, workDir), ctx);
  }

  /**
   * The sync completes exactly when the mirror command, the repository
   * creation (if needed), the remote set-up and the push all succeed.
   */
  lemma CliSyncSucceeds(env: CliEnv, api: GithubApi, model: BackupRequest, ctx: RepoContext,
                        workDir: string, existsInTarget: bool)
    ensures var dir := RepoDir(workDir, ctx.repo);
      var (command, where) := MirrorCommand(env, model, ctx.repo, workDir);
      CliSync(env, api, model, ctx, workDir, existsInTarget).failure.None? <==>
        && GitPasses(env, command, where)
        && (existsInTarget || CreateTargetGithubRepo(api, ctx.repo, model.targetToken, PrivateFlag).Pass?)
        && (GitPasses(env, GetTargetUrlCommand, dir) ||
            GitPasses(env, AddTargetCommand(TargetUrl(model, ctx.repo)), dir))
        && GitPasses(env, PushCommand, dir)
  {
    RemoteSetupCalls(env, model, ctx.repo, workDir);
  }
}
