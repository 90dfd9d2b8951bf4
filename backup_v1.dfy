/**
 * BackupService.StartBackupService, the first service, written as the
 * statements it runs: the listings, the `foreach` with its four counters, the
 * per-repository `try`/`catch`, and the git command lines it runs through
 * `RunGitCommand`. Each method is proved to produce exactly the trace the
 * specification functions of `SyncEngine` and `GitCliMirror` describe.
 */
module BackupV1 {
  import opened Wrappers
  import opened SignalR
  import opened GithubCommands
  import opened Effects
  import opened GitCliMirror
  import opened SyncEngine

  /** `RunGitCommand`: the invocation, and the exception a failed start or a non-zero exit code throws. */
  method RunGit(env: CliEnv, command: string, workingDir: string) returns (r: SyncResult)
    ensures r == GitStep(env, command, workingDir)
  {
    var outcome := RunGitCommand(env.git, command, workingDir);
    r := SyncResult([Io(Git(command, workingDir))], if outcome.Fail? then Some(outcome.message) else None);
  }

  /** Clone or update the local mirror: any existing directory is updated in place. */
  method MirrorLocal(env: CliEnv, model: BackupRequest, ctx: RepoContext, workDir: string)
    returns (r: SyncResult)
    ensures r == GitCliMirror.MirrorStep(env, model, ctx, workDir)
  {
    var repoDir := RepoDir(workDir, ctx.repo);
    var announced;
    var ran;
    if env.dirExists(repoDir) {
      announced := [Announce(ctx, "Updating", "Updating local mirror...")];
      ran := RunGit(env, UpdateCommand, repoDir);
    } else {
      announced := [Announce(ctx, "Cloning", "Cloning from source...")];
      ran := RunGit(env, CloneCommand(SourceUrl(model, ctx.repo), repoDir), "");
    }
    r := SyncResult(announced + ran.effects, ran.failure);
  }

  /** `CreateTargetGithubRepo`, called only for a repository the target lacks. */
  method CreateIfMissing(api: GithubApi, model: BackupRequest, ctx: RepoContext, existsInTarget: bool)
    returns (r: SyncResult)
    ensures r == CreateStep(api, model, ctx, existsInTarget, PrivateFlag)
  {
    if existsInTarget {
      return SyncResult([], None);
    }
    var effects := [Announce(ctx, "Creating", "Creating repository in target..."),
                    Io(CreateRepo(RepoPayload(ctx.repo, PrivateFlag)))];
    var created := CreateTargetGithubRepo(api, ctx.repo, model.targetToken, PrivateFlag);
    r := SyncResult(effects, if created.Fail? then Some(created.message) else None);
  }

  /** The inner `try`: probe the `target` remote, and add it when the probe throws. */
  method SetUpTargetRemote(env: CliEnv, model: BackupRequest, repo: string, workDir: string)
    returns (r: SyncResult)
    ensures r == RemoteSetupStep(env, model, repo, workDir)
  {
    var repoDir := RepoDir(workDir, repo);
    var probe := RunGit(env, GetTargetUrlCommand, repoDir);
    if probe.failure.None? {
      return probe;
    }
    var added := RunGit(env, AddTargetCommand(TargetUrl(model, repo)), repoDir);
    r := SyncResult(probe.effects + added.effects, added.failure);
  }

  /** Announce `Pushing`, then `git push target --mirror`. */
  method PushMirror(env: CliEnv, ctx: RepoContext, workDir: string) returns (r: SyncResult)
    ensures r == GitCliMirror.PushStep(env, ctx, workDir)
  {
    var pushed := RunGit(env, PushCommand, RepoDir(workDir, ctx.repo));
    r := SyncResult([Announce(ctx, "Pushing", "Pushing to target...")] + pushed.effects, pushed.failure);
  }

  /** The part of the `try` block after the lookups: mirror, create if new, remote, push. */
  method SyncRepository(env: CliEnv, api: GithubApi, model: BackupRequest, ctx: RepoContext,
                        workDir: string, existsInTarget: bool)
    returns (r: SyncResult)
    ensures r == CliSync(env, api, model, ctx, workDir, existsInTarget)
  {
    var mirrored := MirrorLocal(env, model, ctx, workDir);
    if mirrored.failure.Some? {
      return mirrored;
    }
    var created := CreateIfMissing(api, model, ctx, existsInTarget);
    if created.failure.Some? {
      return SyncResult(mirrored.effects + created.effects, created.failure);
    }
    var remote := SetUpTargetRemote(env, model, ctx.repo, workDir);
    if remote.failure.Some? {
      return SyncResult(mirrored.effects + created.effects + remote.effects, remote.failure);
    }
    var pushed := PushMirror(env, ctx, workDir);
    r := SyncResult(mirrored.effects + created.effects + remote.effects + pushed.effects, pushed.failure);
  }

  /**
   * One pass of the `foreach` body, from the `Processing` event to the
   * summary, with the `catch` turning an exception into `Failed: <message>`.
   */
  method ProcessRepository(job: Job, env: CliEnv, targetRepos: seq<string>, total: int,
                           repo: string, c: Counters)
    returns (r: RepoResult)
    requires job.transport == CliTransport(env, job.api, job.model, job.workDir)
    ensures r == ProcessRepo(job, targetRepos, total, repo, c)
  {
    var m := job.model;
    var ctx := RepoContext(job.jobId, repo, c.current, total);
    var effects := [Announce(ctx, "Processing")];
    var repoExistsInTarget := repo in targetRepos;
    if repoExistsInTarget {
      var sourceLatestCommit := GetLatestCommitHash(job.api, m.sourceUser, repo, m.sourceToken);
      var targetLatestCommit := GetLatestCommitHash(job.api, m.targetUser, repo, m.targetToken);
      effects := effects + [Io(LatestCommit(CommitsUrl(m.sourceUser, repo))),
                            Io(LatestCommit(CommitsUrl(m.targetUser, repo)))];
      if sourceLatestCommit == targetLatestCommit {
        var n := c.(skipped := c.skipped + 1);
        r := RepoResult(effects + [Announce(ctx, "Skipped", "Already up to date"), Summarize(job, n, total)],
                        Skipped, n);
        return;
      }
      if !(Abbreviates(sourceLatestCommit) && Abbreviates(targetLatestCommit)) {
        // the update log line abbreviates both hashes and throws on a short one
        var n := c.(failed := c.failed + 1);
        r := RepoResult(effects + [Announce(ctx, "Failed: " + SubstringOutOfRange), Summarize(job, n, total)],
                        FailedWith(SubstringOutOfRange), n);
        return;
      }
    }
    assert effects == [Announce(ctx, "Processing")] + LookupCalls(job, targetRepos, repo);
    var synced := SyncRepository(env, job.api, m, ctx, job.workDir, repoExistsInTarget);
    effects := effects + synced.effects;
    if synced.failure.None? {
      var n := c.(success := c.success + 1);
      r := RepoResult(effects + [Announce(ctx, "Completed"), Summarize(job, n, total)], Synced, n);
    } else {
      var n := c.(failed := c.failed + 1);
      r := RepoResult(effects + [Announce(ctx, "Failed: " + synced.failure.value), Summarize(job, n, total)],
                      FailedWith(synced.failure.value), n);
    }
  }

  /** The job the first service runs for `jobId`. */
  function V1Job(jobId: string, model: BackupRequest, workDir: string, api: GithubApi, env: CliEnv): Job
  {
    Job(jobId, model, workDir, api, GitCliService, CliTransport(env, api, model, workDir))
  }

  /**
   * In the first service a repository's latest commits are looked up only
   * when it is in the target listing, and it is created only when it is not.
   */
  lemma V1LookupsAndCreationFollowTarget(jobId: string, model: BackupRequest, workDir: string, api: GithubApi,
                                           env: CliEnv, targetRepos: seq<string>, total: int, repo: string, c: Counters)
    ensures var e := ProcessRepo(V1Job(jobId, model, workDir, api, env), targetRepos, total, repo, c).effects;
      && (repo !in targetRepos ==> forall i :: 0 <= i < |e| && e[i].Io? ==> !e[i].call.LatestCommit?)
      && (forall i :: 0 <= i < |e| && e[i].Io? && e[i].call.CreateRepo? ==> repo !in targetRepos)
  {
    CliTransportMirrorsOnly(env, api, model, workDir);
    LookupsAndCreationFollowTarget(V1Job(jobId, model, workDir, api, env), targetRepos, total, repo, c);
  }

  /**
   * The `foreach` over the source listing: `current` is bumped before each
   * repository, the other counters are taken from its result.
   */
  method ProcessRepositories(job: Job, env: CliEnv, targetRepos: seq<string>, repos: seq<string>)
    returns (effects: seq<Effect>, counters: Counters)
    requires job.transport == CliTransport(env, job.api, job.model, job.workDir)
    ensures LoopState(effects, counters) == ProcessAll(job, targetRepos, |repos|, repos)
  {
    var total := |repos|;
    ghost var step := Iterate(job, targetRepos, total);
    effects := [];
    var current, success, failed, skipped := 0, 0, 0, 0;
    for i := 0 to |repos|
      invariant Loop(step, repos[..i]) == LoopState(effects, Counters(current, success, failed, skipped))
    {
      LoopNext(step, repos, i);
      current := current + 1;
      var r := ProcessRepository(job, env, targetRepos, total, repos[i],
                                 Counters(current, success, failed, skipped));
      assert step(repos[i], Counters(current, success, failed, skipped)) == r;
      effects := effects + r.effects;
      current, success, failed, skipped := r.counters.current, r.counters.success, r.counters.failed, r.counters.skipped;
    }
    assert repos[..|repos|] == repos;
    counters := Counters(current, success, failed, skipped);
  }

  /**
   * `StartBackupService`: what it sends and calls, in order, is exactly the
   * job trace of the first service, whose `BackupFinished` and `BackupError`
   * events go to the job's group.
   */
  method StartBackupService(jobId: string, model: BackupRequest, workDir: string, api: GithubApi, env: CliEnv)
    returns (sink: seq<Effect>)
    ensures sink == JobTrace(V1Job(jobId, model, workDir, api, env))
  {
    var job := V1Job(jobId, model, workDir, api, env);
    sink := [Send(SendStatusUpdate(jobId, "STARTED", "Backup process started"))];
    sink := sink + [Io(ListRepos(ListingUrl(model.sourceUser, model.sourceToken)))];
    var sourceRepos := GetGithubRepos(api, model.sourceUser, model.sourceToken);
    if sourceRepos.Failure? {
      sink := sink + [Send(Event(jobId, ErrorPayload(ErrorMessage, sourceRepos.error)))];
      SourceFailedTrace(job);
      return;
    }
    sink := sink + [Io(ListRepos(ListingUrl(model.targetUser, model.targetToken)))];
    var targetRepos := GetGithubRepos(api, model.targetUser, model.targetToken);
    if targetRepos.Failure? {
      sink := sink + [Send(Event(jobId, ErrorPayload(ErrorMessage, targetRepos.error)))];
      TargetFailedTrace(job);
      return;
    }
    var total := |sourceRepos.value|;
    var effects, c := ProcessRepositories(job, env, targetRepos.value, sourceRepos.value);
    sink := sink + effects;
    sink := sink + [Send(SendStatusUpdate(jobId, "COMPLETED", CompletedMessage(c))),
                    Send(Event(jobId, FinishedPayload(total, c.success, c.failed, c.skipped, FinishedMessage)))];
    ListedJobTrace(job, sourceRepos.value, targetRepos.value);
  }
}
