/**
 * BackupServiceV2.StartBackupService, written as the statements it runs: the
 * listings, the `foreach` over the source repositories with its four counters,
 * the per-repository `try`/`catch`, and the mirror work done through the
 * embedded git library. Each method is proved to produce exactly the trace
 * the specification functions of `SyncEngine` and `LibGitMirror` describe.
 */
module BackupV2 {
  import opened Wrappers
  import opened SignalR
  import opened GithubCommands
  import opened Effects
  import opened LibGitMirror
  import opened SyncEngine

  /**
   * The clone-or-update branch: a valid repository is fetched remote by
   * remote; anything else is deleted if present and cloned afresh.
   */
  method MirrorLocal(env: LibGitEnv, model: BackupRequest, ctx: RepoContext, workDir: string)
    returns (r: SyncResult)
    ensures r == LibGitMirror.MirrorStep(env, model, ctx, workDir)
  {
    var repoDir := RepoDir(workDir, ctx.repo);
    if env.onDisk(repoDir) == Repository {
      var effects := [Announce(ctx, "Updating", "Updating local mirror...")];
      var repo := new MirrorRepository(env.mirrorAt(repoDir));
      var fetched := repo.UpdateMirrorRepository(repoDir, model.sourceToken, env.fetch);
      r := if fetched.failure.Some? then SyncResult(effects + fetched.effects, fetched.failure)
           else SyncResult(effects + fetched.effects, None);
    } else {
      var effects := [Announce(ctx, "Cloning", "Cloning from source...")];
      if env.onDisk(repoDir) == NotARepository {
        effects := effects + [Io(DeleteDirectory(repoDir))];
      }
      var sourceUrl := SourceUrl(model, ctx.repo);
      effects := effects + [Io(Clone(sourceUrl, repoDir))];
      var cloned := env.clone(sourceUrl, repoDir, model.sourceToken);
      r := SyncResult(effects, if cloned.Fail? then Some(cloned.message) else None);
      assert [Announce(ctx, "Cloning", "Cloning from source...")] +
             ((if env.onDisk(repoDir) == NotARepository then [Io(DeleteDirectory(repoDir))] else []) +
              [Io(Clone(sourceUrl, repoDir))]) == effects;
    }
  }

  /** `CreateTargetGithubRepo`, called only for a repository the target lacks. */
  method CreateIfMissing(api: GithubApi, model: BackupRequest, ctx: RepoContext, existsInTarget: bool)
    returns (r: SyncResult)
    ensures r == CreateStep(api, model, ctx, existsInTarget, PublicFlag)
  {
    if existsInTarget {
      return SyncResult([], None);
    }
    var effects := [Announce(ctx, "Creating", "Creating repository in target..."),
                    Io(CreateRepo(RepoPayload(ctx.repo, PublicFlag)))];
    var created := CreateTargetGithubRepo(api, ctx.repo, model.targetToken, PublicFlag);
    r := SyncResult(effects, if created.Fail? then Some(created.message) else None);
  }

  /** Announce `Pushing`, then open the mirror and push it to the target. */
  method PushMirror(env: LibGitEnv, model: BackupRequest, ctx: RepoContext, workDir: string)
    returns (r: SyncResult)
    ensures r == PushToTargetStep(env, model, ctx, workDir)
  {
    var repoDir := RepoDir(workDir, ctx.repo);
    var effects := [Announce(ctx, "Pushing", "Pushing to target...")];
    var repo := new MirrorRepository(env.mirrorAt(repoDir));
    var _, pushed := repo.PushToTarget(repoDir, TargetUrl(model, ctx.repo), model.targetToken, env.push);
    r := SyncResult(effects + pushed.effects, pushed.failure);
  }

  /** The part of the `try` block after the lookups: mirror, create if new, push. */
  method SyncRepository(env: LibGitEnv, api: GithubApi, model: BackupRequest, ctx: RepoContext,
                        workDir: string, existsInTarget: bool)
    returns (r: SyncResult)
    ensures r == LibGitSync(env, api, model, ctx, workDir, existsInTarget)
  {
    var mirrored := MirrorLocal(env, model, ctx, workDir);
    if mirrored.failure.Some? {
      return mirrored;
    }
    var created := CreateIfMissing(api, model, ctx, existsInTarget);
    if created.failure.Some? {
      return SyncResult(mirrored.effects + created.effects, created.failure);
    }
    var pushed := PushMirror(env, model, ctx, workDir);
    r := SyncResult(mirrored.effects + created.effects + pushed.effects, pushed.failure);
  }

  /**
   * One pass of the `foreach` body, from the `Processing` event to the
   * summary, with the `catch` turning an exception into `Failed: <message>`.
   */
  method ProcessRepository(job: Job, env: LibGitEnv, targetRepos: seq<string>, total: int,
                           repo: string, c: Counters)
    returns (r: RepoResult)
    requires job.transport == LibGitTransport(env, job.api, job.model, job.workDir)
    ensures r == ProcessRepo(job, targetRepos, total, repo, c)
  {
    var m := job.model;
    var ctx := RepoContext(job.jobId, repo, c.current, total);
    var effects := [Announce(ctx, "Processing")];
    var repoExistsInTarget := repo in targetRepos;
    if repoExistsInTarget {
      var sourceLatestCommit := GetLatestCommitHash(job.api, m.sourceUser, repo, m.sourceToken);
      var targetLatestCommit := GetLatestCommitHash(job.api, m.targetUser, repo, m.targetToken);
      effects := effects + [Io(LatestCommit(CommitsUrl(m.sourceUser, repo))),
                            Io(LatestCommit(CommitsUrl(m.targetUser, repo)))];
      if sourceLatestCommit == targetLatestCommit {
        var n := c.(skipped := c.skipped + 1);
        r := RepoResult(effects + [Announce(ctx, "Skipped", "Already up to date"), Summarize(job, n, total)],
                        Skipped, n);
        return;
      }
      if !(Abbreviates(sourceLatestCommit) && Abbreviates(targetLatestCommit)) {
        // the update log line abbreviates both hashes and throws on a short one
        var n := c.(failed := c.failed + 1);
        r := RepoResult(effects + [Announce(ctx, "Failed: " + SubstringOutOfRange), Summarize(job, n, total)],
                        FailedWith(SubstringOutOfRange), n);
        return;
      }
    }
    assert effects == [Announce(ctx, "Processing")] + LookupCalls(job, targetRepos, repo);
    var synced := SyncRepository(env, job.api, m, ctx, job.workDir, repoExistsInTarget);
    effects := effects + synced.effects;
    if synced.failure.None? {
      var n := c.(success := c.success + 1);
      r := RepoResult(effects + [Announce(ctx, "Completed"), Summarize(job, n, total)], Synced, n);
    } else {
      var n := c.(failed := c.failed + 1);
      r := RepoResult(effects + [Announce(ctx, "Failed: " + synced.failure.value), Summarize(job, n, total)],
                      FailedWith(synced.failure.value), n);
    }
  }

  /** The job the second service runs for `jobId`. */
  function V2Job(jobId: string, model: BackupRequest, workDir: string, api: GithubApi, env: LibGitEnv): Job
  {
    Job(jobId, model, workDir, api, LibGitService, LibGitTransport(env, api, model, workDir))
  }

  /**
   * In the second service a repository's latest commits are looked up only
   * when it is in the target listing, and it is created only when it is not.
   */
  lemma V2LookupsAndCreationFollowTarget(jobId: string, model: BackupRequest, workDir: string, api: GithubApi,
                                           env: LibGitEnv, targetRepos: seq<string>, total: int, repo: string, c: Counters)
    ensures var e := ProcessRepo(V2Job(jobId, model, workDir, api, env), targetRepos, total, repo, c).effects;
      && (repo !in targetRepos ==> forall i :: 0 <= i < |e| && e[i].Io? ==> !e[i].call.LatestCommit?)
      && (forall i :: 0 <= i < |e| && e[i].Io? && e[i].call.CreateRepo? ==> repo !in targetRepos)
  {
    LibGitTransportMirrorsOnly(env, api, model, workDir);
    LookupsAndCreationFollowTarget(V2Job(jobId, model, workDir, api, env), targetRepos, total, repo, c);
  }

  /**
   * The `foreach` over the source listing: `current` is bumped before each
   * repository, the other counters are taken from its result.
   */
  method ProcessRepositories(job: Job, env: LibGitEnv, targetRepos: seq<string>, repos: seq<string>)
    returns (effects: seq<Effect>, counters: Counters)
    requires job.transport == LibGitTransport(env, job.api, job.model, job.workDir)
    ensures LoopState(effects, counters) == ProcessAll(job, targetRepos, |repos|, repos)
  {
    var total := |repos|;
    ghost var step := Iterate(job, targetRepos, total);
    effects := [];
    var current, success, failed, skipped := 0, 0, 0, 0;
    for i := 0 to |repos|
      invariant Loop(step, repos[..i]) == LoopState(effects, Counters(current, success, failed, skipped))
    {
      LoopNext(step, repos, i);
      current := current + 1;
      var r := ProcessRepository(job, env, targetRepos, total, repos[i],
                                 Counters(current, success, failed, skipped));
      assert step(repos[i], Counters(current, success, failed, skipped)) == r;
      effects := effects + r.effects;
      current, success, failed, skipped := r.counters.current, r.counters.success, r.counters.failed, r.counters.skipped;
    }
    assert repos[..|repos|] == repos;
    counters := Counters(current, success, failed, skipped);
  }

  /**
   * `StartBackupService`: what it sends and calls, in order, is exactly the
   * job trace of the second service.
   */
  method StartBackupService(jobId: string, model: BackupRequest, workDir: string, api: GithubApi, env: LibGitEnv)
    returns (sink: seq<Effect>)
    ensures sink == JobTrace(V2Job(jobId, model, workDir, api, env))
  {
    var job := V2Job(jobId, model, workDir, api, env);
    sink := [Send(SendStatusUpdate(jobId, "STARTED", "Backup process started"))];
    sink := sink + [Io(ListRepos(ListingUrl(model.sourceUser, model.sourceToken)))];
    var sourceRepos := GetGithubRepos(api, model.sourceUser, model.sourceToken);
    if sourceRepos.Failure? {
      sink := sink + [Send(SendFinishUpdate(isError := true, ex := sourceRepos.error))];
      SourceFailedTrace(job);
      return;
    }
    sink := sink + [Io(ListRepos(ListingUrl(model.targetUser, model.targetToken)))];
    var targetRepos := GetGithubRepos(api, model.targetUser, model.targetToken);
    if targetRepos.Failure? {
      sink := sink + [Send(SendFinishUpdate(isError := true, ex := targetRepos.error))];
      TargetFailedTrace(job);
      return;
    }
    var total := |sourceRepos.value|;
    var effects, c := ProcessRepositories(job, env, targetRepos.value, sourceRepos.value);
    sink := sink + effects;
    sink := sink + [Send(SendStatusUpdate(jobId, "COMPLETED", CompletedMessage(c))),
                    Send(SendFinishUpdate(jobId, total, c.success, c.failed, c.skipped))];
    ListedJobTrace(job, sourceRepos.value, targetRepos.value);
  }
}
