/**
 * The mirror transport of BackupServiceV2, built on an embedded git library.
 * The library's clone, fetch and push are oracles of `LibGitEnv`; what is
 * modelled is the remote set-up and refspec list of `PushToTarget`, the
 * remote-by-remote fetch of `UpdateMirrorRepository`, and the order in which
 * the V2 orchestrator runs these steps for one repository.
 */
module LibGitMirror {
  import opened Wrappers
  import opened GithubCommands
  import opened Effects

  /** What the repository's directory holds when the job reaches it. */
  datatype DirState = Missing | NotARepository | Repository

  datatype Remote = Remote(name: string, url: string, fetchRefSpecs: seq<string>)

  /**
   * The repository `new Repository(repoDir)` opens once the mirror step is done:
   * its remotes and the canonical names of its branches and tags.
   */
  datatype LocalRepo = LocalRepo(remotes: seq<Remote>, branches: seq<string>, tags: seq<string>)

  /**
   * The library seen from the orchestrator: the state of each directory, the
   * repository it opens, and the outcome of each clone (source URL, directory,
   * token), fetch (directory, remote, refspecs, token) and push (directory,
   * remote URL, refspecs, token).
   */
  datatype LibGitEnv = LibGitEnv(
    onDisk: string -> DirState,
    mirrorAt: string -> LocalRepo,
    clone: (string, string, string) -> Outcome,
    fetch: (string, string, seq<string>, string) -> Outcome,
    push: (string, string, seq<string>, string) -> Outcome)

  const TargetRemote := "target"

  /** The fetch refspec git gives a remote added by name and URL. */
  function DefaultFetchRefSpec(name: string): string
  {
    "+refs/heads/*:refs/remotes/" + name + "/*"
  }

  /** A forced update of the reference `name` to the reference of the same name. */
  function ForcedRefSpec(name: string): string
  {
    "+" + name + ":" + name
  }

  function ForcedRefSpecs(names: seq<string>): (specs: seq<string>)
    ensures |specs| == |names|
    ensures forall i :: 0 <= i < |names| ==> specs[i] == ForcedRefSpec(names[i])
  {
    if names == [] then []
    else ForcedRefSpecs(names[..|names| - 1]) + [ForcedRefSpec(names[|names| - 1])]
  }

  /** The refspecs `PushToTarget` pushes: every branch, then every tag. */
  function PushRefSpecs(branches: seq<string>, tags: seq<string>): (specs: seq<string>)
    ensures |specs| == |branches| + |tags|
    ensures forall i :: 0 <= i < |branches| ==> specs[i] == ForcedRefSpec(branches[i])
    ensures forall j :: 0 <= j < |tags| ==> specs[|branches| + j] == ForcedRefSpec(tags[j])
  {
    ForcedRefSpecs(branches) + ForcedRefSpecs(tags)
  }

  /** `Remotes[name]`: the index of the first remote called `name`, or -1 for null. */
  function FindRemote(remotes: seq<Remote>, name: string): (i: int)
    ensures -1 <= i < |remotes|
    ensures i >= 0 ==> remotes[i].name == name && forall j :: 0 <= j < i ==> remotes[j].name != name
    ensures i == -1 ==> forall j :: 0 <= j < |remotes| ==> remotes[j].name != name
  {
    if remotes == [] then -1
    else if remotes[0].name == name then 0
    else var i := FindRemote(remotes[1..], name); if i < 0 then -1 else i + 1
  }

  /** No two remotes share a name, as in a git configuration. */
  predicate UniqueNames(remotes: seq<Remote>)
  {
    forall i, j :: 0 <= i < j < |remotes| ==> remotes[i].name != remotes[j].name
  }

  /** The remotes after `PushToTarget` has added or re-pointed `target`. */
  function WithTargetRemote(remotes: seq<Remote>, url: string): (r: seq<Remote>)
    ensures |r| == |remotes| + (if FindRemote(remotes, TargetRemote) < 0 then 1 else 0)
    ensures forall j :: 0 <= j < |remotes| && remotes[j].name != TargetRemote ==> r[j] == remotes[j]
  {
    var i := FindRemote(remotes, TargetRemote);
    if i < 0 then remotes + [Remote(TargetRemote, url, [DefaultFetchRefSpec(TargetRemote)])]
    else if remotes[i].url != url then remotes[i := remotes[i].(url := url)]
    else remotes
  }

  /**
   * After the set-up, `target` points at the URL, every other remote keeps its
   * place and value, a new remote is appended only when none was called
   * `target`, an existing one that already had the URL is left alone, and the
   * names stay unique.
   */
  lemma TargetRemoteSetUp(remotes: seq<Remote>, url: string)
    ensures var r := WithTargetRemote(remotes, url);
      && FindRemote(r, TargetRemote) >= 0 && r[FindRemote(r, TargetRemote)].url == url
      && |r| == |remotes| + (if FindRemote(remotes, TargetRemote) < 0 then 1 else 0)
      && (forall j :: 0 <= j < |remotes| && remotes[j].name != TargetRemote ==> r[j] == remotes[j])
      && (UniqueNames(remotes) ==> UniqueNames(r))
    ensures (FindRemote(remotes, TargetRemote) >= 0 &&
             remotes[FindRemote(remotes, TargetRemote)].url == url) ==>
            WithTargetRemote(remotes, url) == remotes
  {
    var i := FindRemote(remotes, TargetRemote);
    var r := WithTargetRemote(remotes, url);
    if i < 0 {
      var k := FindRemote(r, TargetRemote);
      assert r[|remotes|].name == TargetRemote;
      assert k == |remotes|;
    } else {
      var k := FindRemote(r, TargetRemote);
      assert r[i].name == TargetRemote;
      assert forall j :: 0 <= j < i ==> r[j] == remotes[j];
      assert k == i;
    }
  }

  /** What fetching from `remote` reports. */
  function Fetched(dir: string, remote: Remote, token: string,
                   fetch: (string, string, seq<string>, string) -> Outcome): Outcome
  {
    fetch(dir, remote.name, remote.fetchRefSpecs, token)
  }

  function FetchCall(dir: string, remote: Remote): Effect
  {
    Io(Fetch(dir, remote.name, remote.fetchRefSpecs))
  }

  /**
   * Fetching from every remote in order: the first failing fetch throws and
   * the remotes after it are not fetched.
   */
  function FetchAll(dir: string, remotes: seq<Remote>, token: string,
                    fetch: (string, string, seq<string>, string) -> Outcome): (r: SyncResult)
    ensures |r.effects| <= |remotes|
    ensures forall i :: 0 <= i < |r.effects| ==> r.effects[i] == FetchCall(dir, remotes[i])
    ensures r.failure.None? ==>
      |r.effects| == |remotes| && forall i :: 0 <= i < |remotes| ==> Fetched(dir, remotes[i], token, fetch).Pass?
    ensures r.failure.Some? ==>
      && |r.effects| >= 1
      && (forall i :: 0 <= i < |r.effects| - 1 ==> Fetched(dir, remotes[i], token, fetch).Pass?)
      && Fetched(dir, remotes[|r.effects| - 1], token, fetch) == Fail(r.failure.value)
    decreases |remotes|
  {
    if remotes == [] then SyncResult([], None)
    else
      var done := FetchAll(dir, remotes[..|remotes| - 1], token, fetch);
      var last := remotes[|remotes| - 1];
      if done.failure.Some? then done
      else Then(done, Step([FetchCall(dir, last)], Fetched(dir, last, token, fetch)))
  }

  /** Once a prefix of the remotes has failed, the rest are never fetched. */
  lemma {:induction false} FetchAllStops(dir: string, remotes: seq<Remote>, k: nat, token: string,
                                         fetch: (string, string, seq<string>, string) -> Outcome)
    requires k <= |remotes|
    requires FetchAll(dir, remotes[..k], token, fetch).failure.Some?
    ensures FetchAll(dir, remotes, token, fetch) == FetchAll(dir, remotes[..k], token, fetch)
    decreases |remotes| - k
  {
    if k == |remotes| {
      assert remotes[..k] == remotes;
    } else {
      var longer := remotes[..|remotes| - 1];
      assert longer[..k] == remotes[..k];
      FetchAllStops(dir, longer, k, token, fetch);
    }
  }

  /** The push of the refspecs, taken only when there is at least one. */
  function PushStep(dir: string, url: string, refSpecs: seq<string>, token: string,
                    push: (string, string, seq<string>, string) -> Outcome): (r: SyncResult)
    ensures refSpecs == [] ==> r == SyncResult([], None)
    ensures refSpecs != [] ==>
      r.effects == [Io(Push(dir, url, refSpecs))] &&
      (r.failure.None? <==> push(dir, url, refSpecs, token).Pass?)
  {
    if refSpecs == [] then SyncResult([], None)
    else Step([Io(Push(dir, url, refSpecs))], push(dir, url, refSpecs, token))
  }

  /** How `PushToTarget` found the `target` remote. */
  datatype RemoteSetup = Added | Updated | Kept

  /** A local mirror repository, opened from its directory. */
  class MirrorRepository {
    var remotes: seq<Remote>
    const branches: seq<string>
    const tags: seq<string>

    constructor (repo: LocalRepo)
      ensures remotes == repo.remotes && branches == repo.branches && tags == repo.tags
    {
      remotes := repo.remotes;
      branches := repo.branches;
      tags := repo.tags;
    }

    /** `UpdateMirrorRepository`: fetch with pruning from every remote, in order. */
    method UpdateMirrorRepository(repoDir: string, token: string,
                                  fetch: (string, string, seq<string>, string) -> Outcome)
      returns (result: SyncResult)
      ensures result == FetchAll(repoDir, remotes, token, fetch)
    {
      result := SyncResult([], None);
      for i := 0 to |remotes|
        invariant result == FetchAll(repoDir, remotes[..i], token, fetch)
        invariant result.failure.None?
      {
        var remote := remotes[i];
        assert remotes[..i + 1][..i] == remotes[..i];
        var outcome := fetch(repoDir, remote.name, remote.fetchRefSpecs, token);
        result := Then(result, Step([FetchCall(repoDir, remote)], outcome));
        if outcome.Fail? {
          FetchAllStops(repoDir, remotes, i + 1, token, fetch);
          return;
        }
      }
      assert remotes[..|remotes|] == remotes;
    }

    /**
     * `PushToTarget`: makes `target` point at `targetUrl`, then pushes every
     * branch and every tag as a forced update, if there is any.
     */
    method PushToTarget(repoDir: string, targetUrl: string, token: string,
                        push: (string, string, seq<string>, string) -> Outcome)
      returns (setup: RemoteSetup, result: SyncResult)
      modifies this
      ensures remotes == WithTargetRemote(old(remotes), targetUrl)
      ensures var i := FindRemote(old(remotes), TargetRemote);
        setup == if i < 0 then Added else if old(remotes)[i].url != targetUrl then Updated else Kept
      ensures result == PushStep(repoDir, targetUrl, PushRefSpecs(branches, tags), token, push)
    {
      var i := FindRemote(remotes, TargetRemote);
      if i < 0 {
        remotes := remotes + [Remote(TargetRemote, targetUrl, [DefaultFetchRefSpec(TargetRemote)])];
        setup := Added;
      } else if remotes[i].url != targetUrl {
        remotes := remotes[i := remotes[i].(url := targetUrl)];
        setup := Updated;
      } else {
        setup := Kept;
      }
      TargetRemoteSetUp(old(remotes), targetUrl);
      var targetRemote := remotes[FindRemote(remotes, TargetRemote)];

      var pushRefSpecs: seq<string> := [];
      for k := 0 to |branches|
        invariant pushRefSpecs == ForcedRefSpecs(branches[..k])
      {
        assert branches[..k + 1][..k] == branches[..k];
        pushRefSpecs := pushRefSpecs + ["+" + branches[k] + ":" + branches[k]];
      }
      assert branches[..|branches|] == branches;
      for k := 0 to |tags|
        invariant pushRefSpecs == ForcedRefSpecs(branches) + ForcedRefSpecs(tags[..k])
      {
        assert tags[..k + 1][..k] == tags[..k];
        pushRefSpecs := pushRefSpecs + ["+" + tags[k] + ":" + tags[k]];
      }
      assert tags[..|tags|] == tags;

      if |pushRefSpecs| > 0 {
        result := Step([Io(Push(repoDir, targetRemote.url, pushRefSpecs))],
                       push(repoDir, targetRemote.url, pushRefSpecs, token));
      } else {
        result := SyncResult([], None);
      }
    }
  }

  /** The status V2 announces for the mirror step: only a valid repository is updated. */
  function MirrorStatus(state: DirState): string
  {
    if state == Repository then "Updating" else "Cloning"
  }

  /**
   * The V2 mirror step: fetch into a valid local repository, or delete what is
   * left in the directory and clone afresh.
   */
  function MirrorStep(env: LibGitEnv, model: BackupRequest, ctx: RepoContext, workDir: string): (r: SyncResult)
    ensures MirrorWorkOnly(r.effects, false)
  {
    var dir := RepoDir(workDir, ctx.repo);
    if env.onDisk(dir) == Repository then
      Then(Step([Announce(ctx, "Updating", "Updating local mirror...")], Pass),
           FetchAll(dir, env.mirrorAt(dir).remotes, model.sourceToken, env.fetch))
    else
      var url := SourceUrl(model, ctx.repo);
      // The deletion is taken to succeed; a `Directory.Delete` that throws is not modelled.
      var cleanup := if env.onDisk(dir) == NotARepository then [Io(DeleteDirectory(dir))] else [];
      Step([Announce(ctx, "Cloning", "Cloning from source...")] + (cleanup + [Io(Clone(url, dir))]),
           env.clone(url, dir, model.sourceToken))
  }

  /** The V2 push step: announce `Pushing`, then `PushToTarget`. */
  function PushToTargetStep(env: LibGitEnv, model: BackupRequest, ctx: RepoContext, workDir: string): (r: SyncResult)
    ensures MirrorWorkOnly(r.effects, false)
  {
    var dir := RepoDir(workDir, ctx.repo);
    var local := env.mirrorAt(dir);
    Then(Step([Announce(ctx, "Pushing", "Pushing to target...")], Pass),
         PushStep(dir, TargetUrl(model, ctx.repo), PushRefSpecs(local.branches, local.tags),
                  model.targetToken, env.push))
  }

  /** What V2 does for a repository it does not skip. */
  function LibGitSync(env: LibGitEnv, api: GithubApi, model: BackupRequest, ctx: RepoContext,
                      workDir: string, existsInTarget: bool): (r: SyncResult)
    ensures MirrorWorkOnly(r.effects, !existsInTarget)
  {
    var mirrored := MirrorStep(env, model, ctx, workDir);
    var created := CreateStep(api, model, ctx, existsInTarget, PublicFlag);
    var pushed := PushToTargetStep(env, model, ctx, workDir);
    ThenMirrorWorkOnly(mirrored, created, !existsInTarget);
    ThenMirrorWorkOnly(Then(mirrored, created), pushed, !existsInTarget);
    Then(Then(mirrored, created), pushed)
  }

  /**
   * The mirror step deletes the directory exactly when it holds something
   * that is not a valid repository, and clones exactly when it is not a
   * valid repository; a valid one is only fetched into.
   */
  lemma MirrorStepDeletesOnlyInvalid(env: LibGitEnv, model: BackupRequest, ctx: RepoContext, workDir: string)
    ensures var dir := RepoDir(workDir, ctx.repo);
      var r := MirrorStep(env, model, ctx, workDir);
      && (Io(DeleteDirectory(dir)) in r.effects <==> env.onDisk(dir) == NotARepository)
      && (Io(Clone(SourceUrl(model, ctx.repo), dir)) in r.effects <==> env.onDisk(dir) != Repository)
  {
    var dir := RepoDir(workDir, ctx.repo);
    var r := MirrorStep(env, model, ctx, workDir);
    if env.onDisk(dir) == Repository {
      var fetched := FetchAll(dir, env.mirrorAt(dir).remotes, model.sourceToken, env.fetch);
      assert r.effects == [Announce(ctx, "Updating", "Updating local mirror...")] + fetched.effects;
      forall i | 0 <= i < |r.effects|
        ensures r.effects[i] != Io(DeleteDirectory(dir)) && r.effects[i] != Io(Clone(SourceUrl(model, ctx.repo), dir))
      {
        if i > 0 {
          assert r.effects[i] == fetched.effects[i - 1] == FetchCall(dir, env.mirrorAt(dir).remotes[i - 1]);
        }
      }
    }
  }

  lemma MirrorStepFollows(env: LibGitEnv, model: BackupRequest, ctx: RepoContext, workDir: string)
    ensures Follows(MirrorStep(env, model, ctx, workDir), ctx, [MirrorStatus(env.onDisk(RepoDir(workDir, ctx.repo)))])
    ensures Statuses(Sent(MirrorStep(env, model, ctx, workDir).effects)) ==
      [MirrorStatus(env.onDisk(RepoDir(workDir, ctx.repo)))]
  {
    var dir := RepoDir(workDir, ctx.repo);
    if env.onDisk(dir) == Repository {
      AnnouncedThenFollows(ctx, "Updating", "Updating local mirror...",
                           FetchAll(dir, env.mirrorAt(dir).remotes, model.sourceToken, env.fetch));
    } else {
      var url := SourceUrl(model, ctx.repo);
      var cleanup := if env.onDisk(dir) == NotARepository then [Io(DeleteDirectory(dir))] else [];
      AnnouncedFollows(ctx, "Cloning", "Cloning from source...", cleanup + [Io(Clone(url, dir))],
                       env.clone(url, dir, model.sourceToken));
    }
  }

  lemma PushToTargetStepFollows(env: LibGitEnv, model: BackupRequest, ctx: RepoContext, workDir: string)
    ensures Follows(PushToTargetStep(env, model, ctx, workDir), ctx, ["Pushing"])
    ensures Statuses(Sent(PushToTargetStep(env, model, ctx, workDir).effects)) == ["Pushing"]
    ensures var dir := RepoDir(workDir, ctx.repo);
      var specs := PushRefSpecs(env.mirrorAt(dir).branches, env.mirrorAt(dir).tags);
      Calls(PushToTargetStep(env, model, ctx, workDir).effects) ==
        if specs == [] then [] else [Push(dir, TargetUrl(model, ctx.repo), specs)]
  {
    var dir := RepoDir(workDir, ctx.repo);
    var local := env.mirrorAt(dir);
    var specs := PushRefSpecs(local.branches, local.tags);
    var pushed := PushStep(dir, TargetUrl(model, ctx.repo), specs, model.targetToken, env.push);
    AnnouncedThenFollows(ctx, "Pushing", "Pushing to target...", pushed);
    if specs != [] {
      assert Calls(pushed.effects) == [Push(dir, TargetUrl(model, ctx.repo), specs)] by {
        assert pushed.effects[1..] == [];
      }
    }
  }

  /**
   * V2 announces the mirror step, `Creating` for a new repository, then
   * `Pushing`, all as progress events of this repository; a step that throws
   * stops the sequence after the mirror step has been announced.
   */
  lemma LibGitSyncFollowsPlan(env: LibGitEnv, api: GithubApi, model: BackupRequest, ctx: RepoContext,
                              workDir: string, existsInTarget: bool)
    ensures var dir := RepoDir(workDir, ctx.repo);
      Follows(LibGitSync(env, api, model, ctx, workDir, existsInTarget), ctx,
              Plan(MirrorStatus(env.onDisk(dir)), existsInTarget))
    ensures Statuses(Sent(LibGitSync(env, api, model, ctx, workDir, existsInTarget).effects)) != []
  {
    var m := MirrorStep(env, model, ctx, workDir);
    var c := CreateStep(api, model, ctx, existsInTarget, PublicFlag);
    var p := PushToTargetStep(env, model, ctx, workDir);
    var status := MirrorStatus(env.onDisk(RepoDir(workDir, ctx.repo)));
    var pc := if existsInTarget then [] else ["Creating"];
    MirrorStepFollows(env, model, ctx, workDir);
    CreateStepFollows(api, model, ctx, existsInTarget, PublicFlag);
    PushToTargetStepFollows(env, model, ctx, workDir);
    ThenFollows(m, c, ctx, [status], pc);
    ThenFollows(Then(m, c), p, ctx, [status] + pc, ["Pushing"]);
  }

  /**
   * The sync completes exactly when the clone (or every fetch), the
   * repository creation (if needed) and the push (if there are refs) succeed.
   */
  lemma LibGitSyncSucceeds(env: LibGitEnv, api: GithubApi, model: BackupRequest, ctx: RepoContext,
                           workDir: string, existsInTarget: bool)
    ensures var dir := RepoDir(workDir, ctx.repo);
      var local := env.mirrorAt(dir);
      var specs := PushRefSpecs(local.branches, local.tags);
      LibGitSync(env, api, model, ctx, workDir, existsInTarget).failure.None? <==>
        && (if env.onDisk(dir) == Repository
            then forall i :: 0 <= i < |local.remotes| ==> Fetched(dir, local.remotes[i], model.sourceToken, env.fetch).Pass?
            else env.clone(SourceUrl(model, ctx.repo), dir, model.sourceToken).Pass?)
        && (existsInTarget || CreateTargetGithubRepo(api, ctx.repo, model.targetToken, PublicFlag).Pass?)
        && (specs == [] || env.push(dir, TargetUrl(model, ctx.repo), specs, model.targetToken).Pass?)
  {
    var dir := RepoDir(workDir, ctx.repo);
    var local := env.mirrorAt(dir);
    if env.onDisk(dir) == Repository {
      var fetched := FetchAll(dir, local.remotes, model.sourceToken, env.fetch);
      if fetched.failure.Some? {
        var k := |fetched.effects| - 1;
        assert !Fetched(dir, local.remotes[k], model.sourceToken, env.fetch).Pass?;
      }
    }
  }
}
