/**
 * The orchestration both backup services share: the skip decision, what one
 * repository of the loop sends and calls, the loop with its counters, and the
 * whole job from `STARTED` to the one terminal event. Each service's
 * `StartBackupService` is proved to produce `JobTrace` for its transport.
 */
module SyncEngine {
  import opened Wrappers
  import opened SignalR
  import opened GithubCommands
  import opened Effects
  import LibGitMirror
  import GitCliMirror

  /**
   * A transport as the loop sees it: the mirror, create and push work for a
   * repository (given whether it exists in the target), and the status its
   * mirror step announces.
   */
  datatype Transport = Transport(sync: (RepoContext, bool) -> SyncResult, mirrorStatus: string -> string)

  /** Which of the two services runs the job; they report the end of a job differently. */
  datatype Service = GitCliService | LibGitService

  /** One job: its id, the request, the working directory, the hosting API, the service and its transport. */
  datatype Job = Job(jobId: string, model: BackupRequest, workDir: string, api: GithubApi,
                     service: Service, transport: Transport)

  /** The first service's transport: the git command line. */
  function CliTransport(env: GitCliMirror.CliEnv, api: GithubApi, model: BackupRequest, workDir: string): Transport
  {
    Transport((ctx, existsInTarget) => GitCliMirror.CliSync(env, api, model, ctx, workDir, existsInTarget),
              repo => GitCliMirror.MirrorStatus(env.dirExists(RepoDir(workDir, repo))))
  }

  /** The second service's transport: LibGit2Sharp. */
  function LibGitTransport(env: LibGitMirror.LibGitEnv, api: GithubApi, model: BackupRequest, workDir: string): Transport
  {
    Transport((ctx, existsInTarget) => LibGitMirror.LibGitSync(env, api, model, ctx, workDir, existsInTarget),
              repo => LibGitMirror.MirrorStatus(env.onDisk(RepoDir(workDir, repo))))
  }

  /**
   * The contract of a transport: the mirror step announces `Updating` or
   * `Cloning`, and the work follows the plan with the mirror step announced.
   */
  ghost predicate KeepsPlan(t: Transport)
  {
    && (forall repo :: t.mirrorStatus(repo) == "Updating" || t.mirrorStatus(repo) == "Cloning")
    && (forall ctx, existsInTarget ::
          Follows(t.sync(ctx, existsInTarget), ctx, Plan(t.mirrorStatus(ctx.repo), existsInTarget)))
    && (forall ctx, existsInTarget :: Statuses(Sent(t.sync(ctx, existsInTarget).effects)) != [])
  }

  lemma CliTransportKeepsPlan(env: GitCliMirror.CliEnv, api: GithubApi, model: BackupRequest, workDir: string)
    ensures KeepsPlan(CliTransport(env, api, model, workDir))
  {
    var t := CliTransport(env, api, model, workDir);
    forall ctx, existsInTarget
      ensures Follows(t.sync(ctx, existsInTarget), ctx, Plan(t.mirrorStatus(ctx.repo), existsInTarget))
      ensures Statuses(Sent(t.sync(ctx, existsInTarget).effects)) != []
    {
      GitCliMirror.CliSyncFollowsPlan(env, api, model, ctx, workDir, existsInTarget);
    }
    forall repo ensures t.mirrorStatus(repo) == "Updating" || t.mirrorStatus(repo) == "Cloning" {
      assert t.mirrorStatus(repo) == GitCliMirror.MirrorStatus(env.dirExists(RepoDir(workDir, repo)));
    }
  }

  lemma LibGitTransportKeepsPlan(env: LibGitMirror.LibGitEnv, api: GithubApi, model: BackupRequest, workDir: string)
    ensures KeepsPlan(LibGitTransport(env, api, model, workDir))
  {
    var t := LibGitTransport(env, api, model, workDir);
    forall ctx, existsInTarget
      ensures Follows(t.sync(ctx, existsInTarget), ctx, Plan(t.mirrorStatus(ctx.repo), existsInTarget))
      ensures Statuses(Sent(t.sync(ctx, existsInTarget).effects)) != []
    {
      LibGitMirror.LibGitSyncFollowsPlan(env, api, model, ctx, workDir, existsInTarget);
    }
    forall repo ensures t.mirrorStatus(repo) == "Updating" || t.mirrorStatus(repo) == "Cloning" {
      assert t.mirrorStatus(repo) == LibGitMirror.MirrorStatus(env.onDisk(RepoDir(workDir, repo)));
    }
  }

  /** A transport whose work makes no commit lookup and creates the target repository only when it is missing. */
  ghost predicate MirrorsOnly(t: Transport)
  {
    forall ctx, existsInTarget :: MirrorWorkOnly(t.sync(ctx, existsInTarget).effects, !existsInTarget)
  }

  lemma CliTransportMirrorsOnly(env: GitCliMirror.CliEnv, api: GithubApi, model: BackupRequest, workDir: string)
    ensures MirrorsOnly(CliTransport(env, api, model, workDir))
  {
    forall ctx, existsInTarget
      ensures MirrorWorkOnly(CliTransport(env, api, model, workDir).sync(ctx, existsInTarget).effects, !existsInTarget)
    {
      assert CliTransport(env, api, model, workDir).sync(ctx, existsInTarget) ==
             GitCliMirror.CliSync(env, api, model, ctx, workDir, existsInTarget);
    }
  }

  lemma LibGitTransportMirrorsOnly(env: LibGitMirror.LibGitEnv, api: GithubApi, model: BackupRequest, workDir: string)
    ensures MirrorsOnly(LibGitTransport(env, api, model, workDir))
  {
    forall ctx, existsInTarget
      ensures MirrorWorkOnly(LibGitTransport(env, api, model, workDir).sync(ctx, existsInTarget).effects, !existsInTarget)
    {
      assert LibGitTransport(env, api, model, workDir).sync(ctx, existsInTarget) ==
             LibGitMirror.LibGitSync(env, api, model, ctx, workDir, existsInTarget);
    }
  }

  /** What the commit lookup found for a repository. */
  datatype Lookup = NotInTarget | InTarget(source: Option<string>, target: Option<string>)

  /** What the loop does with a repository once it is looked up. */
  datatype Decision = Skip | Mirror(existsInTarget: bool) | LogThrows

  /** The update path logs the first seven characters of each hash it has. */
  const AbbreviatedLength := 7

  /** The message of the exception `Substring(0, 7)` throws on a shorter string. */
  const SubstringOutOfRange := "Index and length must refer to a location within the string. (Parameter 'length')"

  /** `hash?.Substring(0, 7)` returns without throwing: null, or at least seven characters. */
  predicate Abbreviates(hash: Option<string>)
  {
    hash.None? || |hash.value| >= AbbreviatedLength
  }

  /**
   * The skip rule: a repository present in the target is skipped exactly when
   * both latest-commit lookups agree, which includes both of them failing.
   */
  function Decide(l: Lookup): (d: Decision)
    ensures d.Skip? <==> l.InTarget? && l.source == l.target
    ensures d == Mirror(false) <==> l.NotInTarget?
    ensures d == Mirror(true) <==>
      l.InTarget? && l.source != l.target && Abbreviates(l.source) && Abbreviates(l.target)
    ensures d.LogThrows? <==>
      l.InTarget? && l.source != l.target && !(Abbreviates(l.source) && Abbreviates(l.target))
  {
    match l
    case NotInTarget => Mirror(false)
    case InTarget(source, target) =>
      if source == target then Skip
      else if Abbreviates(source) && Abbreviates(target) then Mirror(true)
      else LogThrows
  }

  /** The counters of the loop; `current` counts the repositories begun. */
  datatype Counters = Counters(current: nat, success: nat, failed: nat, skipped: nat)

  predicate Balanced(c: Counters)
  {
    c.success + c.failed + c.skipped == c.current
  }

  datatype RepoOutcome = Skipped | Synced | FailedWith(reason: string)

  /** What one repository of the loop emitted, how it ended, and the counters after it. */
  datatype RepoResult = RepoResult(effects: seq<Effect>, outcome: RepoOutcome, counters: Counters)

  /** The counter the outcome increments. */
  function Count(c: Counters, o: RepoOutcome): (n: Counters)
    ensures n.current == c.current
    ensures n.success + n.failed + n.skipped == c.success + c.failed + c.skipped + 1
    ensures o.Skipped? ==> n.skipped == c.skipped + 1 && n.success == c.success && n.failed == c.failed
    ensures o.Synced? ==> n.success == c.success + 1 && n.failed == c.failed && n.skipped == c.skipped
    ensures o.FailedWith? ==> n.failed == c.failed + 1 && n.success == c.success && n.skipped == c.skipped
  {
    match o
    case Skipped => c.(skipped := c.skipped + 1)
    case Synced => c.(success := c.success + 1)
    case FailedWith(_) => c.(failed := c.failed + 1)
  }

  /** The lookups the loop makes for a repository: both latest commits, only when it is in the target. */
  function LookupOf(job: Job, targetRepos: seq<string>, repo: string): Lookup
  {
    var m := job.model;
    if repo in targetRepos then
      InTarget(GetLatestCommitHash(job.api, m.sourceUser, repo, m.sourceToken),
               GetLatestCommitHash(job.api, m.targetUser, repo, m.targetToken))
    else NotInTarget
  }

  function LookupCalls(job: Job, targetRepos: seq<string>, repo: string): (calls: seq<Effect>)
    ensures |calls| == if repo in targetRepos then 2 else 0
    ensures forall i :: 0 <= i < |calls| ==> calls[i].Io? && calls[i].call.LatestCommit?
  {
    if repo in targetRepos then
      [Io(LatestCommit(CommitsUrl(job.model.sourceUser, repo))),
       Io(LatestCommit(CommitsUrl(job.model.targetUser, repo)))]
    else []
  }

  /** What the try block does after the lookups for a repository it does not skip. */
  function Attempt(job: Job, ctx: RepoContext, d: Decision): (r: SyncResult)
    requires !d.Skip?
    ensures d.LogThrows? ==> Sent(r.effects) == [] && Calls(r.effects) == [] && r.failure.Some?
  {
    if d.LogThrows? then SyncResult([], Some(SubstringOutOfRange)) else job.transport.sync(ctx, d.existsInTarget)
  }

  /** The progress event that closes a repository. */
  function Verdict(ctx: RepoContext, o: RepoOutcome): Effect
  {
    match o
    case Skipped => Announce(ctx, "Skipped", "Already up to date")
    case Synced => Announce(ctx, "Completed")
    case FailedWith(reason) => Announce(ctx, "Failed: " + reason)
  }

  function Summarize(job: Job, c: Counters, total: int): Effect
  {
    Send(SendSummaryUpdate(job.jobId, c.current, total, c.success, c.failed, c.skipped))
  }

  /**
   * One iteration of the loop, after `current` was incremented into `c`:
   * `Processing`, the lookups, the mirror work unless skipped, the verdict and
   * a summary with the updated counters.
   */
  function ProcessRepo(job: Job, targetRepos: seq<string>, total: int, repo: string, c: Counters): (r: RepoResult)
    ensures r.counters == Count(c, r.outcome)
  {
    var ctx := RepoContext(job.jobId, repo, c.current, total);
    var head := [Announce(ctx, "Processing")] + LookupCalls(job, targetRepos, repo);
    var d := Decide(LookupOf(job, targetRepos, repo));
    if d.Skip? then
      var n := Count(c, Skipped);
      RepoResult(head + [Verdict(ctx, Skipped), Summarize(job, n, total)], Skipped, n)
    else
      var a := Attempt(job, ctx, d);
      var o := if a.failure.None? then Synced else FailedWith(a.failure.value);
      var n := Count(c, o);
      RepoResult(head + a.effects + [Verdict(ctx, o), Summarize(job, n, total)], o, n)
  }

  /** A repository is skipped exactly when it is in the target with the same latest commit. */
  lemma SkippedExactlyWhenUpToDate(job: Job, targetRepos: seq<string>, total: int, repo: string, c: Counters)
    ensures var m := job.model;
      ProcessRepo(job, targetRepos, total, repo, c).outcome.Skipped? <==>
        repo in targetRepos &&
        GetLatestCommitHash(job.api, m.sourceUser, repo, m.sourceToken) ==
        GetLatestCommitHash(job.api, m.targetUser, repo, m.targetToken)
  {
  }

  /** A skipped repository makes no call other than the two commit lookups. */
  lemma SkipMakesOnlyLookups(job: Job, targetRepos: seq<string>, total: int, repo: string, c: Counters)
    requires ProcessRepo(job, targetRepos, total, repo, c).outcome.Skipped?
    ensures Calls(ProcessRepo(job, targetRepos, total, repo, c).effects) ==
      [LatestCommit(CommitsUrl(job.model.sourceUser, repo)), LatestCommit(CommitsUrl(job.model.targetUser, repo))]
  {
    var ctx := RepoContext(job.jobId, repo, c.current, total);
    var n := Count(c, Skipped);
    var calls := LookupCalls(job, targetRepos, repo);
    var tail := [Verdict(ctx, Skipped), Summarize(job, n, total)];
    CallsAppend([Announce(ctx, "Processing")], calls);
    CallsAppend([Announce(ctx, "Processing")] + calls, tail);
    assert Calls(tail) == [] by {
      assert tail[1..][1..] == [];
    }
    assert Calls(calls) == [calls[0].call, calls[1].call] by {
      assert calls[1..][1..] == [];
    }
  }

  /**
   * One repository makes commit lookups only when it is in the target
   * listing, and asks to create the target repository only when it is not.
   */
  lemma LookupsAndCreationFollowTarget(job: Job, targetRepos: seq<string>, total: int, repo: string, c: Counters)
    requires MirrorsOnly(job.transport)
    ensures var e := ProcessRepo(job, targetRepos, total, repo, c).effects;
      && (repo !in targetRepos ==> forall i :: 0 <= i < |e| && e[i].Io? ==> !e[i].call.LatestCommit?)
      && (forall i :: 0 <= i < |e| && e[i].Io? && e[i].call.CreateRepo? ==> repo !in targetRepos)
  {
    var ctx := RepoContext(job.jobId, repo, c.current, total);
    var e := ProcessRepo(job, targetRepos, total, repo, c).effects;
    var head := [Announce(ctx, "Processing")] + LookupCalls(job, targetRepos, repo);
    var d := Decide(LookupOf(job, targetRepos, repo));
    assert forall i :: 0 <= i < |head| ==> e[i] == head[i];
    if !d.Skip? {
      var a := Attempt(job, ctx, d);
      if d.Mirror? {
        assert d.existsInTarget == (repo in targetRepos);
        assert MirrorWorkOnly(job.transport.sync(ctx, d.existsInTarget).effects, !d.existsInTarget);
      }
      assert forall i :: |head| <= i < |head| + |a.effects| ==> e[i] == a.effects[i - |head|];
    }
  }

  /** The status of the verdict event. */
  function VerdictStatus(o: RepoOutcome): string
  {
    match o
    case Skipped => "Skipped"
    case Synced => "Completed"
    case FailedWith(reason) => "Failed: " + reason
  }

  /**
   * The statuses one repository is announced with: `Processing`, then nothing
   * for a skip, the whole plan for a success or a prefix of it for a failure,
   * then the verdict.
   */
  predicate RepoStatuses(st: seq<string>, o: RepoOutcome, plan: seq<string>)
  {
    && |st| >= 2
    && st[0] == "Processing"
    && st[|st| - 1] == VerdictStatus(o)
    && (o.Skipped? ==> |st| == 2)
    && (o.Synced? ==> st[1..|st| - 1] == plan)
    && (o.FailedWith? ==> IsPrefix(st[1..|st| - 1], plan))
  }

  lemma LookupCallsIoOnly(job: Job, targetRepos: seq<string>, repo: string)
    ensures IoOnly(LookupCalls(job, targetRepos, repo))
  {
  }

  /** `body` is what the mirror work of a repository sends, given how the repository ended. */
  predicate BodyFits(body: seq<Event>, ctx: RepoContext, o: RepoOutcome, plan: seq<string>)
  {
    && ProgressOf(body, ctx)
    && (o.Skipped? ==> body == [])
    && (o.Synced? ==> Statuses(body) == plan)
    && (o.FailedWith? ==> IsPrefix(Statuses(body), plan))
  }

  /** The events of one iteration's trace: the `Processing` event, the body's events, the last two. */
  lemma RepoSent(ctx: RepoContext, calls: seq<Effect>, body: seq<Effect>, v: Event, summary: Event)
    requires IoOnly(calls)
    ensures Sent([Announce(ctx, "Processing")] + calls + body + [Send(v), Send(summary)]) ==
      [Announce(ctx, "Processing").event] + Sent(body) + [v, summary]
  {
    var p := [Announce(ctx, "Processing")];
    var tail := [Send(v), Send(summary)];
    SentAppend(p, calls);
    SentAppend(p + calls, body);
    SentAppend(p + calls + body, tail);
    SentIoOnly(calls);
    assert Sent(p) == [p[0].event] + Sent(p[1..]);
    assert tail[1..] == [Send(summary)];
    assert Sent(tail) == [v] + Sent(tail[1..]);
    assert Sent(tail[1..]) == [summary] + Sent(tail[1..][1..]);
  }

  /** The progress statuses of an iteration's events. */
  lemma RepoEventsFit(first: Event, b: seq<Event>, v: Event, summary: Event,
                      ctx: RepoContext, o: RepoOutcome, plan: seq<string>)
    requires first == Announce(ctx, "Processing").event && v == Verdict(ctx, o).event
    requires BodyFits(b, ctx, o, plan)
    ensures var ev := [first] + b + [v, summary];
      && |ev| >= 3
      && ProgressOf(ev[..|ev| - 1], ctx)
      && ev[|ev| - 1] == summary
      && RepoStatuses(Statuses(ev[..|ev| - 1]), o, plan)
  {
    var ev := [first] + b + [v, summary];
    assert ev[..|ev| - 1] == [first] + b + [v];
    ProgressOfAppend([first], b, ctx);
    ProgressOfAppend([first] + b, [v], ctx);
    StatusesAppend([first], b);
    StatusesAppend([first] + b, [v]);
    assert Statuses([first]) == [first.payload.progress.status] + Statuses([first][1..]);
    assert Statuses([v]) == [v.payload.progress.status] + Statuses([v][1..]);
    var st := Statuses(ev[..|ev| - 1]);
    assert st == ["Processing"] + Statuses(b) + [VerdictStatus(o)];
    assert st[1..|st| - 1] == Statuses(b);
  }

  /** The events of one iteration, for any mirror work that fits. */
  lemma RepoShape(ctx: RepoContext, calls: seq<Effect>, body: seq<Effect>, o: RepoOutcome, plan: seq<string>,
                  summary: Event)
    requires IoOnly(calls)
    requires BodyFits(Sent(body), ctx, o, plan)
    ensures var ev := Sent([Announce(ctx, "Processing")] + calls + body + [Verdict(ctx, o), Send(summary)]);
      && |ev| >= 3
      && ProgressOf(ev[..|ev| - 1], ctx)
      && ev[|ev| - 1] == summary
      && RepoStatuses(Statuses(ev[..|ev| - 1]), o, plan)
  {
    var v := Verdict(ctx, o);
    assert v == Send(v.event);
    RepoSent(ctx, calls, body, v.event, summary);
    RepoEventsFit(Announce(ctx, "Processing").event, Sent(body), v.event, summary, ctx, o, plan);
  }

  lemma AttemptFits(job: Job, ctx: RepoContext, d: Decision, existsInTarget: bool)
    requires KeepsPlan(job.transport)
    requires !d.Skip? && (d.Mirror? ==> d.existsInTarget == existsInTarget)
    ensures var a := Attempt(job, ctx, d);
      BodyFits(Sent(a.effects), ctx, if a.failure.None? then Synced else FailedWith(a.failure.value),
               Plan(job.transport.mirrorStatus(ctx.repo), existsInTarget))
  {
  }

  /**
   * What one repository sends: progress events of its own position and then
   * one summary with the updated counters; the statuses follow the transport's
   * plan as `RepoStatuses` says.
   */
  lemma ProcessRepoEvents(job: Job, targetRepos: seq<string>, total: int, repo: string, c: Counters)
    requires KeepsPlan(job.transport)
    ensures var r := ProcessRepo(job, targetRepos, total, repo, c);
      var ctx := RepoContext(job.jobId, repo, c.current, total);
      var ev := Sent(r.effects);
      && |ev| >= 3
      && ProgressOf(ev[..|ev| - 1], ctx)
      && ev[|ev| - 1] == SendSummaryUpdate(job.jobId, c.current, total,
                                           r.counters.success, r.counters.failed, r.counters.skipped)
      && RepoStatuses(Statuses(ev[..|ev| - 1]), r.outcome, Plan(job.transport.mirrorStatus(repo), repo in targetRepos))
  {
    var r := ProcessRepo(job, targetRepos, total, repo, c);
    var ctx := RepoContext(job.jobId, repo, c.current, total);
    var calls := LookupCalls(job, targetRepos, repo);
    var d := Decide(LookupOf(job, targetRepos, repo));
    var plan := Plan(job.transport.mirrorStatus(repo), repo in targetRepos);
    var summary := SendSummaryUpdate(job.jobId, c.current, total,
                                     r.counters.success, r.counters.failed, r.counters.skipped);
    LookupCallsIoOnly(job, targetRepos, repo);
    if d.Skip? {
      assert r.effects == [Announce(ctx, "Processing")] + calls + [] + [Verdict(ctx, r.outcome), Send(summary)];
      RepoShape(ctx, calls, [], r.outcome, plan, summary);
    } else {
      var a := Attempt(job, ctx, d);
      assert r.effects == [Announce(ctx, "Processing")] + calls + a.effects + [Verdict(ctx, r.outcome), Send(summary)];
      AttemptFits(job, ctx, d, repo in targetRepos);
      RepoShape(ctx, calls, a.effects, r.outcome, plan, summary);
    }
  }

  /** The repositories of the `Processing` events among `events`, in order. */
  function Processed(events: seq<Event>): (repos: seq<string>)
    ensures |repos| <= |events|
  {
    if events == [] then []
    else
      var e := events[0];
      var head := if e.payload.ProgressPayload? && e.payload.progress.status == "Processing"
                  then [e.payload.progress.repo] else [];
      head + Processed(events[1..])
  }

  /** The summaries among `events`, in order. */
  function Summaries(events: seq<Event>): (summaries: seq<Summary>)
    ensures |summaries| <= |events|
  {
    if events == [] then []
    else (if events[0].payload.SummaryPayload? then [events[0].payload.summary] else []) + Summaries(events[1..])
  }

  lemma {:induction false} ProcessedAppend(a: seq<Event>, b: seq<Event>)
    ensures Processed(a + b) == Processed(a) + Processed(b)
  {
    if a == [] {
      assert a + b == b;
    } else {
      var e := a[0];
      var head := if e.payload.ProgressPayload? && e.payload.progress.status == "Processing"
                  then [e.payload.progress.repo] else [];
      assert (a + b)[0] == a[0];
      assert (a + b)[1..] == a[1..] + b;
      assert Processed(a + b) == head + Processed(a[1..] + b);
      ProcessedAppend(a[1..], b);
      Associative(head, Processed(a[1..]), Processed(b));
    }
  }

  lemma {:induction false} SummariesAppend(a: seq<Event>, b: seq<Event>)
    ensures Summaries(a + b) == Summaries(a) + Summaries(b)
  {
    if a == [] {
      assert a + b == b;
    } else {
      var head := if a[0].payload.SummaryPayload? then [a[0].payload.summary] else [];
      assert (a + b)[0] == a[0];
      assert (a + b)[1..] == a[1..] + b;
      assert Summaries(a + b) == head + Summaries(a[1..] + b);
      SummariesAppend(a[1..], b);
      Associative(head, Summaries(a[1..]), Summaries(b));
    }
  }

  /** Progress events carry no summary, and no `Processing` event unless one of their statuses says so. */
  lemma {:induction false} ProgressOnly(es: seq<Event>, ctx: RepoContext)
    requires ProgressOf(es, ctx)
    ensures Summaries(es) == []
    ensures "Processing" !in Statuses(es) ==> Processed(es) == []
  {
    if es != [] {
      assert forall i :: 0 <= i < |es| - 1 ==> es[1..][i] == es[i + 1];
      ProgressOnly(es[1..], ctx);
    }
  }

  predicate NoTerminal(events: seq<Event>)
  {
    forall i :: 0 <= i < |events| ==> !IsTerminal(events[i])
  }

  /** Only the first status of an iteration is `Processing`. */
  lemma ProcessingOnlyFirst(st: seq<string>, o: RepoOutcome, plan: seq<string>)
    requires RepoStatuses(st, o, plan) && "Processing" !in plan
    ensures "Processing" !in st[1..]
  {
    var mid := st[1..|st| - 1];
    assert st[1..] == mid + [st[|st| - 1]];
    if o.FailedWith? {
      assert mid == plan[..|mid|];
      assert st[|st| - 1][0] == 'F';
    }
  }

  /** Progress events of one repository whose first status alone is `Processing`. */
  lemma ProgressProcessedOnce(progress: seq<Event>, ctx: RepoContext)
    requires |progress| >= 1 && ProgressOf(progress, ctx)
    requires Statuses(progress)[0] == "Processing" && "Processing" !in Statuses(progress)[1..]
    ensures Processed(progress) == [ctx.repo]
    ensures Summaries(progress) == []
  {
    var rest := progress[1..];
    assert ProgressOf(rest, ctx) by {
      assert forall i :: 0 <= i < |rest| ==> rest[i] == progress[i + 1];
    }
    assert Statuses(progress) == [progress[0].payload.progress.status] + Statuses(rest);
    ProgressOnly(rest, ctx);
    ProgressOnly(progress, ctx);
    assert Processed(progress) == [ctx.repo] + Processed(rest);
  }

  /** The projections of the events of one iteration, for any events of that shape. */
  lemma ShapeProjections(progress: seq<Event>, last: Event, ctx: RepoContext, o: RepoOutcome, plan: seq<string>)
    requires |progress| >= 2 && ProgressOf(progress, ctx) && last.payload.SummaryPayload?
    requires RepoStatuses(Statuses(progress), o, plan) && "Processing" !in plan
    ensures Processed(progress + [last]) == [ctx.repo]
    ensures Summaries(progress + [last]) == [last.payload.summary]
    ensures NoTerminal(progress + [last])
  {
    ProcessingOnlyFirst(Statuses(progress), o, plan);
    ProgressProcessedOnce(progress, ctx);
    ProcessedAppend(progress, [last]);
    SummariesAppend(progress, [last]);
    assert Summaries([last]) == [last.payload.summary] + Summaries([last][1..]);
    assert Processed([last]) == [] + Processed([last][1..]);
    assert forall i :: 0 <= i < |progress| ==> (progress + [last])[i] == progress[i];
  }

  /** What one repository sends, projected: it is processed once, summarized once and never terminal. */
  lemma ProcessRepoProjections(job: Job, targetRepos: seq<string>, total: int, repo: string, c: Counters)
    requires KeepsPlan(job.transport)
    ensures var r := ProcessRepo(job, targetRepos, total, repo, c);
      var ev := Sent(r.effects);
      && Processed(ev) == [repo]
      && Summaries(ev) == [Summary(c.current, total, r.counters.success, r.counters.failed, r.counters.skipped,
                                   if total > 0 then TruncatedRatio(c.current, total) else NoTotal)]
      && NoTerminal(ev)
  {
    var r := ProcessRepo(job, targetRepos, total, repo, c);
    var ctx := RepoContext(job.jobId, repo, c.current, total);
    ProcessRepoEvents(job, targetRepos, total, repo, c);
    var ev := Sent(r.effects);
    var progress, last := ev[..|ev| - 1], ev[|ev| - 1];
    assert ev == progress + [last];
    ShapeProjections(progress, last, ctx, r.outcome, Plan(job.transport.mirrorStatus(repo), repo in targetRepos));
  }

  /** The effects of the loop so far and its counters. */
  datatype LoopState = LoopState(effects: seq<Effect>, counters: Counters)

  /** One iteration of the loop: the repository and the counters after `current` was incremented. */
  type Iteration = (string, Counters) -> RepoResult

  /** Each repository in order, with `current` incremented before its iteration. */
  function Loop(step: Iteration, repos: seq<string>): LoopState
    decreases |repos|
  {
    if repos == [] then LoopState([], Counters(0, 0, 0, 0))
    else
      var prev := Loop(step, repos[..|repos| - 1]);
      var r := step(repos[|repos| - 1], prev.counters.(current := prev.counters.current + 1));
      LoopState(prev.effects + r.effects, r.counters)
  }

  /** The loop over the first `i + 1` repositories is the loop over the first `i`, then one iteration. */
  lemma LoopNext(step: Iteration, repos: seq<string>, i: nat)
    requires i < |repos|
    ensures var prev := Loop(step, repos[..i]);
      var r := step(repos[i], prev.counters.(current := prev.counters.current + 1));
      Loop(step, repos[..i + 1]) == LoopState(prev.effects + r.effects, r.counters)
  {
    assert repos[..i + 1][..i] == repos[..i];
  }

  function Iterate(job: Job, targetRepos: seq<string>, total: int): Iteration
  {
    (repo, c) => ProcessRepo(job, targetRepos, total, repo, c)
  }

  /** The loop over the source listing. */
  function ProcessAll(job: Job, targetRepos: seq<string>, total: int, repos: seq<string>): (s: LoopState)
    ensures s.counters.current == |repos| && Balanced(s.counters)
  {
    LoopCounts(job, targetRepos, total, repos);
    Loop(Iterate(job, targetRepos, total), repos)
  }

  /** Every repository of the listing is counted once, under exactly one outcome. */
  lemma {:induction false} LoopCounts(job: Job, targetRepos: seq<string>, total: int, repos: seq<string>)
    ensures var s := Loop(Iterate(job, targetRepos, total), repos);
      s.counters.current == |repos| && Balanced(s.counters)
    decreases |repos|
  {
    if repos != [] {
      LoopCounts(job, targetRepos, total, repos[..|repos| - 1]);
    }
  }

  /** The summary sent after the `i`-th repository (from 0) has counted `i + 1` repositories. */
  predicate SummaryAfter(sm: Summary, i: int, total: int)
  {
    sm.current == i + 1 && sm.total == total && sm.success + sm.failed + sm.skipped == i + 1
  }

  /** What an iteration for `repo` from counters `c` must send and count. */
  predicate IterationReports(r: RepoResult, repo: string, c: Counters, total: int)
  {
    var ev := Sent(r.effects);
    && r.counters == Count(c, r.outcome)
    && Processed(ev) == [repo]
    && SummarizesOnce(r, c, total)
    && NoTerminal(ev)
  }

  /** The loop's observable behaviour, for any iteration that reports as `IterationReports` says. */
  predicate LoopReports(s: LoopState, repos: seq<string>, total: int)
  {
    var ev := Sent(s.effects);
    && s.counters.current == |repos| && Balanced(s.counters)
    && Processed(ev) == repos
    && NoTerminal(ev)
    && SummariesAfter(Summaries(ev), |repos|, s.counters, total)
  }

  lemma NoTerminalAppend(a: seq<Event>, b: seq<Event>)
    requires NoTerminal(a) && NoTerminal(b)
    ensures NoTerminal(a + b)
  {
    assert forall i :: |a| <= i < |a + b| ==> (a + b)[i] == b[i - |a|];
  }

  /** `events` process exactly `repos`, in order, and contain no terminal event. */
  predicate ProcessesInOrder(events: seq<Event>, repos: seq<string>)
  {
    Processed(events) == repos && NoTerminal(events)
  }

  lemma {:induction false} LoopProcessed(step: Iteration, repos: seq<string>)
    requires forall repo, c :: ProcessesInOrder(Sent(step(repo, c).effects), [repo])
    ensures ProcessesInOrder(Sent(Loop(step, repos).effects), repos)
    decreases |repos|
  {
    if repos != [] {
      var init := repos[..|repos| - 1];
      var repo := repos[|repos| - 1];
      var prev := Loop(step, init);
      var r := step(repo, prev.counters.(current := prev.counters.current + 1));
      LoopProcessed(step, init);
      assert ProcessesInOrder(Sent(r.effects), [repo]);
      assert init + [repo] == repos;
      ProcessedNext(prev.effects, r.effects, init, repo);
      assert Loop(step, repos) == LoopState(prev.effects + r.effects, r.counters);
    } else {
      assert Loop(step, repos) == LoopState([], Counters(0, 0, 0, 0));
    }
  }

  lemma ProcessedNext(before: seq<Effect>, added: seq<Effect>, init: seq<string>, repo: string)
    requires ProcessesInOrder(Sent(before), init)
    requires ProcessesInOrder(Sent(added), [repo])
    ensures ProcessesInOrder(Sent(before + added), init + [repo])
  {
    SentAppend(before, added);
    ProcessedAppend(Sent(before), Sent(added));
    NoTerminalAppend(Sent(before), Sent(added));
  }

  /** The summary an iteration from counters `c` sends. */
  predicate SummarizesOnce(r: RepoResult, c: Counters, total: int)
  {
    var sums := Summaries(Sent(r.effects));
    && |sums| == 1
    && sums[0].current == c.current && sums[0].total == total
    && sums[0].success == r.counters.success && sums[0].failed == r.counters.failed
    && sums[0].skipped == r.counters.skipped
  }

  /** The summaries the loop has sent after `n` repositories, with the last one matching the counters. */
  predicate SummariesAfter(sums: seq<Summary>, n: nat, counters: Counters, total: int)
  {
    && |sums| == n
    && (forall i :: 0 <= i < n ==> SummaryAfter(sums[i], i, total))
    && (n > 0 ==>
          sums[n - 1].current == counters.current &&
          sums[n - 1].success == counters.success && sums[n - 1].failed == counters.failed &&
          sums[n - 1].skipped == counters.skipped)
  }

  /** The counters agree with the summaries sent so far. */
  lemma CountsFromSummaries(sums: seq<Summary>, n: nat, counters: Counters, total: int)
    requires SummariesAfter(sums, n, counters, total)
    requires n == 0 ==> counters == Counters(0, 0, 0, 0)
    ensures counters.current == n && Balanced(counters)
  {
    if n > 0 {
      assert SummaryAfter(sums[n - 1], n - 1, total);
    }
  }

  /** An iteration that counts its outcome and sends one summary of the new counters. */
  predicate CountsAndSummarizes(r: RepoResult, c: Counters, total: int)
  {
    r.counters == Count(c, r.outcome) && SummarizesOnce(r, c, total)
  }

  lemma SummariesStep(before: seq<Summary>, n: nat, prev: Counters, r: RepoResult, total: int)
    requires SummariesAfter(before, n, prev, total)
    requires n == 0 ==> prev == Counters(0, 0, 0, 0)
    requires CountsAndSummarizes(r, prev.(current := prev.current + 1), total)
    ensures SummariesAfter(before + Summaries(Sent(r.effects)), n + 1, r.counters, total)
  {
    CountsFromSummaries(before, n, prev, total);
    var added := Summaries(Sent(r.effects));
    var sums := before + added;
    assert SummaryAfter(added[0], n, total);
    assert forall i :: 0 <= i < n ==> sums[i] == before[i];
    assert sums[n] == added[0];
  }

  lemma LoopSummariesNext(prev: LoopState, r: RepoResult, n: nat, total: int)
    requires SummariesAfter(Summaries(Sent(prev.effects)), n, prev.counters, total)
    requires n == 0 ==> prev.counters == Counters(0, 0, 0, 0)
    requires CountsAndSummarizes(r, prev.counters.(current := prev.counters.current + 1), total)
    ensures SummariesAfter(Summaries(Sent(prev.effects + r.effects)), n + 1, r.counters, total)
  {
    SentAppend(prev.effects, r.effects);
    SummariesAppend(Sent(prev.effects), Sent(r.effects));
    SummariesStep(Summaries(Sent(prev.effects)), n, prev.counters, r, total);
  }

  lemma {:induction false} LoopSummaries(step: Iteration, total: int, repos: seq<string>)
    requires forall repo, c :: CountsAndSummarizes(step(repo, c), c, total)
    ensures SummariesAfter(Summaries(Sent(Loop(step, repos).effects)), |repos|, Loop(step, repos).counters, total)
    decreases |repos|
  {
    if repos != [] {
      var init := repos[..|repos| - 1];
      var prev := Loop(step, init);
      var r := step(repos[|repos| - 1], prev.counters.(current := prev.counters.current + 1));
      LoopSummaries(step, total, init);
      assert init == [] ==> prev.counters == Counters(0, 0, 0, 0);
      LoopSummariesNext(prev, r, |init|, total);
      assert Loop(step, repos) == LoopState(prev.effects + r.effects, r.counters);
    } else {
      assert Loop(step, repos) == LoopState([], Counters(0, 0, 0, 0));
    }
  }

  lemma LoopReportsAll(step: Iteration, total: int, repos: seq<string>)
    requires forall repo, c :: IterationReports(step(repo, c), repo, c, total)
    ensures LoopReports(Loop(step, repos), repos, total)
  {
    forall repo, c ensures CountsAndSummarizes(step(repo, c), c, total) {
      assert IterationReports(step(repo, c), repo, c, total);
    }
    forall repo, c ensures ProcessesInOrder(Sent(step(repo, c).effects), [repo]) {
      assert IterationReports(step(repo, c), repo, c, total);
    }
    LoopProcessed(step, repos);
    LoopSummaries(step, total, repos);
    var s := Loop(step, repos);
    assert repos == [] ==> s.counters == Counters(0, 0, 0, 0);
    CountsFromSummaries(Summaries(Sent(s.effects)), |repos|, s.counters, total);
  }

  /**
   * The loop processes the source repositories in listing order, sends one
   * summary per repository, each with one more repository counted, the last
   * one with the final counters, and sends no terminal event.
   */
  lemma LoopEvents(job: Job, targetRepos: seq<string>, total: int, repos: seq<string>)
    requires KeepsPlan(job.transport)
    ensures LoopReports(ProcessAll(job, targetRepos, total, repos), repos, total)
  {
    var step := Iterate(job, targetRepos, total);
    forall repo, c
      ensures IterationReports(step(repo, c), repo, c, total)
    {
      ProcessRepoProjections(job, targetRepos, total, repo, c);
    }
    LoopReportsAll(step, total, repos);
  }

  /** Both commit lookups of `repo` agree and it is in the target. */
  predicate UpToDate(job: Job, targetRepos: seq<string>, repo: string)
  {
    var m := job.model;
    repo in targetRepos &&
    GetLatestCommitHash(job.api, m.sourceUser, repo, m.sourceToken) ==
    GetLatestCommitHash(job.api, m.targetUser, repo, m.targetToken)
  }

  /** An iteration that skips: it counts a skip and its only calls are commit lookups. */
  predicate SkipsWithLookups(r: RepoResult, c: Counters)
  {
    && r.counters == c.(skipped := c.skipped + 1)
    && forall k :: 0 <= k < |Calls(r.effects)| ==> Calls(r.effects)[k].LatestCommit?
  }

  lemma {:induction false} LoopAllSkipped(step: Iteration, repos: seq<string>, skip: iset<string>)
    requires forall k :: 0 <= k < |repos| ==> repos[k] in skip
    requires forall repo, c :: repo in skip ==> SkipsWithLookups(step(repo, c), c)
    ensures Loop(step, repos).counters == Counters(|repos|, 0, 0, |repos|)
    ensures var calls := Calls(Loop(step, repos).effects);
      forall k :: 0 <= k < |calls| ==> calls[k].LatestCommit?
    decreases |repos|
  {
    if repos != [] {
      var init := repos[..|repos| - 1];
      var prev := Loop(step, init);
      var c := prev.counters.(current := prev.counters.current + 1);
      LoopAllSkipped(step, init, skip);
      var r := step(repos[|repos| - 1], c);
      assert SkipsWithLookups(r, c);
      CallsAppend(prev.effects, r.effects);
    }
  }

  /** When every repository is up to date, all are skipped and only commit lookups are made. */
  lemma LoopAllUpToDate(job: Job, targetRepos: seq<string>, total: int, repos: seq<string>)
    requires forall k :: 0 <= k < |repos| ==> UpToDate(job, targetRepos, repos[k])
    ensures var s := ProcessAll(job, targetRepos, total, repos);
      && s.counters == Counters(|repos|, 0, 0, |repos|)
      && forall k :: 0 <= k < |Calls(s.effects)| ==> Calls(s.effects)[k].LatestCommit?
  {
    var step := Iterate(job, targetRepos, total);
    var skip := iset repo | UpToDate(job, targetRepos, repo);
    forall repo, c | repo in skip
      ensures SkipsWithLookups(step(repo, c), c)
    {
      SkippedExactlyWhenUpToDate(job, targetRepos, total, repo, c);
      SkipMakesOnlyLookups(job, targetRepos, total, repo, c);
    }
    LoopAllSkipped(step, repos, skip);
  }

  /** The `COMPLETED` status message. */
  function CompletedMessage(c: Counters): string
  {
    "Backup finished - " + NatToString(c.success) + " successful, " + NatToString(c.failed) +
    " failed, " + NatToString(c.skipped) + " skipped"
  }

  /**
   * The `BackupFinished` event: the second service sends it through
   * `SendFinishUpdate`, the first builds the same payload inline.
   */
  function FinishedEvent(job: Job, total: int, c: Counters): (e: Event)
    ensures e == SendFinishUpdate(job.jobId, total, c.success, c.failed, c.skipped)
  {
    match job.service
    case GitCliService => Event(job.jobId, FinishedPayload(total, c.success, c.failed, c.skipped, FinishedMessage))
    case LibGitService => SendFinishUpdate(job.jobId, total, c.success, c.failed, c.skipped)
  }

  /**
   * The `BackupError` event: the first service sends it to the job's group;
   * the second passes no job id to `SendFinishUpdate`, so it goes to the
   * group named by the empty string.
   */
  function ErrorEvent(job: Job, message: string): (e: Event)
    ensures e.payload == ErrorPayload(ErrorMessage, message) && IsTerminal(e)
    ensures e.group == if job.service == LibGitService then "" else job.jobId
  {
    match job.service
    case GitCliService => Event(job.jobId, ErrorPayload(ErrorMessage, message))
    case LibGitService => SendFinishUpdate(isError := true, ex := message)
  }

  function StartedEvent(job: Job): Event
  {
    SendStatusUpdate(job.jobId, "STARTED", "Backup process started")
  }

  function ListingCall(user: string, token: string): Effect
  {
    Io(ListRepos(ListingUrl(user, token)))
  }

  /** The `COMPLETED` status update, then `BackupFinished`. */
  function Finale(job: Job, total: int, c: Counters): seq<Effect>
  {
    [Send(SendStatusUpdate(job.jobId, "COMPLETED", CompletedMessage(c))), Send(FinishedEvent(job, total, c))]
  }

  /**
   * A whole job: `STARTED`, the two listings (a failing one ends the job with
   * the error event), the loop, `COMPLETED` and `BackupFinished`.
   */
  function JobTrace(job: Job): (trace: seq<Effect>)
    ensures |trace| >= 3
    ensures trace[0] == Send(StartedEvent(job))
    ensures trace[1] == ListingCall(job.model.sourceUser, job.model.sourceToken)
  {
    var m := job.model;
    var head := [Send(StartedEvent(job)), ListingCall(m.sourceUser, m.sourceToken)];
    var source := GetGithubRepos(job.api, m.sourceUser, m.sourceToken);
    if source.Failure? then head + [Send(ErrorEvent(job, source.error))]
    else
      var target := GetGithubRepos(job.api, m.targetUser, m.targetToken);
      var listed := head + [ListingCall(m.targetUser, m.targetToken)];
      if target.Failure? then listed + [Send(ErrorEvent(job, target.error))]
      else
        var total := |source.value|;
        var loop := ProcessAll(job, target.value, total, source.value);
        listed + loop.effects + Finale(job, total, loop.counters)
  }

  /** The trace of a job whose two listings succeeded, spelled out. */
  lemma ListedJobTrace(job: Job, sourceRepos: seq<string>, targetRepos: seq<string>)
    requires GetGithubRepos(job.api, job.model.sourceUser, job.model.sourceToken) == Success(sourceRepos)
    requires GetGithubRepos(job.api, job.model.targetUser, job.model.targetToken) == Success(targetRepos)
    ensures var loop := ProcessAll(job, targetRepos, |sourceRepos|, sourceRepos);
      JobTrace(job) ==
        [Send(StartedEvent(job))] + [ListingCall(job.model.sourceUser, job.model.sourceToken)] +
        [ListingCall(job.model.targetUser, job.model.targetToken)] + loop.effects +
        Finale(job, |sourceRepos|, loop.counters)
  {
    var m := job.model;
    assert [Send(StartedEvent(job)), ListingCall(m.sourceUser, m.sourceToken)] ==
           [Send(StartedEvent(job))] + [ListingCall(m.sourceUser, m.sourceToken)];
  }

  /** The trace of a job whose source listing failed. */
  lemma SourceFailedTrace(job: Job)
    requires GetGithubRepos(job.api, job.model.sourceUser, job.model.sourceToken).Failure?
    ensures JobTrace(job) ==
      [Send(StartedEvent(job))] + [ListingCall(job.model.sourceUser, job.model.sourceToken)] +
      [Send(ErrorEvent(job, GetGithubRepos(job.api, job.model.sourceUser, job.model.sourceToken).error))]
  {
  }

  /** The trace of a job whose target listing failed. */
  lemma TargetFailedTrace(job: Job)
    requires GetGithubRepos(job.api, job.model.sourceUser, job.model.sourceToken).Success?
    requires GetGithubRepos(job.api, job.model.targetUser, job.model.targetToken).Failure?
    ensures JobTrace(job) ==
      [Send(StartedEvent(job))] + [ListingCall(job.model.sourceUser, job.model.sourceToken)] +
      [ListingCall(job.model.targetUser, job.model.targetToken)] +
      [Send(ErrorEvent(job, GetGithubRepos(job.api, job.model.targetUser, job.model.targetToken).error))]
  {
  }

  /** A job cut short: `STARTED`, one or two listing calls, and the error. */
  lemma CutShortSent(started: Event, calls: seq<Call>, error: Event)
    requires 1 <= |calls| <= 2
    ensures var io := if |calls| == 1 then [Io(calls[0])] else [Io(calls[0]), Io(calls[1])];
      && Sent([Send(started)] + io + [Send(error)]) == [started, error]
      && Calls([Send(started)] + io + [Send(error)]) == calls
  {
    var io := if |calls| == 1 then [Io(calls[0])] else [Io(calls[0]), Io(calls[1])];
    if |calls| == 2 {
      assert io[1..][1..] == [];
    }
    assert Sent(io) == [];
    FramedIo(started, io, [Send(error)]);
    assert Sent([Send(error)]) == [error];
    assert Calls([Send(error)]) == [];
  }

  /** `STARTED`, then calls only, then the rest of a trace. */
  lemma FramedIo(started: Event, io: seq<Effect>, rest: seq<Effect>)
    requires Sent(io) == []
    ensures Sent([Send(started)] + io + rest) == [started] + Sent(rest)
    ensures Calls([Send(started)] + io + rest) == Calls(io) + Calls(rest)
  {
    var first := [Send(started)];
    var t := first + io + rest;
    assert t == first + (io + rest);
    assert t[0] == Send(started) && t[1..] == io + rest;
    SentAppend(io, rest);
    CallsAppend(io, rest);
  }

  /** A listed job: `STARTED`, both listing calls, the loop, then two closing events. */
  lemma ListedSent(started: Event, source: Call, target: Call, body: seq<Effect>, completed: Event, finished: Event)
    ensures var t := [Send(started), Io(source), Io(target)] + body + [Send(completed), Send(finished)];
      && Sent(t) == [started] + Sent(body) + [completed, finished]
      && Calls(t) == [source, target] + Calls(body)
  {
    var io := [Io(source), Io(target)];
    var tail := [Send(completed), Send(finished)];
    assert [Send(started), Io(source), Io(target)] + body + tail == [Send(started)] + io + (body + tail);
    assert io[1..][1..] == [];
    assert Sent(io) == [];
    FramedIo(started, io, body + tail);
    SentAppend(body, tail);
    CallsAppend(body, tail);
    assert tail[1..][1..] == [];
  }

  /**
   * Framing the loop's events between `STARTED` and the two closing events
   * keeps its processed repositories and summaries, and the last event is the
   * only terminal one.
   */
  lemma FramedReports(started: Event, body: seq<Event>, completed: Event, finished: Event,
                      repos: seq<string>, total: int, c: Counters)
    requires started.payload.StatusPayload? && completed.payload.StatusPayload?
    requires finished.payload.FinishedPayload?
    requires Processed(body) == repos && NoTerminal(body)
    requires SummariesAfter(Summaries(body), |repos|, c, total)
    ensures var ev := [started] + body + [completed, finished];
      && Processed(ev) == repos
      && SummariesAfter(Summaries(ev), |repos|, c, total)
      && ev[|ev| - 2] == completed && ev[|ev| - 1] == finished
      && IsTerminal(ev[|ev| - 1])
      && forall i :: 0 <= i < |ev| - 1 ==> !IsTerminal(ev[i])
  {
    var tail := [completed, finished];
    ProcessedAppend([started], body);
    ProcessedAppend([started] + body, tail);
    SummariesAppend([started], body);
    SummariesAppend([started] + body, tail);
    assert Processed([started]) == [] + Processed([started][1..]);
    assert Summaries([started]) == [] + Summaries([started][1..]);
    assert tail[1..][1..] == [];
    var ev := [started] + body + tail;
    assert forall i :: 1 <= i < 1 + |body| ==> ev[i] == body[i - 1];
  }

  /** A listing that fails ends the job at once: no repository is processed and the error is the last event. */
  lemma ListingFailureEndsJob(job: Job)
    ensures var m := job.model;
      var source := GetGithubRepos(job.api, m.sourceUser, m.sourceToken);
      var target := GetGithubRepos(job.api, m.targetUser, m.targetToken);
      (source.Failure? || target.Failure?) ==>
        && Sent(JobTrace(job)) ==
             [StartedEvent(job), ErrorEvent(job, if source.Failure? then source.error else target.error)]
        && Calls(JobTrace(job)) ==
             [ListRepos(ListingUrl(m.sourceUser, m.sourceToken))] +
             (if source.Failure? then [] else [ListRepos(ListingUrl(m.targetUser, m.targetToken))])
  {
    var m := job.model;
    if GetGithubRepos(job.api, m.sourceUser, m.sourceToken).Failure? {
      SourceListingFails(job);
    } else if GetGithubRepos(job.api, m.targetUser, m.targetToken).Failure? {
      TargetListingFails(job);
    }
  }

  lemma SourceListingFails(job: Job)
    requires GetGithubRepos(job.api, job.model.sourceUser, job.model.sourceToken).Failure?
    ensures var m := job.model;
      && Sent(JobTrace(job)) ==
           [StartedEvent(job), ErrorEvent(job, GetGithubRepos(job.api, m.sourceUser, m.sourceToken).error)]
      && Calls(JobTrace(job)) == [ListRepos(ListingUrl(m.sourceUser, m.sourceToken))]
  {
    var m := job.model;
    var sourceCall := ListRepos(ListingUrl(m.sourceUser, m.sourceToken));
    var error := ErrorEvent(job, GetGithubRepos(job.api, m.sourceUser, m.sourceToken).error);
    assert JobTrace(job) == [Send(StartedEvent(job))] + [Io(sourceCall)] + [Send(error)];
    CutShortSent(StartedEvent(job), [sourceCall], error);
  }

  lemma TargetListingFails(job: Job)
    requires GetGithubRepos(job.api, job.model.sourceUser, job.model.sourceToken).Success?
    requires GetGithubRepos(job.api, job.model.targetUser, job.model.targetToken).Failure?
    ensures var m := job.model;
      && Sent(JobTrace(job)) ==
           [StartedEvent(job), ErrorEvent(job, GetGithubRepos(job.api, m.targetUser, m.targetToken).error)]
      && Calls(JobTrace(job)) ==
           [ListRepos(ListingUrl(m.sourceUser, m.sourceToken)), ListRepos(ListingUrl(m.targetUser, m.targetToken))]
  {
    var m := job.model;
    var sourceCall := ListRepos(ListingUrl(m.sourceUser, m.sourceToken));
    var targetCall := ListRepos(ListingUrl(m.targetUser, m.targetToken));
    var error := ErrorEvent(job, GetGithubRepos(job.api, m.targetUser, m.targetToken).error);
    assert JobTrace(job) == [Send(StartedEvent(job))] + [Io(sourceCall), Io(targetCall)] + [Send(error)];
    CutShortSent(StartedEvent(job), [sourceCall, targetCall], error);
  }

  /** The events and calls of a job whose two listings succeeded. */
  lemma ListedJobSent(job: Job, sourceRepos: seq<string>, targetRepos: seq<string>)
    requires GetGithubRepos(job.api, job.model.sourceUser, job.model.sourceToken) == Success(sourceRepos)
    requires GetGithubRepos(job.api, job.model.targetUser, job.model.targetToken) == Success(targetRepos)
    ensures var loop := ProcessAll(job, targetRepos, |sourceRepos|, sourceRepos);
      && Sent(JobTrace(job)) ==
           [StartedEvent(job)] + Sent(loop.effects) +
           [SendStatusUpdate(job.jobId, "COMPLETED", CompletedMessage(loop.counters)),
            FinishedEvent(job, |sourceRepos|, loop.counters)]
      && Calls(JobTrace(job)) ==
           [ListRepos(ListingUrl(job.model.sourceUser, job.model.sourceToken)),
            ListRepos(ListingUrl(job.model.targetUser, job.model.targetToken))] + Calls(loop.effects)
  {
    var m := job.model;
    var loop := ProcessAll(job, targetRepos, |sourceRepos|, sourceRepos);
    var started := StartedEvent(job);
    var sourceCall := ListRepos(ListingUrl(m.sourceUser, m.sourceToken));
    var targetCall := ListRepos(ListingUrl(m.targetUser, m.targetToken));
    var completed := SendStatusUpdate(job.jobId, "COMPLETED", CompletedMessage(loop.counters));
    var finished := FinishedEvent(job, |sourceRepos|, loop.counters);
    ListedJobTrace(job, sourceRepos, targetRepos);
    assert [Send(started)] + [Io(sourceCall)] + [Io(targetCall)] == [Send(started), Io(sourceCall), Io(targetCall)];
    ListedSent(started, sourceCall, targetCall, loop.effects, completed, finished);
  }

  /**
   * A job whose listings succeed processes the source repositories in listing
   * order and finishes with counts that add up to the number of source
   * repositories, the same counts its `COMPLETED` message and its last summary
   * report.
   */
  lemma ListedJobReports(job: Job, sourceRepos: seq<string>, targetRepos: seq<string>)
    requires KeepsPlan(job.transport)
    requires GetGithubRepos(job.api, job.model.sourceUser, job.model.sourceToken) == Success(sourceRepos)
    requires GetGithubRepos(job.api, job.model.targetUser, job.model.targetToken) == Success(targetRepos)
    ensures var ev := Sent(JobTrace(job));
      var c := ProcessAll(job, targetRepos, |sourceRepos|, sourceRepos).counters;
      && Processed(ev) == sourceRepos
      && SummariesAfter(Summaries(ev), |sourceRepos|, c, |sourceRepos|)
      && |ev| >= 2
      && ev[|ev| - 2] == SendStatusUpdate(job.jobId, "COMPLETED", CompletedMessage(c))
      && ev[|ev| - 1].payload == FinishedPayload(|sourceRepos|, c.success, c.failed, c.skipped, FinishedMessage)
      && c.success + c.failed + c.skipped == |sourceRepos|
      && EndsWithOneTerminal(ev)
  {
    var loop := ProcessAll(job, targetRepos, |sourceRepos|, sourceRepos);
    ListedJobSent(job, sourceRepos, targetRepos);
    LoopEvents(job, targetRepos, |sourceRepos|, sourceRepos);
    FramedReports(StartedEvent(job), Sent(loop.effects),
                  SendStatusUpdate(job.jobId, "COMPLETED", CompletedMessage(loop.counters)),
                  FinishedEvent(job, |sourceRepos|, loop.counters),
                  sourceRepos, |sourceRepos|, loop.counters);
  }

  /** The last of `events` is terminal and no other one is. */
  predicate EndsWithOneTerminal(events: seq<Event>)
  {
    && |events| >= 2
    && IsTerminal(events[|events| - 1])
    && forall i :: 0 <= i < |events| - 1 ==> !IsTerminal(events[i])
  }

  lemma CutShortEndsWithOneTerminal(job: Job)
    requires var m := job.model;
      GetGithubRepos(job.api, m.sourceUser, m.sourceToken).Failure? ||
      GetGithubRepos(job.api, m.targetUser, m.targetToken).Failure?
    ensures EndsWithOneTerminal(Sent(JobTrace(job)))
  {
    var m := job.model;
    var source := GetGithubRepos(job.api, m.sourceUser, m.sourceToken);
    var target := GetGithubRepos(job.api, m.targetUser, m.targetToken);
    ListingFailureEndsJob(job);
    var error := ErrorEvent(job, if source.Failure? then source.error else target.error);
    assert !IsTerminal(StartedEvent(job)) && IsTerminal(error);
    var ev := [StartedEvent(job), error];
    assert forall i :: 0 <= i < |ev| - 1 ==> ev[i] == StartedEvent(job);
  }

  /** Every job ends with exactly one terminal event, its last. */
  lemma JobEndsWithOneTerminal(job: Job)
    requires KeepsPlan(job.transport)
    ensures EndsWithOneTerminal(Sent(JobTrace(job)))
  {
    var m := job.model;
    var source := GetGithubRepos(job.api, m.sourceUser, m.sourceToken);
    var target := GetGithubRepos(job.api, m.targetUser, m.targetToken);
    if source.Failure? || target.Failure? {
      CutShortEndsWithOneTerminal(job);
    } else {
      ListedJobReports(job, source.value, target.value);
    }
  }

  lemma PrefixedCalls(listings: seq<Call>, rest: seq<Call>)
    requires |listings| == 2 && forall k :: 0 <= k < |rest| ==> rest[k].LatestCommit?
    ensures var calls := listings + rest;
      calls[..2] == listings && forall k :: 2 <= k < |calls| ==> calls[k].LatestCommit?
  {
    var calls := listings + rest;
    assert calls[..2] == listings;
    assert forall k :: 2 <= k < |calls| ==> calls[k] == rest[k - 2];
  }

  /**
   * When every source repository is already in the target with the same
   * latest commit, the job skips them all and makes no call besides the two
   * listings and the commit lookups.
   */
  lemma AllUpToDateJob(job: Job, sourceRepos: seq<string>, targetRepos: seq<string>)
    requires GetGithubRepos(job.api, job.model.sourceUser, job.model.sourceToken) == Success(sourceRepos)
    requires GetGithubRepos(job.api, job.model.targetUser, job.model.targetToken) == Success(targetRepos)
    requires forall k :: 0 <= k < |sourceRepos| ==> UpToDate(job, targetRepos, sourceRepos[k])
    ensures var ev := Sent(JobTrace(job));
      ev[|ev| - 1].payload == FinishedPayload(|sourceRepos|, 0, 0, |sourceRepos|, FinishedMessage)
    ensures var calls := Calls(JobTrace(job));
      && |calls| >= 2
      && calls[..2] == [ListRepos(ListingUrl(job.model.sourceUser, job.model.sourceToken)),
                        ListRepos(ListingUrl(job.model.targetUser, job.model.targetToken))]
      && forall k :: 2 <= k < |calls| ==> calls[k].LatestCommit?
  {
    var loop := ProcessAll(job, targetRepos, |sourceRepos|, sourceRepos);
    LoopAllUpToDate(job, targetRepos, |sourceRepos|, sourceRepos);
    ListedJobSent(job, sourceRepos, targetRepos);
    var m := job.model;
    var listings := [ListRepos(ListingUrl(m.sourceUser, m.sourceToken)),
                     ListRepos(ListingUrl(m.targetUser, m.targetToken))];
    PrefixedCalls(listings, Calls(loop.effects));
    var completed := SendStatusUpdate(job.jobId, "COMPLETED", CompletedMessage(loop.counters));
    var finished := FinishedEvent(job, |sourceRepos|, loop.counters);
    LastOfFramed(StartedEvent(job), Sent(loop.effects), completed, finished);
  }

  lemma LastOfFramed(started: Event, body: seq<Event>, completed: Event, finished: Event)
    ensures var ev := [started] + body + [completed, finished];
      ev[|ev| - 1] == finished
  {
  }
}
