/**
 * What one backup job does, as a trace of effects: the hub events it sends and
 * the external calls (hosting API, git, file system) it makes, in the order it
 * makes them. The event sink of a job is the `Sent` projection of its trace.
 */
module Effects {
  import opened Wrappers
  import opened SignalR
  import opened GithubCommands

  /** The request body of one job; a null token is modelled as "". */
  datatype BackupRequest = BackupRequest(sourceUser: string, sourceToken: string,
                                         targetUser: string, targetToken: string)

  /** An external call, with the arguments the outcome may depend on. */
  datatype Call =
    | ListRepos(url: string)
    | LatestCommit(url: string)
    | CreateRepo(payload: RepoPayload)
    | Git(command: string, workingDir: string)
    | DeleteDirectory(path: string)
    | Clone(sourceUrl: string, repoDir: string)
    | Fetch(repoDir: string, remote: string, refSpecs: seq<string>)
    | Push(repoDir: string, remoteUrl: string, refSpecs: seq<string>)

  datatype Effect = Send(event: Event) | Io(call: Call)

  /** The events of a trace, in order: what the hub group receives. */
  function Sent(trace: seq<Effect>): (events: seq<Event>)
    ensures |events| <= |trace|
  {
    if trace == [] then []
    else (if trace[0].Send? then [trace[0].event] else []) + Sent(trace[1..])
  }

  /** The external calls of a trace, in order. */
  function Calls(trace: seq<Effect>): (calls: seq<Call>)
    ensures |calls| <= |trace|
  {
    if trace == [] then []
    else (if trace[0].Io? then [trace[0].call] else []) + Calls(trace[1..])
  }

  /** An event is sent by a trace exactly when the trace holds its `Send` effect. */
  lemma {:induction false} SentMembers(trace: seq<Effect>, e: Event)
    ensures e in Sent(trace) <==> Send(e) in trace
  {
    if trace != [] {
      SentMembers(trace[1..], e);
      assert trace == [trace[0]] + trace[1..];
    }
  }

  /** A call is made by a trace exactly when the trace holds its `Io` effect. */
  lemma {:induction false} CallsMembers(trace: seq<Effect>, c: Call)
    ensures c in Calls(trace) <==> Io(c) in trace
  {
    if trace != [] {
      CallsMembers(trace[1..], c);
      assert trace == [trace[0]] + trace[1..];
    }
  }

  lemma {:induction false} SentAppend(a: seq<Effect>, b: seq<Effect>)
    ensures Sent(a + b) == Sent(a) + Sent(b)
  {
    if a == [] {
      assert a + b == b;
    } else {
      var head := if a[0].Send? then [a[0].event] else [];
      assert (a + b)[0] == a[0];
      assert (a + b)[1..] == a[1..] + b;
      assert Sent(a + b) == head + Sent(a[1..] + b);
      SentAppend(a[1..], b);
      Associative(head, Sent(a[1..]), Sent(b));
    }
  }

  lemma {:induction false} CallsAppend(a: seq<Effect>, b: seq<Effect>)
    ensures Calls(a + b) == Calls(a) + Calls(b)
  {
    if a == [] {
      assert a + b == b;
    } else {
      var head := if a[0].Io? then [a[0].call] else [];
      assert (a + b)[0] == a[0];
      assert (a + b)[1..] == a[1..] + b;
      assert Calls(a + b) == head + Calls(a[1..] + b);
      CallsAppend(a[1..], b);
      Associative(head, Calls(a[1..]), Calls(b));
    }
  }

  /** A trace made of external calls only. */
  predicate IoOnly(trace: seq<Effect>)
  {
    forall i :: 0 <= i < |trace| ==> trace[i].Io?
  }

  lemma {:induction false} SentIoOnly(trace: seq<Effect>)
    requires IoOnly(trace)
    ensures Sent(trace) == []
  {
    if trace != [] {
      SentIoOnly(trace[1..]);
    }
  }

  /** The statuses of the progress events among `events`, in order. */
  function Statuses(events: seq<Event>): (r: seq<string>)
    ensures |r| <= |events|
  {
    if events == [] then []
    else
      var head := if events[0].payload.ProgressPayload? then [events[0].payload.progress.status] else [];
      head + Statuses(events[1..])
  }

  lemma {:induction false} StatusesAppend(a: seq<Event>, b: seq<Event>)
    ensures Statuses(a + b) == Statuses(a) + Statuses(b)
  {
    if a == [] {
      assert a + b == b;
    } else {
      var head := if a[0].payload.ProgressPayload? then [a[0].payload.progress.status] else [];
      assert (a + b)[0] == a[0];
      assert (a + b)[1..] == a[1..] + b;
      assert Statuses(a + b) == head + Statuses(a[1..] + b);
      StatusesAppend(a[1..], b);
      Associative(head, Statuses(a[1..]), Statuses(b));
    }
  }

  lemma Associative<T>(x: seq<T>, y: seq<T>, z: seq<T>)
    ensures x + (y + z) == (x + y) + z
  {
  }

  /** `p` is a prefix of `s`. */
  predicate IsPrefix(p: seq<string>, s: seq<string>)
  {
    |p| <= |s| && s[..|p|] == p
  }

  /** Where the current repository stands in a job: the arguments of its progress events. */
  datatype RepoContext = RepoContext(jobId: string, repo: string, current: int, total: int)

  /** A progress event for the current repository. */
  function Announce(ctx: RepoContext, status: string, message: string := ""): Effect
  {
    Send(SendProgress(ctx.jobId, ctx.repo, ctx.current, ctx.total, status, message))
  }

  /**
   * Every event of `events` is a progress event of the repository `ctx` describes,
   * sent to the job's group with the repository's position.
   */
  predicate ProgressOf(events: seq<Event>, ctx: RepoContext)
  {
    forall i :: 0 <= i < |events| ==>
      && events[i].group == ctx.jobId
      && events[i].payload.ProgressPayload?
      && events[i].payload.progress.repo == ctx.repo
      && events[i].payload.progress.current == ctx.current
      && events[i].payload.progress.total == ctx.total
  }

  /**
   * The mirror, create and push part of handling one repository: its effects
   * and, when a step threw, the message of the exception.
   */
  datatype SyncResult = SyncResult(effects: seq<Effect>, failure: Option<string>)

  /** One step that takes `effects` and ends with outcome `o`. */
  function Step(effects: seq<Effect>, o: Outcome): (r: SyncResult)
    ensures r.effects == effects
    ensures r.failure.None? <==> o.Pass?
    ensures o.Fail? ==> r.failure == Some(o.message)
  {
    SyncResult(effects, if o.Fail? then Some(o.message) else None)
  }

  /** Runs `b` after `a`, unless `a` threw: the exception skips every later step. */
  function Then(a: SyncResult, b: SyncResult): (r: SyncResult)
    ensures a.failure.Some? ==> r == a
    ensures a.failure.None? ==> r.effects == a.effects + b.effects && r.failure == b.failure
  {
    if a.failure.Some? then a else SyncResult(a.effects + b.effects, b.failure)
  }

  /**
   * Every call of `trace` is mirror work: none is a commit lookup, and a
   * repository is created only when `mayCreate`.
   */
  predicate MirrorWorkOnly(trace: seq<Effect>, mayCreate: bool)
  {
    forall i :: 0 <= i < |trace| && trace[i].Io? ==>
      !trace[i].call.LatestCommit? && (trace[i].call.CreateRepo? ==> mayCreate)
  }

  lemma ThenMirrorWorkOnly(a: SyncResult, b: SyncResult, mayCreate: bool)
    requires MirrorWorkOnly(a.effects, mayCreate) && MirrorWorkOnly(b.effects, mayCreate)
    ensures MirrorWorkOnly(Then(a, b).effects, mayCreate)
  {
    if a.failure.None? {
      var e := Then(a, b).effects;
      assert forall i :: |a.effects| <= i < |e| ==> e[i] == b.effects[i - |a.effects|];
    }
  }

  /**
   * The statuses a repository is announced with between `Processing` and
   * `Completed`: the mirror step, `Creating` for a repository missing from the
   * target, and `Pushing`.
   */
  function Plan(mirrorStatus: string, existsInTarget: bool): seq<string>
  {
    [mirrorStatus] + (if existsInTarget then [] else ["Creating"]) + ["Pushing"]
  }

  /**
   * `r` sends only progress events of `ctx`; when it completes their statuses
   * are `plan`, and when it throws they are a prefix of `plan`.
   */
  predicate Follows(r: SyncResult, ctx: RepoContext, plan: seq<string>)
  {
    && ProgressOf(Sent(r.effects), ctx)
    && (r.failure.None? ==> Statuses(Sent(r.effects)) == plan)
    && (r.failure.Some? ==> IsPrefix(Statuses(Sent(r.effects)), plan))
  }

  lemma ProgressOfAppend(a: seq<Event>, b: seq<Event>, ctx: RepoContext)
    requires ProgressOf(a, ctx) && ProgressOf(b, ctx)
    ensures ProgressOf(a + b, ctx)
  {
    assert forall i :: |a| <= i < |a + b| ==> (a + b)[i] == b[i - |a|];
  }

  /** Steps run one after the other follow the concatenation of their plans. */
  lemma ThenFollows(a: SyncResult, b: SyncResult, ctx: RepoContext, pa: seq<string>, pb: seq<string>)
    requires Follows(a, ctx, pa) && Follows(b, ctx, pb)
    ensures Follows(Then(a, b), ctx, pa + pb)
    ensures Statuses(Sent(a.effects)) != [] ==> Statuses(Sent(Then(a, b).effects)) != []
  {
    if a.failure.None? {
      SentAppend(a.effects, b.effects);
      StatusesAppend(Sent(a.effects), Sent(b.effects));
      ProgressOfAppend(Sent(a.effects), Sent(b.effects), ctx);
      var sb := Statuses(Sent(b.effects));
      if b.failure.Some? {
        assert (pa + pb)[..|pa| + |sb|] == pa + pb[..|sb|];
      }
    }
  }

  /** Four steps run one after the other, as both transports do. */
  lemma ThenFollows4(a: SyncResult, b: SyncResult, c: SyncResult, d: SyncResult, ctx: RepoContext,
                     pa: seq<string>, pb: seq<string>, pc: seq<string>, pd: seq<string>)
    requires Follows(a, ctx, pa) && Follows(b, ctx, pb) && Follows(c, ctx, pc) && Follows(d, ctx, pd)
    ensures Follows(Then(Then(Then(a, b), c), d), ctx, pa + pb + pc + pd)
    ensures Statuses(Sent(a.effects)) != [] ==> Statuses(Sent(Then(Then(Then(a, b), c), d).effects)) != []
  {
    ThenFollows(a, b, ctx, pa, pb);
    ThenFollows(Then(a, b), c, ctx, pa + pb, pc);
    ThenFollows(Then(Then(a, b), c), d, ctx, pa + pb + pc, pd);
  }

  /** A step that only makes external calls follows the empty plan. */
  lemma IoStepFollows(r: SyncResult, ctx: RepoContext)
    requires IoOnly(r.effects)
    ensures Follows(r, ctx, [])
  {
    SentIoOnly(r.effects);
  }

  /** An announcement followed by external calls follows the one-status plan. */
  lemma AnnouncedFollows(ctx: RepoContext, status: string, message: string, calls: seq<Effect>, o: Outcome)
    requires IoOnly(calls)
    ensures Follows(Step([Announce(ctx, status, message)] + calls, o), ctx, [status])
    ensures Statuses(Sent([Announce(ctx, status, message)] + calls)) == [status]
    ensures Calls([Announce(ctx, status, message)] + calls) == Calls(calls)
  {
    var e := Announce(ctx, status, message);
    SentAppend([e], calls);
    SentIoOnly(calls);
    CallsAppend([e], calls);
    assert Sent([e]) == [e.event];
    assert Calls([e]) == [];
    assert Statuses([e.event]) == [status];
  }

  /** The `Creating` step, taken only for a repository missing from the target. */
  function CreateStep(api: GithubApi, model: BackupRequest, ctx: RepoContext, existsInTarget: bool,
                      flag: Visibility): (r: SyncResult)
    ensures MirrorWorkOnly(r.effects, !existsInTarget)
    ensures r.failure.None? <==>
      existsInTarget || CreateTargetGithubRepo(api, ctx.repo, model.targetToken, flag).Pass?
  {
    if existsInTarget then SyncResult([], None)
    else Step([Announce(ctx, "Creating", "Creating repository in target..."),
               Io(CreateRepo(RepoPayload(ctx.repo, flag)))],
              CreateTargetGithubRepo(api, ctx.repo, model.targetToken, flag))
  }

  /** An announcement, then a step that only calls out, follows the one-status plan. */
  lemma AnnouncedThenFollows(ctx: RepoContext, status: string, message: string, r: SyncResult)
    requires IoOnly(r.effects)
    ensures Follows(Then(Step([Announce(ctx, status, message)], Pass), r), ctx, [status])
    ensures Statuses(Sent(Then(Step([Announce(ctx, status, message)], Pass), r).effects)) == [status]
    ensures Calls(Then(Step([Announce(ctx, status, message)], Pass), r).effects) == Calls(r.effects)
  {
    AnnouncedFollows(ctx, status, message, [], Pass);
    AnnouncedFollows(ctx, status, message, r.effects, Pass);
    assert [Announce(ctx, status, message)] + [] == [Announce(ctx, status, message)];
    IoStepFollows(r, ctx);
    ThenFollows(Step([Announce(ctx, status, message)], Pass), r, ctx, [status], []);
  }

  lemma CreateStepFollows(api: GithubApi, model: BackupRequest, ctx: RepoContext, existsInTarget: bool,
                          flag: Visibility)
    ensures Follows(CreateStep(api, model, ctx, existsInTarget, flag), ctx,
                    if existsInTarget then [] else ["Creating"])
    ensures Statuses(Sent(CreateStep(api, model, ctx, existsInTarget, flag).effects)) ==
      if existsInTarget then [] else ["Creating"]
    ensures Calls(CreateStep(api, model, ctx, existsInTarget, flag).effects) ==
      if existsInTarget then [] else [CreateRepo(RepoPayload(ctx.repo, flag))]
  {
    if existsInTarget {
      IoStepFollows(SyncResult([], None), ctx);
    } else {
      var call := Io(CreateRepo(RepoPayload(ctx.repo, flag)));
      assert [Announce(ctx, "Creating", "Creating repository in target..."), call] ==
             [Announce(ctx, "Creating", "Creating repository in target...")] + [call];
      AnnouncedFollows(ctx, "Creating", "Creating repository in target...", [call],
                       CreateTargetGithubRepo(api, ctx.repo, model.targetToken, flag));
      assert Calls([call]) == [call.call] by {
        assert [call][1..] == [];
      }
    }
  }

  /** `Path.Combine(workDir, repo)` for a repository name that holds no separator. */
  function RepoDir(workDir: string, repo: string): string
  {
    workDir + "/" + repo
  }

  const GithubHost := "github.com"

  /** The `{user}/{repo}.git` tail of a clone or push URL. */
  function RepoPath(user: string, repo: string): string
  {
    user + "/" + repo + ".git"
  }

  /** The clone URL of a source repository: the token is embedded only when present. */
  function SourceUrl(model: BackupRequest, repo: string): string
  {
    if !HasToken(model.sourceToken)
    then "https://" + GithubHost + "/" + RepoPath(model.sourceUser, repo)
    else "https://" + model.sourceToken + "@" + GithubHost + "/" + RepoPath(model.sourceUser, repo)
  }

  /** The push URL of a target repository: the target token is always embedded. */
  function TargetUrl(model: BackupRequest, repo: string): string
  {
    "https://" + model.targetToken + "@" + GithubHost + "/" + RepoPath(model.targetUser, repo)
  }

  /** The longest prefix of `s` that does not contain `c`. */
  function UpTo(s: string, c: char): (r: string)
    ensures |r| <= |s| && r == s[..|r|]
    ensures c !in r
    ensures |r| < |s| ==> s[|r|] == c
  {
    if s == [] || s[0] == c then [] else [s[0]] + UpTo(s[1..], c)
  }

  /**
   * The credential of an `https://` URL: the part of its authority (up to the
   * first `/`) before an `@`, if the authority has one.
   */
  function CredentialOf(url: string): Option<string>
  {
    if |url| < 8 || url[..8] != "https://" then None
    else
      var authority := UpTo(url[8..], '/');
      if '@' in authority then Some(UpTo(authority, '@')) else None
  }

  lemma {:induction false} UpToStopsAt(a: string, c: char, b: string)
    requires c !in a
    ensures UpTo(a + [c] + b, c) == a
  {
    if a != [] {
      assert (a + [c] + b)[1..] == a[1..] + [c] + b;
      UpToStopsAt(a[1..], c, b);
    } else {
      assert (a + [c] + b)[0] == c;
    }
  }

  /** A name that can stand in a URL's user-info or path segment unchanged. */
  predicate PlainSegment(s: string)
  {
    '/' !in s && '@' !in s
  }

  /**
   * Whatever the names, the source URL carries the source token exactly when one
   * is given, and the target URL always carries the target token.
   */
  lemma UrlCredentials(model: BackupRequest, repo: string)
    requires PlainSegment(model.sourceToken) && PlainSegment(model.targetToken)
    ensures CredentialOf(SourceUrl(model, repo)) ==
      (if HasToken(model.sourceToken) then Some(model.sourceToken) else None)
    ensures CredentialOf(TargetUrl(model, repo)) == Some(model.targetToken)
  {
    if HasToken(model.sourceToken) {
      CredentialFrom(model.sourceToken, RepoPath(model.sourceUser, repo));
    } else {
      NoCredential(RepoPath(model.sourceUser, repo));
    }
    CredentialFrom(model.targetToken, RepoPath(model.targetUser, repo));
  }

  lemma NoCredential(rest: string)
    ensures CredentialOf("https://" + GithubHost + "/" + rest) == None
  {
    var tail := GithubHost + ['/'] + rest;
    assert "https://" + GithubHost + "/" + rest == "https://" + tail;
    assert PlainSegment(GithubHost);
    UpToStopsAt(GithubHost, '/', rest);
    assert ("https://" + tail)[8..] == tail;
  }

  lemma CredentialFrom(token: string, rest: string)
    requires PlainSegment(token)
    ensures CredentialOf("https://" + token + "@" + GithubHost + "/" + rest) == Some(token)
  {
    var url := "https://" + token + "@" + GithubHost + "/" + rest;
    var authority := token + "@" + GithubHost;
    assert url[..8] == "https://";
    assert url[8..] == authority + ['/'] + rest;
    UpToStopsAt(authority, '/', rest);
    assert authority[|token|] == '@';
    UpToStopsAt(token, '@', GithubHost);
  }

  /** Decimal rendering of a counter, as C# string interpolation writes it. */
  function NatToString(n: nat): string
  {
    if n < 10 then [Digit(n)] else NatToString(n / 10) + [Digit(n % 10)]
  }

  function Digit(d: nat): char
    requires d < 10
  {
    "0123456789"[d]
  }
}
