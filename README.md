# GithubBackupMigrator: the mirror-sync job, modelled in Dafny

GithubBackupMigrator copies every repository of a source GitHub account to a
target account. A job lists both accounts and walks the source listing in
order. For each repository it does one of two things:

- It skips the repository when it already exists in the target and both
  latest commits agree.
- Otherwise it mirrors it locally (clone, or update an existing mirror),
  creates the target repository if it is missing, and pushes the mirror.

While it runs, the job reports through SignalR: progress events per
repository, a summary after each one, a `COMPLETED` status, and a single
terminal event (`BackupFinished` or `BackupError`). There are two services:

- **V1** (`BackupService`) runs the git command line.
- **V2** (`BackupServiceV2`) uses an embedded git library.

The browser component keeps one progress entry per repository and the latest
summary and status messages.

The model has these modules:

- `SignalR`: the event values the hub helpers build.
- `GithubCommands`: the REST API and git process boundary, with the rules the
  helpers apply around the oracles' answers.
- `Effects`: the trace of a job as `seq<Effect>`, where an effect is a sent
  event (`Send`) or an external call (`Io`). It also holds how exceptions stop
  a `try` block (`SyncResult`, `Step`, `Then`), the status plan a repository
  follows (`Plan`, `Follows`), and the clone and push URLs.
- `LibGitMirror`: V2's mirror, create and push steps. It includes the class
  `MirrorRepository`, whose `remotes` field `PushToTarget` updates in place.
- `GitCliMirror`: V1's git command lines for the same steps.
- `SyncEngine`: the specification the two services share:
  - the skip decision;
  - one repository of the loop (`ProcessRepo`) and the loop itself
    (`ProcessAll`);
  - the whole job (`JobTrace`).

  Its lemmas prove the order, counting and terminal-event properties for any
  transport that keeps the plan (`KeepsPlan`). Both transports are proved to
  keep it.
- `BackupV2` and `BackupV1`: each service's `StartBackupService` written as the
  statements it runs: listings, the `foreach` with its four counters, and the
  per-repository `try`/`catch`. Every method is proved to return exactly the
  trace the `SyncEngine` and mirror functions describe, so the engine's
  lemmas hold for the code.
- `BackupProgressClient`: the Angular component, as a class whose handlers
  reassign its fields. The progress upsert is specified by `Upsert` and
  `Replay`. The message subscriptions read their property by the name the
  hub's JSON protocol gives it (`WireName`).

These parts of the system are parameters:

- **HTTP answers**, including the exceptions raised when no response arrives:
  `GithubApi`.
- **git exit codes and output**, or the exception raised when git cannot be
  started: `GitProcess`.
- **The git library's clone, fetch and push results**: `LibGitEnv`.
- **What each working directory holds**: `CliEnv.dirExists` and
  `LibGitEnv.onDisk`. These are fixed for the duration of a job.

The model follows the code in these places:

- Two failed commit lookups (both null) compare equal under C# `==`, so such a
  repository is skipped as up to date.
- V2 sends its job-level error with no job id, so it goes to the group named
  by the empty string. V1 sends it to the job's group.
- In the update log line, `Substring(0, 7)` throws for a non-null hash shorter
  than seven characters. The throw happens inside the per-repository `try`,
  so such a repository is counted as failed (`Decision.LogThrows`).
- V1 creates target repositories as private, V2 as public.
- V1 updates any existing directory. V2 updates only a valid repository and
  deletes anything else before cloning.

## Model

| member | source | states |
|---|---|---|
| SignalR.SendProgress | GithubBackupMigrator.Server/Services/Helpers/SignalRHelper.cs:15-26 | a `BackupProgress` event to the job's group carrying repo, position, total, status and message |
| SignalR.ProgressMessageDefault | GithubBackupMigrator.Server/Services/Helpers/SignalRHelper.cs:15 | a progress event sent without a message carries the empty message |
| SignalR.SendStatusUpdate | GithubBackupMigrator.Server/Services/Helpers/SignalRHelper.cs:28-36 | a `BackupStatus` event to the job's group with the given status and message |
| SignalR.SendSummaryUpdate | GithubBackupMigrator.Server/Services/Helpers/SignalRHelper.cs:38-50 | a `BackupSummary` event with the five counters; the percentage is the no-total case exactly when total <= 0, else the ratio current/total |
| SignalR.SendFinishUpdate | GithubBackupMigrator.Server/Services/Helpers/SignalRHelper.cs:52-75 | a terminal event: `BackupError` with the failure text when isError, else `BackupFinished` with the counts and the fixed success message |
| SignalR.ErrorWithoutJobIdGoesToEmptyGroup | GithubBackupMigrator.Server/Services/BackupServiceV2.cs:152 | the V2 job-level error, sent without a job id, goes to group "" and carries the exception message |
| GithubCommands.CreateClient | GithubBackupMigrator.Server/Services/Helpers/GithubCommandHelper.cs:34-42 | the user agent is always set; the authorization header is set exactly when the token is non-empty |
| GithubCommands.ListingUrl | GithubBackupMigrator.Server/Services/Helpers/GithubCommandHelper.cs:47-49 | the authenticated `/user/repos` listing with a token, the public per-user listing without one |
| GithubCommands.ListingUrlRevealsToken | GithubBackupMigrator.Server/Services/Helpers/GithubCommandHelper.cs:47-49 | whatever the user name, the listing URL starts with the `/user/` path exactly when a token is given |
| GithubCommands.RepoNames | GithubBackupMigrator.Server/Services/Helpers/GithubCommandHelper.cs:53-56 | one name per listed element, in API order |
| GithubCommands.GetGithubRepos | GithubBackupMigrator.Server/Services/Helpers/GithubCommandHelper.cs:44-62 | a failed request is an error for the caller; a successful one yields the element names in order |
| GithubCommands.GetLatestCommitHash | GithubBackupMigrator.Server/Services/Helpers/GithubCommandHelper.cs:9-32 | the first commit's sha; null for an empty listing or any failure, never an exception |
| GithubCommands.CreateTargetGithubRepo | GithubBackupMigrator.Server/Services/Helpers/GithubCommandHelper.cs:64-76 | a request with no response throws `PostAsync`'s own exception; otherwise it throws exactly when the status is neither a success nor 422, with the status name in the message |
| GithubCommands.RunGitCommand | GithubBackupMigrator.Server/Services/Helpers/GithubCommandHelper.cs:78-99 | throws exactly when git cannot be started, with the start exception's message, or when git's exit code is non-zero, with git's error output in the message |
| Effects.UrlCredentials | GithubBackupMigrator.Server/Services/BackupServiceV2.cs:62-66 | the source URL's credential is the source token exactly when one is given; the target URL always carries the target token |
| Effects.CreateStepFollows | GithubBackupMigrator.Server/Services/BackupServiceV2.cs:119-124 | for a repository missing from the target, the statuses are exactly `Creating` and the calls exactly one create request with the given visibility, whether or not it throws; for one present, no event and no call |
| Effects.CreateStep | GithubBackupMigrator.Server/Services/BackupServiceV2.cs:119-124 | no commit lookup, and a create request only for a repository missing from the target; it completes exactly when the repository exists or the create request passes |
| Effects.ThenMirrorWorkOnly | GithubBackupMigrator.Server/Services/BackupServiceV2.cs:98-128 | chaining two steps that make only mirror work makes only mirror work |
| Effects.ThenFollows | GithubBackupMigrator.Server/Services/BackupServiceV2.cs:98-128 | chaining two steps that each follow their part of the plan follows the concatenated plan, or a prefix of it when the first throws |
| LibGitMirror.PushRefSpecs | GithubBackupMigrator.Server/Services/BackupServiceV2.cs:224-236 | one forced `+ref:ref` spec per branch, then one per tag, in order |
| LibGitMirror.FindRemote | GithubBackupMigrator.Server/Services/BackupServiceV2.cs:202 | the first remote named `target`, or none when no remote has that name |
| LibGitMirror.WithTargetRemote | GithubBackupMigrator.Server/Services/BackupServiceV2.cs:201-213 | the set-up adds one remote exactly when none is called `target`, and every remote with another name keeps its place and value |
| LibGitMirror.TargetRemoteSetUp | GithubBackupMigrator.Server/Services/BackupServiceV2.cs:201-213 | afterwards `target` points at the URL. One remote is appended exactly when none was called `target`; other remotes keep their place and value; an existing `target` that already had the URL is left alone; unique names stay unique |
| LibGitMirror.MirrorRepository.PushToTarget | GithubBackupMigrator.Server/Services/BackupServiceV2.cs:197-246 | the remotes become `WithTargetRemote` of the old ones, the set-up outcome is reported, and every branch and tag is pushed only if there is any |
| LibGitMirror.FetchAll | GithubBackupMigrator.Server/Services/BackupServiceV2.cs:188-193 | fetches from the remotes in order. On success every remote was fetched; otherwise the fetch of the last remote tried threw and all before it passed |
| LibGitMirror.FetchAllStops | GithubBackupMigrator.Server/Services/BackupServiceV2.cs:189-193 | once a fetch throws, no later remote is fetched |
| LibGitMirror.MirrorRepository.UpdateMirrorRepository | GithubBackupMigrator.Server/Services/BackupServiceV2.cs:173-195 | the loop over the remotes produces exactly `FetchAll` |
| LibGitMirror.PushStep | GithubBackupMigrator.Server/Services/BackupServiceV2.cs:238-241 | no call when there are no refspecs; otherwise one push, which fails exactly when the library's push fails |
| LibGitMirror.MirrorStepDeletesOnlyInvalid | GithubBackupMigrator.Server/Services/BackupServiceV2.cs:99-117 | the directory is deleted exactly when it exists but is not a valid repository, and a clone happens exactly when it is not a valid repository |
| LibGitMirror.MirrorStepFollows | GithubBackupMigrator.Server/Services/BackupServiceV2.cs:99-117 | the mirror step announces exactly `Updating` for a valid repository and `Cloning` otherwise, and sends nothing else |
| LibGitMirror.MirrorStep | GithubBackupMigrator.Server/Services/BackupServiceV2.cs:99-117 | the mirror step makes no commit lookup and no create request |
| LibGitMirror.PushToTargetStep | GithubBackupMigrator.Server/Services/BackupServiceV2.cs:126-128 | the push step makes no commit lookup and no create request |
| LibGitMirror.LibGitSync | GithubBackupMigrator.Server/Services/BackupServiceV2.cs:98-128 | V2's mirror work makes no commit lookup, and a create request only for a repository missing from the target |
| LibGitMirror.PushToTargetStepFollows | GithubBackupMigrator.Server/Services/BackupServiceV2.cs:126-128 | the push step announces exactly `Pushing`, whether or not the push throws, then makes one push of the refspecs when there are any and no call otherwise |
| LibGitMirror.LibGitSyncFollowsPlan | GithubBackupMigrator.Server/Services/BackupServiceV2.cs:98-128 | V2's statuses for a repository are the mirror status, `Creating` when new, then `Pushing`, or a prefix of that list when a step throws |
| LibGitMirror.LibGitSyncSucceeds | GithubBackupMigrator.Server/Services/BackupServiceV2.cs:98-128 | V2's sync ends without exception exactly when the clone or every fetch, the creation if needed, and the push if there are refs, all succeed |
| GitCliMirror.RemoteSetupCalls | GithubBackupMigrator.Server/Services/BackupService.cs:129-138 | `get-url` is always run and `remote add` is run exactly when it fails; the set-up throws only when both fail |
| GitCliMirror.MirrorStepFollows | GithubBackupMigrator.Server/Services/BackupService.cs:108-120 | V1 announces exactly `Updating` for any existing directory and `Cloning` otherwise, then makes exactly one git call: `remote update --prune` in the directory, or `clone --mirror` of the source URL |
| GitCliMirror.PushStepFollows | GithubBackupMigrator.Server/Services/BackupService.cs:140-142 | the push step announces exactly `Pushing`, whether or not the push throws, and makes exactly one git call, `push target --mirror` in the repository directory |
| GitCliMirror.GitStepCalls | GithubBackupMigrator.Server/Services/BackupService.cs:253-274 | one git invocation is exactly one git call with its command and working directory |
| GitCliMirror.MirrorStep | GithubBackupMigrator.Server/Services/BackupService.cs:108-120 | the mirror step makes no commit lookup or create request, and completes exactly when its one git command passes |
| GitCliMirror.RemoteSetupStep | GithubBackupMigrator.Server/Services/BackupService.cs:129-138 | the remote set-up makes no commit lookup or create request |
| GitCliMirror.PushStep | GithubBackupMigrator.Server/Services/BackupService.cs:140-142 | the push step makes no commit lookup or create request, and completes exactly when `push target --mirror` passes |
| GitCliMirror.CliSync | GithubBackupMigrator.Server/Services/BackupService.cs:108-142 | V1's mirror work makes no commit lookup, and a create request only for a repository missing from the target |
| GitCliMirror.RemoteSetupFollows | GithubBackupMigrator.Server/Services/BackupService.cs:129-138 | the remote set-up sends no event |
| GitCliMirror.CliSyncFollowsPlan | GithubBackupMigrator.Server/Services/BackupService.cs:108-142 | V1's statuses for a repository are the mirror status, `Creating` when new, then `Pushing`, or a prefix of that list when a step throws |
| GitCliMirror.CliSyncSucceeds | GithubBackupMigrator.Server/Services/BackupService.cs:108-142 | V1's sync ends without exception exactly when four things succeed: the mirror command, the creation if needed, the probe or the add of `target`, and the push |
| SyncEngine.CliTransportKeepsPlan | GithubBackupMigrator.Server/Services/BackupService.cs:108-142 | the V1 transport keeps the plan the loop relies on |
| SyncEngine.LibGitTransportKeepsPlan | GithubBackupMigrator.Server/Services/BackupServiceV2.cs:98-128 | the V2 transport keeps the plan the loop relies on |
| SyncEngine.CliTransportMirrorsOnly | GithubBackupMigrator.Server/Services/BackupService.cs:108-142 | the V1 transport makes no commit lookup, and a create request only for a repository missing from the target |
| SyncEngine.LibGitTransportMirrorsOnly | GithubBackupMigrator.Server/Services/BackupServiceV2.cs:98-128 | the V2 transport makes no commit lookup, and a create request only for a repository missing from the target |
| SyncEngine.Decide | GithubBackupMigrator.Server/Services/BackupServiceV2.cs:74-96 | a repository is skipped exactly when it is in the target and the lookups agree, including both null. A new repository is mirrored. Otherwise it is mirrored unless a hash shorter than seven characters makes the log line throw |
| SyncEngine.Count | GithubBackupMigrator.Server/Services/BackupServiceV2.cs:83-139 | each repository increments exactly the counter of its outcome |
| SyncEngine.ProcessRepo | GithubBackupMigrator.Server/Services/BackupServiceV2.cs:68-141 | the counters after one repository are the counters before it with its outcome counted |
| SyncEngine.LookupCalls | GithubBackupMigrator.Server/Services/BackupServiceV2.cs:72-78 | both latest-commit lookups, exactly when the repository is in the target listing, and nothing else |
| SyncEngine.Attempt | GithubBackupMigrator.Server/Services/BackupServiceV2.cs:88-96 | when the update log line throws, the try block ends before any mirror work: no event, no call, and a failure |
| SyncEngine.LookupsAndCreationFollowTarget | GithubBackupMigrator.Server/Services/BackupServiceV2.cs:72-124 | for a transport that only mirrors: a repository missing from the target makes no commit lookup, and a create request is made only for such a repository |
| SyncEngine.SkippedExactlyWhenUpToDate | GithubBackupMigrator.Server/Services/BackupServiceV2.cs:74-87 | a repository is skipped exactly when it is in the target and both commit lookups return the same value |
| SyncEngine.SkipMakesOnlyLookups | GithubBackupMigrator.Server/Services/BackupServiceV2.cs:74-87 | a skipped repository makes only the two commit lookups: no mirror, create or push |
| SyncEngine.ProcessRepoEvents | GithubBackupMigrator.Server/Services/BackupServiceV2.cs:68-141 | one repository sends progress events for its own name and position, then one summary with the updated counters. The statuses run `Processing`, then the plan (whole on success, a prefix on failure, none on skip), then the verdict |
| SyncEngine.ProcessRepoProjections | GithubBackupMigrator.Server/Services/BackupServiceV2.cs:68-141 | one repository sends exactly one `Processing` event (its own), exactly one summary, and no terminal event |
| SyncEngine.LoopProcessed | GithubBackupMigrator.Server/Services/BackupServiceV2.cs:57-59 | the loop's `Processing` events name the source repositories in listing order, and no terminal event is sent |
| SyncEngine.LoopSummaries | GithubBackupMigrator.Server/Services/BackupServiceV2.cs:57-141 | there is one summary per repository. The i-th counts i+1 repositories with the total; the last carries the final counters |
| SyncEngine.CountsFromSummaries | GithubBackupMigrator.Server/Services/BackupServiceV2.cs:51-59 | after the loop, `current` equals the number of repositories and success + failed + skipped equals it too |
| SyncEngine.LoopEvents | GithubBackupMigrator.Server/Services/BackupServiceV2.cs:57-142 | for either service's loop: listing order, one summary per repository with rising counts, no terminal event |
| SyncEngine.LoopAllUpToDate | GithubBackupMigrator.Server/Services/BackupServiceV2.cs:74-87 | when every repository is up to date, all are counted as skipped and only commit lookups are made |
| SyncEngine.ProcessAll | GithubBackupMigrator.Server/Services/BackupServiceV2.cs:51-142 | after the loop, `current` is the number of repositories and success + failed + skipped equals it |
| SyncEngine.LoopCounts | GithubBackupMigrator.Server/Services/BackupServiceV2.cs:57-139 | every repository of the listing is counted once, under exactly one outcome |
| SyncEngine.FinishedEvent | GithubBackupMigrator.Server/Services/BackupService.cs:161-169 | the V1 inline `BackupFinished` event is the same event V2 sends through `SendFinishUpdate` |
| SyncEngine.ErrorEvent | GithubBackupMigrator.Server/Services/BackupService.cs:171-180 | the job-level error carries the fixed message and the exception text; V1 sends it to the job's group, V2 to group "" |
| SyncEngine.JobTrace | GithubBackupMigrator.Server/Services/BackupServiceV2.cs:29-154 | every job starts with `STARTED` and then the source listing call |
| SyncEngine.ListingFailureEndsJob | GithubBackupMigrator.Server/Services/BackupServiceV2.cs:41-49 | a failing listing ends the job: the events are `STARTED` and the error; the calls are the listings up to the failing one |
| SyncEngine.ListedJobSent | GithubBackupMigrator.Server/Services/BackupServiceV2.cs:41-147 | with both listings done, the events are `STARTED`, the loop's events, `COMPLETED` and `BackupFinished`; the calls are the two listings, then the loop's calls |
| SyncEngine.ListedJobReports | GithubBackupMigrator.Server/Services/BackupServiceV2.cs:51-147 | the events process the source repositories in order, with one summary each. `COMPLETED` is second to last and `BackupFinished` last, both with the final counts, which add up to the number of source repositories |
| SyncEngine.JobEndsWithOneTerminal | GithubBackupMigrator.Server/Services/BackupServiceV2.cs:29-154 | every job's last event is terminal and no earlier event is |
| SyncEngine.AllUpToDateJob | GithubBackupMigrator.Server/Services/BackupServiceV2.cs:41-147 | when all repositories are up to date, the job finishes with all skipped, and its only calls are the two listings followed by commit lookups |
| BackupV2.MirrorLocal | GithubBackupMigrator.Server/Services/BackupServiceV2.cs:99-117 | the clone-or-update branch produces exactly V2's mirror step |
| BackupV2.CreateIfMissing | GithubBackupMigrator.Server/Services/BackupServiceV2.cs:119-124 | the creation branch produces exactly the create step, with the public flag |
| BackupV2.PushMirror | GithubBackupMigrator.Server/Services/BackupServiceV2.cs:126-128 | the push branch produces exactly V2's push step |
| BackupV2.SyncRepository | GithubBackupMigrator.Server/Services/BackupServiceV2.cs:98-128 | the rest of the try block produces exactly `LibGitSync` |
| BackupV2.ProcessRepository | GithubBackupMigrator.Server/Services/BackupServiceV2.cs:68-141 | one pass of the loop body produces exactly `ProcessRepo` |
| BackupV2.V2LookupsAndCreationFollowTarget | GithubBackupMigrator.Server/Services/BackupServiceV2.cs:72-124 | in V2, commits are looked up only for repositories in the target listing, and only the others are created |
| BackupV2.ProcessRepositories | GithubBackupMigrator.Server/Services/BackupServiceV2.cs:51-142 | the `foreach` with its four counters produces exactly `ProcessAll` and its counters |
| BackupV2.StartBackupService | GithubBackupMigrator.Server/Services/BackupServiceV2.cs:29-154 | the method's trace is exactly the V2 `JobTrace` |
| BackupV1.RunGit | GithubBackupMigrator.Server/Services/BackupService.cs:253-274 | one git invocation and the exception a failed start or a non-zero exit code raises |
| BackupV1.MirrorLocal | GithubBackupMigrator.Server/Services/BackupService.cs:108-120 | the clone-or-update branch produces exactly V1's mirror step |
| BackupV1.CreateIfMissing | GithubBackupMigrator.Server/Services/BackupService.cs:122-127 | the creation branch produces exactly the create step, with the private flag |
| BackupV1.SetUpTargetRemote | GithubBackupMigrator.Server/Services/BackupService.cs:129-138 | the inner try/catch produces exactly the remote set-up step |
| BackupV1.PushMirror | GithubBackupMigrator.Server/Services/BackupService.cs:140-142 | the push branch produces exactly V1's push step |
| BackupV1.SyncRepository | GithubBackupMigrator.Server/Services/BackupService.cs:108-142 | the rest of the try block produces exactly `CliSync` |
| BackupV1.ProcessRepository | GithubBackupMigrator.Server/Services/BackupService.cs:76-155 | one pass of the loop body produces exactly `ProcessRepo` |
| BackupV1.V1LookupsAndCreationFollowTarget | GithubBackupMigrator.Server/Services/BackupService.cs:80-127 | in V1, commits are looked up only for repositories in the target listing, and only the others are created |
| BackupV1.ProcessRepositories | GithubBackupMigrator.Server/Services/BackupService.cs:58-156 | the `foreach` with its four counters produces exactly `ProcessAll` and its counters |
| BackupV1.StartBackupService | GithubBackupMigrator.Server/Services/BackupService.cs:36-182 | the method's trace is exactly the V1 `JobTrace` |
| BackupProgressClient.FindIndex | githubbackupmigrator.client/src/app/backup-progress/backup-progress.component.ts:37 | the index of the first entry for the repository, or -1 exactly when there is none |
| BackupProgressClient.BackupProgressComponent.constructor | githubbackupmigrator.client/src/app/backup-progress/backup-progress.component.ts:24-28 | the list starts empty, the summary null and the messages empty |
| BackupProgressClient.BackupProgressComponent.OnProgress | githubbackupmigrator.client/src/app/backup-progress/backup-progress.component.ts:35-41 | the list becomes `Apply` of the old list (null ignored, else upsert by name); no other field changes |
| BackupProgressClient.Upsert | githubbackupmigrator.client/src/app/backup-progress/backup-progress.component.ts:37-39 | a new repository is appended; a listed one has its first entry replaced in place, with the length unchanged; every other position keeps its entry |
| BackupProgressClient.Apply | githubbackupmigrator.client/src/app/backup-progress/backup-progress.component.ts:35-41 | null leaves the list unchanged; the list never shrinks; every position keeps its repository; entries for other repositories keep their values |
| BackupProgressClient.Replay | githubbackupmigrator.client/src/app/backup-progress/backup-progress.component.ts:35-41 | over any sequence of emissions, the list never shrinks and a listed repository never moves |
| BackupProgressClient.UpsertFinds | githubbackupmigrator.client/src/app/backup-progress/backup-progress.component.ts:37-39 | after the upsert, the first entry for the repository is the value received |
| BackupProgressClient.UpsertKeepsUnique | githubbackupmigrator.client/src/app/backup-progress/backup-progress.component.ts:37-39 | the upsert keeps repository names unique |
| BackupProgressClient.ReplayKeepsUnique | githubbackupmigrator.client/src/app/backup-progress/backup-progress.component.ts:24-41 | starting from unique names (the empty list among them), names stay unique whatever is received |
| BackupProgressClient.ReplayRepos | githubbackupmigrator.client/src/app/backup-progress/backup-progress.component.ts:24-41 | the listed repositories are those received, each in the order of its first appearance |
| BackupProgressClient.ReplayHoldsLatest | githubbackupmigrator.client/src/app/backup-progress/backup-progress.component.ts:35-41 | the entry for a repository holds the latest value received for it |
| BackupProgressClient.ReplayKeepsEntry | githubbackupmigrator.client/src/app/backup-progress/backup-progress.component.ts:37-39 | values for other repositories move neither the entry for a repository nor its value |
| BackupProgressClient.ApplyRepos | githubbackupmigrator.client/src/app/backup-progress/backup-progress.component.ts:37-39 | a name is added at the end exactly when it is new; otherwise the names are unchanged |
| BackupProgressClient.BackupProgressComponent.OnSummary | githubbackupmigrator.client/src/app/backup-progress/backup-progress.component.ts:43 | the summary becomes the latest value, null included; nothing else changes |
| BackupProgressClient.WireName | GithubBackupMigrator.Server/Program.cs:18 | property names go on the wire in camelCase: same length, first letter never a capital, the rest unchanged |
| BackupProgressClient.Read | githubbackupmigrator.client/src/app/backup-progress/backup-progress.component.ts:44-46 | a non-empty result is the payload's message, read under the wire name of its message property; null and any other key give "" |
| BackupProgressClient.CapitalisedKeyReadsNothing | githubbackupmigrator.client/src/app/backup-progress/backup-progress.component.ts:44 | reading `Message` gives "" for every value, because no wire name starts with a capital |
| BackupProgressClient.LowercaseKeyReadsMessage | GithubBackupMigrator.Server/Services/Helpers/SignalRHelper.cs:23-72 | every message property, `Message` or `message` on the server, is read as `message` and yields the message |
| BackupProgressClient.BackupProgressComponent.OnStatus | githubbackupmigrator.client/src/app/backup-progress/backup-progress.component.ts:44 | the status message becomes what `Message` reads, which is always ""; nothing else changes |
| BackupProgressClient.BackupProgressComponent.OnFinished | githubbackupmigrator.client/src/app/backup-progress/backup-progress.component.ts:45 | the finished message becomes what `message` reads: the payload's message, or "" for null; nothing else changes |
| BackupProgressClient.BackupProgressComponent.OnError | githubbackupmigrator.client/src/app/backup-progress/backup-progress.component.ts:46 | the error message becomes what `message` reads: the payload's message, or "" for null; nothing else changes |

## Left out

- **The sink never fails.** A send that throws inside the per-repository
  `try` would also count the repository as failed, after its success or skip
  was already counted. The counter properties hold only for sends that succeed.
- **Logging and timestamps.** Logging and the `Timestamp` fields are I/O
  with no effect on what the job sends or calls: both log helpers catch
  their own errors.
- **The working-directory set-up** (`Directory.CreateDirectory`) is assumed
  to succeed. It runs inside the job-level `try` before `STARTED` is sent.
  If it threw, the job would send only the job-level error with its
  exception text: to the job's group in V1, and to group "" in V2. That
  path is not modelled.
- **Directory deletion** appears only as a `DeleteDirectory` call in the
  trace, and it always succeeds. `Directory.Delete` can throw inside the
  per-repository `try`, for example on a locked file; the catch would then
  report the repository as `Failed: <message>`. That failure is not modelled.
- **Directory state is fixed per job.** It is given per path for the whole
  job, so a source listing that names a repository twice sees the same state
  both times.
- **`Path.Combine`** is modelled as `workDir + "/" + repo`, for names without
  separators.
- **Null repository names, null tokens and a null `ex` are not modelled.** A
  null token collapses to the empty string, which both the C# interpolation
  and `IsNullOrEmpty` treat alike.
- **The exact .NET exception text** is not modelled for `Substring`, for
  failures inside the git library, for `PostAsync` when no response arrives,
  or for `Process.Start` when git cannot be started. The text is an opaque
  constant, or the oracle's message.
- **SignalR.SendSummaryUpdate**: the `Percentage` field is a double-precision
  computation truncated to `int`. It is kept as the symbolic ratio
  current/total, or the no-total case. Its value and bounds are not stated.
- **The job-level `catch`** covers only the failures of the two listings,
  not a failing working-directory set-up (see above).
  The sends are assumed not to throw. `GetGithubRepos` failing after a partial
  read is one failure.
- **The git library's credential callbacks, bare-clone options and prune
  flag** belong to the oracles. Clone, fetch and push report only
  success or failure.
- **The JSON wire format** is modelled only for the message properties the
  message subscriptions read. The rest of the serialisation is not modelled:
  timestamps, numbers, and the other property names. The other properties
  the component reads (`repo`, `current`, `total`, ...) are the camelCase
  names the server's properties arrive under, so their values arrive
  unchanged.
- **BackupProgressClient.WireName** lowers only the first letter. .NET's
  camelCase naming policy also lowers a leading run of capitals, but no
  property here starts with two.
- **The client's `startBackup`** is left out, with its HTTP POST, the hub
  connection and its console output. So are the SignalR connection, the hub's
  groups, the controller's fire-and-forget task and job-id generation, and
  the Angular and dependency-injection wiring: these are transport,
  concurrency or plumbing.
- **The signalr.service.ts routing** of hub methods to the component's
  subscriptions is left out: each handler method is called with the value
  of its own stream.
