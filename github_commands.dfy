/**
 * The boundary with the hosting REST API and the git process (GithubCommandHelper,
 * and the identical private copies in BackupService). HTTP calls and process
 * runs are oracles: `GithubApi` answers each request, and `GitProcess` gives the
 * exit code and output of each git invocation. The functions here are the rules
 * the helper applies around those answers.
 */
module GithubCommands {
  import opened Wrappers

  /** The request headers of an `HttpClient` made by `CreateClient`. */
  datatype Headers = Headers(userAgent: string, authorization: Option<string>)

  /**
   * The answer to a request. For a GET: the parsed JSON array, or the message of
   * the exception raised for a non-success status, a network failure or a
   * malformed body. For a POST: the response's status, or the message of the
   * exception `PostAsync` raises when no response arrives (a network failure or
   * a time-out).
   */
  datatype HttpResponse<+T> = Ok(body: T) | Fault(message: string)

  /** The status of a POST: its numeric code and the name `HttpStatusCode` prints for it. */
  datatype HttpStatus = HttpStatus(code: int, name: string)

  /** One element of a repository listing; only `name` is read. */
  datatype RepoJson = RepoJson(name: string)

  /**
   * One element of a commit listing. `sha` is `None` when the property is missing,
   * is JSON null or is not a string: in every such case the lookup yields null.
   */
  datatype CommitJson = CommitJson(sha: Option<string>)

  /** The visibility property of a creation payload: `private = true` or `public = true`. */
  datatype Visibility = PrivateFlag | PublicFlag

  datatype RepoPayload = RepoPayload(name: string, flag: Visibility)

  datatype GithubApi = GithubApi(
    getRepos: (string, Headers) -> HttpResponse<seq<RepoJson>>,
    getCommits: (string, Headers) -> HttpResponse<seq<CommitJson>>,
    postRepo: (string, RepoPayload, Headers) -> HttpResponse<HttpStatus>)

  /**
   * What running `git` reports: the exit code and output of a process that ran,
   * or the message of the exception `Process.Start` raises when git cannot be
   * started (no executable, a missing working directory).
   */
  datatype ProcessResult =
    | Exited(exitCode: int, stdout: string, stderr: string)
    | StartFailed(message: string)

  /** Runs `git <command>` in a working directory ("" for the current one). */
  type GitProcess = (string, string) -> ProcessResult

  const UserAgent := "GitBackupApi/1.0"
  /** The path prefix of the calls made on behalf of the token's owner. */
  const UserPath := "https://api.github.com/user/"
  const AuthListingUrl := UserPath + "repos?per_page=100&affiliation=owner&sort=updated&direction=desc"
  const CreateRepoUrl := "https://api.github.com/user/repos"
  const UnprocessableEntity := 422

  /** `!string.IsNullOrEmpty(token)`; a null token is modelled as "". */
  predicate HasToken(token: string)
  {
    token != ""
  }

  function PublicListingUrl(user: string): string
  {
    "https://api.github.com/users/" + user + "/repos?per_page=100&type=owner&sort=updated&direction=desc"
  }

  function CommitsUrl(user: string, repo: string): string
  {
    "https://api.github.com/repos/" + user + "/" + repo + "/commits?per_page=1"
  }

  function CreateClient(token: string): (h: Headers)
    ensures h.userAgent == UserAgent
    ensures h.authorization.Some? <==> HasToken(token)
    ensures h.authorization.Some? ==> h.authorization.value == "token " + token
  {
    Headers(UserAgent, if HasToken(token) then Some("token " + token) else None)
  }

  function ListingUrl(user: string, token: string): (url: string)
    ensures HasToken(token) ==> url == AuthListingUrl
    ensures !HasToken(token) ==> url == PublicListingUrl(user)
  {
    if HasToken(token) then AuthListingUrl else PublicListingUrl(user)
  }

  /**
   * The authenticated listing starts with the `/user/` path; the public one,
   * whatever the user name, does not, so the URL tells whether a token was given.
   */
  lemma ListingUrlRevealsToken(user: string, token: string)
    ensures |ListingUrl(user, token)| >= 28
    ensures ListingUrl(user, token)[..28] == UserPath <==> HasToken(token)
  {
    if !HasToken(token) {
      var url := PublicListingUrl(user);
      assert url[27] == 's';
      assert UserPath[27] == '/';
    } else {
      assert |UserPath| == 28;
      assert AuthListingUrl[..|UserPath|] == UserPath;
    }
  }

  /** The names of the listed repositories, one per element, in API order. */
  function RepoNames(items: seq<RepoJson>): (names: seq<string>)
    ensures |names| == |items|
    ensures forall i :: 0 <= i < |items| ==> names[i] == items[i].name
  {
    if items == [] then [] else [items[0].name] + RepoNames(items[1..])
  }

  /** `GetGithubRepos`: the listing fails the job when the request fails. */
  function GetGithubRepos(api: GithubApi, user: string, token: string): (r: Result<seq<string>>)
    ensures var resp := api.getRepos(ListingUrl(user, token), CreateClient(token));
      && (resp.Fault? ==> r == Failure(resp.message))
      && (resp.Ok? ==>
            r.Success? && |r.value| == |resp.body| &&
            forall i :: 0 <= i < |resp.body| ==> r.value[i] == resp.body[i].name)
  {
    match api.getRepos(ListingUrl(user, token), CreateClient(token))
    case Fault(m) => Failure(m)
    case Ok(items) => Success(RepoNames(items))
  }

  /**
   * `GetLatestCommitHash`: the sha of the first listed commit, and null (`None`)
   * for an empty listing or any failure; the result type has no error case
   * because the helper never throws.
   */
  function GetLatestCommitHash(api: GithubApi, user: string, repo: string, token: string): (r: Option<string>)
    ensures var resp := api.getCommits(CommitsUrl(user, repo), CreateClient(token));
      && (resp.Ok? && |resp.body| > 0 ==> r == resp.body[0].sha)
      && (resp.Fault? || resp.body == [] ==> r == None)
  {
    match api.getCommits(CommitsUrl(user, repo), CreateClient(token))
    case Fault(_) => None
    case Ok(commits) => if |commits| > 0 then commits[0].sha else None
  }

  /** `IsSuccessStatusCode`. */
  predicate IsSuccessStatusCode(code: int)
  {
    200 <= code <= 299
  }

  /**
   * `CreateTargetGithubRepo`: a 422 ("already exists") answer counts as success;
   * `flag` is the visibility property the variant puts in the payload. A request
   * that gets no response throws `PostAsync`'s own exception.
   */
  function CreateTargetGithubRepo(api: GithubApi, repo: string, token: string, flag: Visibility): (r: Outcome)
    ensures var resp := api.postRepo(CreateRepoUrl, RepoPayload(repo, flag), CreateClient(token));
      && (resp.Fault? ==> r == Fail(resp.message))
      && (resp.Ok? ==>
            && (r.Fail? <==> !IsSuccessStatusCode(resp.body.code) && resp.body.code != UnprocessableEntity)
            && (r.Fail? ==> r.message == "Failed to create repo: " + resp.body.name))
  {
    match api.postRepo(CreateRepoUrl, RepoPayload(repo, flag), CreateClient(token))
    case Fault(m) => Fail(m)
    case Ok(status) =>
      if !IsSuccessStatusCode(status.code) && status.code != UnprocessableEntity
      then Fail("Failed to create repo: " + status.name)
      else Pass
  }

  /**
   * `RunGitCommand`: throws exactly when git cannot be started, with the start
   * exception's message, or exits with a non-zero code.
   */
  function RunGitCommand(git: GitProcess, command: string, workingDir: string := ""): (r: Outcome)
    ensures r.Pass? <==> git(command, workingDir).Exited? && git(command, workingDir).exitCode == 0
    ensures git(command, workingDir).StartFailed? ==> r == Fail(git(command, workingDir).message)
    ensures git(command, workingDir).Exited? && r.Fail? ==>
      r.message == "Git command failed: " + git(command, workingDir).stderr
  {
    match git(command, workingDir)
    case StartFailed(m) => Fail(m)
    case Exited(code, _, err) => if code != 0 then Fail("Git command failed: " + err) else Pass
  }
}
