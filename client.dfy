/**
 * The browser side of a job: BackupProgressComponent keeps one progress
 * entry per repository, updated in place as `BackupProgress` events arrive,
 * and the latest summary and status, finished and error messages.
 */
module BackupProgressClient {
  import opened Wrappers
  import opened SignalR

  /** The index of the first entry for `repo`, or -1 when there is none (`Array.prototype.findIndex`). */
  function FindIndex(list: seq<Progress>, repo: string): (i: int)
    ensures -1 <= i < |list|
    ensures i >= 0 ==> list[i].repo == repo && forall j :: 0 <= j < i ==> list[j].repo != repo
    ensures i < 0 <==> forall j :: 0 <= j < |list| ==> list[j].repo != repo
  {
    if list == [] then -1
    else if list[0].repo == repo then 0
    else
      var k := FindIndex(list[1..], repo);
      if k < 0 then -1 else k + 1
  }

  /** The list after one non-null progress value: replace the first entry for its repository, else append. */
  function Upsert(list: seq<Progress>, p: Progress): (r: seq<Progress>)
    ensures (forall j :: 0 <= j < |list| ==> list[j].repo != p.repo) ==> r == list + [p]
    ensures (exists j :: 0 <= j < |list| && list[j].repo == p.repo) ==>
      |r| == |list| && r[FindIndex(list, p.repo)] == p
    ensures forall j :: 0 <= j < |list| && j != FindIndex(list, p.repo) ==> r[j] == list[j]
  {
    var i := FindIndex(list, p.repo);
    if i >= 0 then list[i := p] else list + [p]
  }

  /** What one emission of the progress stream does to the list; `null` changes nothing. */
  function Apply(list: seq<Progress>, progress: Option<Progress>): (r: seq<Progress>)
    ensures progress.None? ==> r == list
    ensures |r| >= |list|
    ensures forall j :: 0 <= j < |list| ==> r[j].repo == list[j].repo
    ensures forall j :: 0 <= j < |list| && (progress.None? || list[j].repo != progress.value.repo) ==> r[j] == list[j]
  {
    if progress.None? then list else Upsert(list, progress.value)
  }

  /** The list after a sequence of emissions, in order. */
  function Replay(list: seq<Progress>, emitted: seq<Option<Progress>>): (r: seq<Progress>)
    ensures |r| >= |list|
    ensures forall j :: 0 <= j < |list| ==> r[j].repo == list[j].repo
    decreases |emitted|
  {
    if emitted == [] then list
    else Replay(Apply(list, emitted[0]), emitted[1..])
  }

  /** No two entries are for the same repository. */
  predicate UniqueRepos(list: seq<Progress>)
  {
    forall i, j :: 0 <= i < j < |list| ==> list[i].repo != list[j].repo
  }

  function Repos(list: seq<Progress>): (names: seq<string>)
    ensures |names| == |list|
    ensures forall i :: 0 <= i < |list| ==> names[i] == list[i].repo
  {
    if list == [] then [] else [list[0].repo] + Repos(list[1..])
  }

  /** The repositories of the non-null emissions, in order. */
  function EmittedRepos(emitted: seq<Option<Progress>>): seq<string>
    decreases |emitted|
  {
    if emitted == [] then []
    else (if emitted[0].Some? then [emitted[0].value.repo] else []) + EmittedRepos(emitted[1..])
  }

  /** `names` without repetitions, each kept at its first appearance; `seen` are already taken. */
  function FirstAppearances(seen: seq<string>, names: seq<string>): seq<string>
    decreases |names|
  {
    if names == [] then seen
    else FirstAppearances(if names[0] in seen then seen else seen + [names[0]], names[1..])
  }

  /** The last non-null emission for `repo`, if any. */
  function LatestFor(emitted: seq<Option<Progress>>, repo: string): Option<Progress>
    decreases |emitted|
  {
    if emitted == [] then None
    else
      var later := LatestFor(emitted[1..], repo);
      if later.Some? then later
      else if emitted[0].Some? && emitted[0].value.repo == repo then emitted[0]
      else None
  }

  predicate IsUpper(c: char)
  {
    'A' <= c <= 'Z'
  }

  function Lower(c: char): (l: char)
    ensures !IsUpper(l)
    ensures !IsUpper(c) ==> l == c
    ensures IsUpper(c) ==> l as int == c as int + 32
  {
    if IsUpper(c) then (c as int - 'A' as int + 'a' as int) as char else c
  }

  /**
   * The name a server-side property travels under: the hub's default JSON
   * protocol writes property names in camelCase, lowering the first letter.
   */
  function WireName(member: string): (name: string)
    ensures |name| == |member|
    ensures 0 < |member| ==> name[1..] == member[1..] && !IsUpper(name[0])
  {
    if member == [] then [] else [Lower(member[0])] + member[1..]
  }

  /**
   * The server-side property that carries a payload's message: `Message` in
   * the progress and status payloads, `message` in the finish and error
   * payloads; a summary carries none.
   */
  function MessageProperty(p: Payload): Option<string>
  {
    match p
    case ProgressPayload(_) => Some("Message")
    case StatusPayload(_, _) => Some("Message")
    case SummaryPayload(_) => None
    case FinishedPayload(_, _, _, _, _) => Some("message")
    case ErrorPayload(_, _) => Some("message")
  }

  function MessageText(p: Payload): string
  {
    match p
    case ProgressPayload(progress) => progress.message
    case StatusPayload(_, m) => m
    case SummaryPayload(_) => ""
    case FinishedPayload(_, _, _, _, m) => m
    case ErrorPayload(m, _) => m
  }

  /**
   * `value?.<key> || ''` as the browser evaluates it: the payload's message
   * when `key` is the name its message property arrives under, else "".
   */
  function Read(value: Option<Payload>, key: string): (text: string)
    ensures text != "" ==>
      && value.Some? && MessageProperty(value.value).Some?
      && key == WireName(MessageProperty(value.value).value)
      && text == MessageText(value.value)
  {
    if value.None? then ""
    else match MessageProperty(value.value)
      case None => ""
      case Some(member) => if key == WireName(member) then MessageText(value.value) else ""
  }

  /** No property arrives under a capitalised name, so reading `Message` always yields "". */
  lemma CapitalisedKeyReadsNothing(value: Option<Payload>)
    ensures Read(value, "Message") == ""
  {
  }

  /** Every message property arrives as `message`, so reading `message` yields the message. */
  lemma LowercaseKeyReadsMessage(p: Payload)
    ensures MessageProperty(p).Some? ==> Read(Some(p), "message") == MessageText(p)
  {
    assert Lower('M') == 'm';
    assert WireName("Message") == "message";
    assert WireName("message") == "message";
  }

  /** The component's view state. */
  class BackupProgressComponent {
    var progressList: seq<Progress>
    var summary: Option<Summary>
    var statusMessage: string
    var finishedMessage: string
    var errorMessage: string

    constructor ()
      ensures progressList == [] && summary == None
      ensures statusMessage == "" && finishedMessage == "" && errorMessage == ""
    {
      progressList := [];
      summary := None;
      statusMessage := "";
      finishedMessage := "";
      errorMessage := "";
    }

    /** The `progress$` subscription: upsert by repository name, ignoring `null`. */
    method OnProgress(progress: Option<Progress>)
      modifies this
      ensures progressList == Apply(old(progressList), progress)
      ensures summary == old(summary) && statusMessage == old(statusMessage)
      ensures finishedMessage == old(finishedMessage) && errorMessage == old(errorMessage)
    {
      if progress.Some? {
        var index := FindIndex(progressList, progress.value.repo);
        if index >= 0 {
          progressList := progressList[index := progress.value];
        } else {
          progressList := progressList + [progress.value];
        }
      }
    }

    /** The `summary$` subscription: the latest value, `null` included. */
    method OnSummary(s: Option<Summary>)
      modifies this
      ensures summary == s
      ensures progressList == old(progressList) && statusMessage == old(statusMessage)
      ensures finishedMessage == old(finishedMessage) && errorMessage == old(errorMessage)
    {
      summary := s;
    }

    /** The `status$` subscription reads `Message`, which no payload arrives with: the message stays "". */
    method OnStatus(status: Option<Payload>)
      modifies this
      ensures statusMessage == Read(status, "Message") == ""
      ensures progressList == old(progressList) && summary == old(summary)
      ensures finishedMessage == old(finishedMessage) && errorMessage == old(errorMessage)
    {
      CapitalisedKeyReadsNothing(status);
      statusMessage := Read(status, "Message");
    }

    method OnFinished(finished: Option<Payload>)
      modifies this
      ensures finishedMessage == Read(finished, "message")
      ensures progressList == old(progressList) && summary == old(summary)
      ensures statusMessage == old(statusMessage) && errorMessage == old(errorMessage)
    {
      finishedMessage := Read(finished, "message");
    }

    method OnError(err: Option<Payload>)
      modifies this
      ensures errorMessage == Read(err, "message")
      ensures progressList == old(progressList) && summary == old(summary)
      ensures statusMessage == old(statusMessage) && finishedMessage == old(finishedMessage)
    {
      errorMessage := Read(err, "message");
    }
  }

  /** After the upsert the first entry for the repository is the value just received. */
  lemma UpsertFinds(list: seq<Progress>, p: Progress)
    ensures var i := FindIndex(Upsert(list, p), p.repo);
      0 <= i && Upsert(list, p)[i] == p
  {
    var i := FindIndex(list, p.repo);
    var u := Upsert(list, p);
    if i >= 0 {
      assert u[i] == p;
      assert forall j :: 0 <= j < i ==> u[j] == list[j];
    } else {
      assert u[|list|] == p;
      assert forall j :: 0 <= j < |list| ==> u[j] == list[j];
    }
  }

  /** The upsert keeps repository names unique. */
  lemma UpsertKeepsUnique(list: seq<Progress>, p: Progress)
    requires UniqueRepos(list)
    ensures UniqueRepos(Upsert(list, p))
  {
    var i := FindIndex(list, p.repo);
    var u := Upsert(list, p);
    if i >= 0 {
      forall a, b | 0 <= a < b < |u|
        ensures u[a].repo != u[b].repo
      {
        assert u[a].repo == list[a].repo && u[b].repo == list[b].repo;
      }
    } else {
      forall a, b | 0 <= a < b < |u|
        ensures u[a].repo != u[b].repo
      {
        assert u[a] == list[a];
      }
    }
  }

  /** Unique names, in the order their repositories first appeared, survive any sequence of emissions. */
  lemma {:induction false} ReplayKeepsUnique(list: seq<Progress>, emitted: seq<Option<Progress>>)
    requires UniqueRepos(list)
    ensures UniqueRepos(Replay(list, emitted))
    decreases |emitted|
  {
    if emitted != [] {
      if emitted[0].Some? {
        UpsertKeepsUnique(list, emitted[0].value);
      }
      ReplayKeepsUnique(Apply(list, emitted[0]), emitted[1..]);
    }
  }

  /** `findIndex` finds the repository exactly when it is among the listed names. */
  lemma FoundIffListed(list: seq<Progress>, repo: string)
    ensures FindIndex(list, repo) >= 0 <==> repo in Repos(list)
  {
    if repo in Repos(list) {
      var k :| 0 <= k < |Repos(list)| && Repos(list)[k] == repo;
      assert list[k].repo == repo;
    }
  }

  /** The names of the list after one emission. */
  lemma ApplyRepos(list: seq<Progress>, e: Option<Progress>)
    ensures Repos(Apply(list, e)) ==
      if e.Some? && e.value.repo !in Repos(list) then Repos(list) + [e.value.repo] else Repos(list)
  {
    if e.Some? {
      var p := e.value;
      FoundIffListed(list, p.repo);
      var u := Upsert(list, p);
      if p.repo in Repos(list) {
        assert Repos(u) == Repos(list) by {
          assert forall j :: 0 <= j < |u| ==> Repos(u)[j] == Repos(list)[j];
        }
      } else {
        assert Repos(u) == Repos(list) + [p.repo] by {
          assert forall j :: 0 <= j < |list| ==> Repos(u)[j] == Repos(list)[j];
        }
      }
    }
  }

  /**
   * The repositories listed after a replay are those of the emissions, in
   * the order each first appeared, after the ones already listed.
   */
  lemma {:induction false} ReplayRepos(list: seq<Progress>, emitted: seq<Option<Progress>>)
    ensures Repos(Replay(list, emitted)) == FirstAppearances(Repos(list), EmittedRepos(emitted))
    decreases |emitted|
  {
    if emitted != [] {
      var e := emitted[0];
      var next := Apply(list, e);
      ApplyRepos(list, e);
      ReplayRepos(next, emitted[1..]);
      if e.Some? {
        assert EmittedRepos(emitted) == [e.value.repo] + EmittedRepos(emitted[1..]);
        assert EmittedRepos(emitted)[1..] == EmittedRepos(emitted[1..]);
      } else {
        assert EmittedRepos(emitted) == EmittedRepos(emitted[1..]);
      }
    }
  }

  /** Replaying onto the list, an entry for `repo` holds the latest value received for it. */
  lemma {:induction false} ReplayHoldsLatest(list: seq<Progress>, emitted: seq<Option<Progress>>, repo: string)
    requires UniqueRepos(list)
    requires LatestFor(emitted, repo).Some?
    ensures var r := Replay(list, emitted);
      var i := FindIndex(r, repo);
      0 <= i && r[i] == LatestFor(emitted, repo).value
    decreases |emitted|
  {
    var e := emitted[0];
    var next := Apply(list, e);
    if e.Some? {
      UpsertKeepsUnique(list, e.value);
    }
    if LatestFor(emitted[1..], repo).Some? {
      ReplayHoldsLatest(next, emitted[1..], repo);
    } else {
      UpsertFinds(list, e.value);
      ReplayKeepsEntry(next, emitted[1..], repo);
    }
  }

  /** Emissions for other repositories leave the entry for `repo` alone. */
  lemma {:induction false} ReplayKeepsEntry(list: seq<Progress>, emitted: seq<Option<Progress>>, repo: string)
    requires FindIndex(list, repo) >= 0
    requires LatestFor(emitted, repo).None?
    ensures var r := Replay(list, emitted);
      FindIndex(r, repo) == FindIndex(list, repo) && r[FindIndex(r, repo)] == list[FindIndex(list, repo)]
    decreases |emitted|
  {
    if emitted != [] {
      var e := emitted[0];
      var next := Apply(list, e);
      var i := FindIndex(list, repo);
      assert e.Some? ==> e.value.repo != repo;
      assert next[i] == list[i];
      ReplayKeepsEntry(next, emitted[1..], repo);
    }
  }
}
