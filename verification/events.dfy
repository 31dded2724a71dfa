/** cloud_build_trigger/event.py: classifying a Bitbucket webhook request and
    reading the fields a build needs out of its payload. */
module Events {
  import opened Results
  import opened JsonValue
  import opened Outcomes

  const EventKeyHeader := "X-Event-Key"
  const UserAgentHeader := "User-Agent"
  const BitbucketUserAgent := "Bitbucket-Webhooks/2.0"
  const PushKey := "repo:push"
  const PullRequestUpdatedKey := "pullrequest:updated"

  /** The inbound request: its headers, and its body as `json.loads` would
      return it (`None` when the body is not valid JSON). */
  datatype Request = Request(headers: map<string, string>, body: Option<Json>)

  /** An event holds the parsed payload; every field is read from it on demand. */
  datatype Event = Push(data: Json) | PullRequestUpdated(data: Json)

  datatype Kind = PushKind | PullRequestUpdatedKind

  function KindOf(e: Event): Kind {
    match e
    case Push(_) => PushKind
    case PullRequestUpdated(_) => PullRequestUpdatedKind
  }

  /** The event keys that lead to a build, and the variant each selects. */
  const Classification: map<string, Kind> :=
    map[PushKey := PushKind, PullRequestUpdatedKey := PullRequestUpdatedKind]

  /** `create_event_from_request`: a missing X-Event-Key raises, an unknown key
      gives no event, and a known key parses the body into its variant. */
  function CreateEvent(req: Request): (r: Result<Option<Event>, Fault>)
    ensures EventKeyHeader !in req.headers ==> r == Err(MissingHeader(EventKeyHeader))
    ensures EventKeyHeader in req.headers ==>
      (r == Ok(None) <==> req.headers[EventKeyHeader] !in Classification)
    ensures EventKeyHeader in req.headers ==>
      (r == Err(MalformedPayload) <==>
         req.headers[EventKeyHeader] in Classification && req.body.None?)
    ensures
      && EventKeyHeader in req.headers
      && req.headers[EventKeyHeader] in Classification
      && req.body.Some?
      ==> r.Ok? && r.value.Some?
    ensures r.Ok? && r.value.Some? ==>
      && EventKeyHeader in req.headers
      && req.headers[EventKeyHeader] in Classification
      && KindOf(r.value.value) == Classification[req.headers[EventKeyHeader]]
      && req.body == Some(r.value.value.data)
  {
    if EventKeyHeader !in req.headers then Err(MissingHeader(EventKeyHeader))
    else
      var key := req.headers[EventKeyHeader];
      if key == PushKey then
        if req.body.None? then Err(MalformedPayload) else Ok(Some(Push(req.body.value)))
      else if key == PullRequestUpdatedKey then
        if req.body.None? then Err(MalformedPayload) else Ok(Some(PullRequestUpdated(req.body.value)))
      else
        Ok(None)
  }

  /** `Event.validate`: whether the User-Agent is Bitbucket's webhook sender;
      a request without the header raises instead of answering false. */
  function Validate(headers: map<string, string>): (r: Result<bool, Fault>)
    ensures r.Err? <==> UserAgentHeader !in headers
    ensures r.Ok? ==> (r.value <==> headers[UserAgentHeader] == BitbucketUserAgent)
  {
    if UserAgentHeader in headers then Ok(headers[UserAgentHeader] == BitbucketUserAgent)
    else Err(MissingHeader(UserAgentHeader))
  }

  const RepoPath: Path := [Field("repository"), Field("name")]
  const CloneUrlPath: Path := [Field("repository"), Field("links"), Field("html"), Field("href")]
  const PushCommitPath: Path :=
    [Field("push"), Field("changes"), Index(0), Field("commits"), Index(0), Field("hash")]
  const PushBranchPath: Path := [Field("push"), Field("changes"), Index(0), Field("new"), Field("name")]
  const FullNamePath: Path := [Field("pullrequest"), Field("source"), Field("repository"), Field("full_name")]
  const PullRequestCommitPath: Path := [Field("pullrequest"), Field("source"), Field("commit"), Field("hash")]
  const PullRequestBranchPath: Path := [Field("pullrequest"), Field("source"), Field("branch"), Field("name")]

  /** `Event.repo`, shared by both variants. */
  function Repo(e: Event): Result<Json, SubscriptError> {
    GetPath(e.data, RepoPath)
  }

  /** `Event.clone_url`, shared by both variants. */
  function CloneUrl(e: Event): Result<Json, SubscriptError> {
    GetPath(e.data, CloneUrlPath)
  }

  /** `PushRepoEvent.commit` / `PullRequestUpdatedEvent.commit`. */
  function Commit(e: Event): Result<Json, SubscriptError> {
    match e
    case Push(d) => GetPath(d, PushCommitPath)
    case PullRequestUpdated(d) => GetPath(d, PullRequestCommitPath)
  }

  /** `PushRepoEvent.branch` / `PullRequestUpdatedEvent.branch`. */
  function Branch(e: Event): Result<Json, SubscriptError> {
    match e
    case Push(d) => GetPath(d, PushBranchPath)
    case PullRequestUpdated(d) => GetPath(d, PullRequestBranchPath)
  }

  /** `PullRequestUpdatedEvent.full_name`; push events have no such property. */
  function FullName(e: Event): Result<Json, SubscriptError>
    requires e.PullRequestUpdated?
  {
    GetPath(e.data, FullNamePath)
  }

  /** A push event's commit is the hash of the first commit of the first
      change, and its branch the first change's new name; with no changes,
      or no commits, the read raises IndexError. */
  lemma PushFieldsFromFirstChange(d: Json, changes: seq<Json>, commits: seq<Json>)
    requires GetPath(d, [Field("push"), Field("changes")]) == Ok(Arr(changes))
    requires |changes| > 0 ==> GetPath(changes[0], [Field("commits")]) == Ok(Arr(commits))
    ensures Commit(Push(d)) ==
      if |changes| == 0 || |commits| == 0 then Err(OutOfRange)
      else Get(commits[0], Field("hash"))
    ensures Branch(Push(d)) ==
      if |changes| == 0 then Err(OutOfRange)
      else GetPath(changes[0], [Field("new"), Field("name")])
  {
    var top: Path := [Field("push"), Field("changes")];
    assert PushCommitPath == top + ([Index(0)] + ([Field("commits")] + ([Index(0)] + [Field("hash")])));
    assert PushBranchPath == top + ([Index(0)] + [Field("new"), Field("name")]);
    GetPathAppend(d, top, [Index(0)] + ([Field("commits")] + ([Index(0)] + [Field("hash")])));
    GetPathAppend(d, top, [Index(0)] + [Field("new"), Field("name")]);
    var cs := Arr(changes);
    GetPathAppend(cs, [Index(0)], [Field("commits")] + ([Index(0)] + [Field("hash")]));
    GetPathAppend(cs, [Index(0)], [Field("new"), Field("name")]);
    if |changes| > 0 {
      var c := changes[0];
      GetPathAppend(c, [Field("commits")], [Index(0)] + [Field("hash")]);
      GetPathAppend(Arr(commits), [Index(0)], [Field("hash")]);
    }
  }

  /** Both variants read repo and clone URL from the payload's top-level
      `repository`, whatever the payload holds. */
  lemma SharedRepositoryFields(d: Json)
    ensures Repo(PullRequestUpdated(d)) == Repo(Push(d))
    ensures CloneUrl(PullRequestUpdated(d)) == CloneUrl(Push(d))
  {
  }

  /** A pull-request event reads commit and branch from the pull request's
      source side, while its repo is still `repository.name`: the same read
      as a push event, not the source repository's `full_name`. */
  lemma PullRequestFieldsFromSource(d: Json, source: Json)
    requires GetPath(d, [Field("pullrequest"), Field("source")]) == Ok(source)
    ensures Commit(PullRequestUpdated(d)) == GetPath(source, [Field("commit"), Field("hash")])
    ensures Branch(PullRequestUpdated(d)) == GetPath(source, [Field("branch"), Field("name")])
    ensures FullName(PullRequestUpdated(d)) == GetPath(source, [Field("repository"), Field("full_name")])
    ensures Repo(PullRequestUpdated(d)) == Repo(Push(d))
    ensures CloneUrl(PullRequestUpdated(d)) == CloneUrl(Push(d))
  {
    var top: Path := [Field("pullrequest"), Field("source")];
    assert PullRequestCommitPath == top + [Field("commit"), Field("hash")];
    assert PullRequestBranchPath == top + [Field("branch"), Field("name")];
    assert FullNamePath == top + [Field("repository"), Field("full_name")];
    GetPathAppend(d, top, [Field("commit"), Field("hash")]);
    GetPathAppend(d, top, [Field("branch"), Field("name")]);
    GetPathAppend(d, top, [Field("repository"), Field("full_name")]);
  }

  /** Whatever `repository.name` and the source repository's `full_name`
      hold, a pull-request event's repo is the former. */
  lemma PullRequestRepoIsNotFullName(name: Json, fullName: Json)
    ensures
      var d := Obj(map[
        "repository" := Obj(map["name" := name]),
        "pullrequest" := Nest([Field("source"), Field("repository"), Field("full_name")], fullName)]);
      Repo(PullRequestUpdated(d)) == Ok(name) && FullName(PullRequestUpdated(d)) == Ok(fullName)
  {
    var tail: Path := [Field("source"), Field("repository"), Field("full_name")];
    var d := Obj(map[
      "repository" := Obj(map["name" := name]),
      "pullrequest" := Nest(tail, fullName)]);
    GetPathNest(tail, fullName);
    assert FullNamePath == [Field("pullrequest")] + tail;
    GetPathAppend(d, [Field("pullrequest")], tail);
  }
}
