/** The two end-to-end cases of tests/test_func.py, with the collaborators
    stubbed to succeed and the uuid fixed to the test's token.  The payloads
    are small documents holding only the fields the accessors read, with the
    values the tests assert (the pull request's `full_name` is filled in by
    hand); the fixtures tests/push_repo.json and tests/pullrequest_updated.json
    are not part of this model. */
module Scenarios {
  import opened Results
  import opened JsonValue
  import opened Outcomes
  import opened Events
  import opened BuildConfig
  import opened Orchestrator

  const Token := "1ccb32b0-77e5-4011-8e6d-106a02d10760"
  const TestRepo := "test-repo"
  const TestBranch := "feature/test-branch"
  const TestCloneUrl := "https://bitbucket.org/garman/test-repo"

  function TestEnv(): map<string, string> {
    map[ProjectVariable := "my-project", BucketVariable := "my-bucket"]
  }

  /** The workspace of the tests: their cloudbuild.yaml is `{steps: []}`. */
  function TestWorkspace(tmpdir: string): Workspace {
    Workspace(tmpdir, Token, Some(Obj(map["steps" := Arr([])])))
  }

  function TestRepository(): Json {
    Obj(map[
      "name" := Str(TestRepo),
      "links" := Obj(map["html" := Obj(map["href" := Str(TestCloneUrl)])])])
  }

  function PushPayload(commit: string): Json {
    Obj(map[
      "repository" := TestRepository(),
      "push" := Obj(map["changes" := Arr([
        Obj(map[
          "new" := Obj(map["name" := Str(TestBranch)]),
          "commits" := Arr([Obj(map["hash" := Str(commit)])])])])])])
  }

  function PullRequestPayload(commit: string): Json {
    Obj(map[
      "repository" := TestRepository(),
      "pullrequest" := Obj(map["source" := Obj(map[
        "commit" := Obj(map["hash" := Str(commit)]),
        "branch" := Obj(map["name" := Str(TestBranch)]),
        "repository" := Obj(map["full_name" := Str("garman/test-repo")])])])])
  }

  function TestRequest(key: string, payload: Json): Request {
    Request(map[UserAgentHeader := BitbucketUserAgent, EventKeyHeader := key], Some(payload))
  }

  /** The effects the tests expect for a commit and its short form. */
  function Expected(tmpdir: string, commit: string, short: string): seq<Effect> {
    var tarball := PathJoin(tmpdir, commit + "-" + Token + ".tar.gz");
    [ Clone(["--branch", TestBranch, "--depth=1", "--single-branch", TestCloneUrl, tmpdir]),
      Archive(["-o", tarball, "HEAD"], tmpdir),
      Upload(tarball, "my-bucket"),
      Submit("my-project", map[
        "source" := Obj(map["bucket" := Str("my-bucket"), "object" := Str(tarball)]),
        "steps" := Arr([]),
        "substitutions" := Obj(map[
          "REPO_NAME" := Str(TestRepo),
          "BRANCH_NAME" := Str(TestBranch),
          "REVISION_ID" := Str(commit),
          "COMMIT_SHA" := Str(commit),
          "SHORT_SHA" := Str(short)])]) ]
  }

  /** A completed run of a job with the test workspace performs the expected effects. */
  lemma RunWithTestWorkspace(job: Job, tmpdir: string, short: string, rest: string)
    requires job == Job("my-bucket", "my-project", TestRepo, TestBranch, short + rest, TestCloneUrl)
    requires |short| == 7
    ensures Run(job, TestWorkspace(tmpdir), AllSucceed) == Done(Expected(tmpdir, job.commit, short))
  {
    ShortShaOfRevision(short, rest);
    var ws := TestWorkspace(tmpdir);
    var repo := map["steps" := Arr([])];
    var tarball := TarballPath(tmpdir, job.commit, Token);
    AssembleKeepsGenerated(job.bucket, job.repo, job.branch, job.commit, repo, tarball);
    var o := Run(job, ws, AllSucceed);
    assert o.Done?;
    SubmittedConfig(job, ws, AllSucceed, repo);
    var config := o.trace[3].config;
    assert config == Expected(tmpdir, job.commit, short)[3].config;
  }

  function TestJob(commit: string): Job {
    Job("my-bucket", "my-project", TestRepo, TestBranch, commit, TestCloneUrl)
  }

  /** Both payloads share the repository object: its name and clone URL. */
  lemma RepositoryFields(d: Json)
    requires d.Obj? && "repository" in d.fields && d.fields["repository"] == TestRepository()
    ensures GetPath(d, RepoPath) == Ok(Str(TestRepo))
    ensures GetPath(d, CloneUrlPath) == Ok(Str(TestCloneUrl))
  {
    var r := TestRepository();
    assert Get(d, Field("repository")) == Ok(r);
    assert RepoPath == [Field("repository")] + [Field("name")];
    GetPathAppend(d, [Field("repository")], [Field("name")]);
    var links := r.fields["links"];
    assert Get(r, Field("links")) == Ok(links);
    assert CloneUrlPath == [Field("repository")] + ([Field("links")] + [Field("html"), Field("href")]);
    GetPathAppend(d, [Field("repository")], [Field("links")] + [Field("html"), Field("href")]);
    GetPathAppend(r, [Field("links")], [Field("html"), Field("href")]);
  }

  /** The push payload's commit and branch, read from its first change. */
  lemma PushChangeFields(commit: string)
    ensures var e := Push(PushPayload(commit));
      Commit(e) == Ok(Str(commit)) && Branch(e) == Ok(Str(TestBranch))
  {
    var d := PushPayload(commit);
    var changes := d.fields["push"].fields["changes"].items;
    var change := changes[0];
    var commits := change.fields["commits"].items;
    ReadTwo(d, "push", "changes", Arr(changes));
    assert Get(change, Field("commits")) == Ok(Arr(commits));
    assert [Field("commits")] == [Field("commits")] + [];
    PushFieldsFromFirstChange(d, changes, commits);
    assert Get(commits[0], Field("hash")) == Ok(Str(commit));
    ReadTwo(change, "new", "name", Str(TestBranch));
  }

  /** The push payload yields the test job: repo, branch, commit and clone URL
      from their push-event paths, bucket and project from the environment. */
  lemma PushJob(commit: string)
    ensures Prepare(Push(PushPayload(commit)), TestEnv()) == Ok(TestJob(commit))
  {
    PushChangeFields(commit);
    RepositoryFields(PushPayload(commit));
  }

  /** Two nested dict reads. */
  lemma ReadTwo(v: Json, outer: string, inner: string, leaf: Json)
    requires v.Obj? && outer in v.fields
    requires v.fields[outer].Obj? && inner in v.fields[outer].fields
    requires v.fields[outer].fields[inner] == leaf
    ensures GetPath(v, [Field(outer), Field(inner)]) == Ok(leaf)
  {
    assert Get(v, Field(outer)) == Ok(v.fields[outer]);
    GetPathAppend(v, [Field(outer)], [Field(inner)]);
    assert [Field(outer)] + [Field(inner)] == [Field(outer), Field(inner)];
  }

  /** The pull-request payload's commit and branch, read from its source side. */
  lemma PullRequestSourceFields(commit: string)
    ensures var e := PullRequestUpdated(PullRequestPayload(commit));
      Commit(e) == Ok(Str(commit)) && Branch(e) == Ok(Str(TestBranch))
  {
    var d := PullRequestPayload(commit);
    var source := d.fields["pullrequest"].fields["source"];
    ReadTwo(d, "pullrequest", "source", source);
    PullRequestFieldsFromSource(d, source);
    ReadTwo(source, "commit", "hash", Str(commit));
    ReadTwo(source, "branch", "name", Str(TestBranch));
  }

  /** The pull-request payload yields the test job. */
  lemma PullRequestJob(commit: string)
    ensures Prepare(PullRequestUpdated(PullRequestPayload(commit)), TestEnv()) == Ok(TestJob(commit))
  {
    PullRequestSourceFields(commit);
    RepositoryFields(PullRequestPayload(commit));
  }

  /** A well-formed test request reaches the run of its job. */
  lemma TestRequestRuns(key: string, e: Event, tmpdir: string)
    requires key in Classification && KindOf(e) == Classification[key]
    requires Prepare(e, TestEnv()).Ok?
    ensures Trigger(TestRequest(key, e.data), TestEnv(), TestWorkspace(tmpdir), AllSucceed)
         == Run(Prepare(e, TestEnv()).value, TestWorkspace(tmpdir), AllSucceed)
  {
    var req := TestRequest(key, e.data);
    assert req.headers[EventKeyHeader] == key;
    assert CreateEvent(req) == Ok(Some(e));
  }

  /** test_push_repo: a push of feature/test-branch at d2edcfc2… clones that
      branch, archives and uploads `{commit}-{token}.tar.gz` to my-bucket and
      submits to my-project with SHORT_SHA `d2edcfc`. */
  lemma PushRepoScenario(tmpdir: string)
    ensures
      var commit := "d2edcfc" + "2b34ebd9244eaa4919aae28661366ca9b";
      Trigger(TestRequest(PushKey, PushPayload(commit)), TestEnv(), TestWorkspace(tmpdir), AllSucceed)
        == Done(Expected(tmpdir, commit, "d2edcfc"))
  {
    var commit := "d2edcfc" + "2b34ebd9244eaa4919aae28661366ca9b";
    PushJob(commit);
    TestRequestRuns(PushKey, Push(PushPayload(commit)), tmpdir);
    RunWithTestWorkspace(TestJob(commit), tmpdir, "d2edcfc", "2b34ebd9244eaa4919aae28661366ca9b");
  }

  /** test_pullrequest_updated: the pull request's source commit 4d80f7a7d7bd
      gives SHORT_SHA `4d80f7a`, and REPO_NAME is `repository.name` although
      the source repository's full name is garman/test-repo. */
  lemma PullRequestUpdatedScenario(tmpdir: string)
    ensures
      var commit := "4d80f7a" + "7d7bd";
      Trigger(TestRequest(PullRequestUpdatedKey, PullRequestPayload(commit)), TestEnv(),
              TestWorkspace(tmpdir), AllSucceed)
        == Done(Expected(tmpdir, commit, "4d80f7a"))
  {
    var commit := "4d80f7a" + "7d7bd";
    PullRequestJob(commit);
    TestRequestRuns(PullRequestUpdatedKey, PullRequestUpdated(PullRequestPayload(commit)), tmpdir);
    RunWithTestWorkspace(TestJob(commit), tmpdir, "4d80f7a", "7d7bd");
  }
}
