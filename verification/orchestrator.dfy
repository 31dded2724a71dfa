/** main.py `trigger`: classify, validate, read the environment and the event,
    then clone, assemble the configuration, archive, upload and submit. */
module Orchestrator {
  import opened Results
  import opened JsonValue
  import opened Outcomes
  import opened Events
  import opened BuildConfig

  const BucketVariable := "BUCKET"
  const ProjectVariable := "GCP_PROJECT"

  /** The values a build needs, once read from the environment and the event. */
  datatype Job = Job(bucket: string, project: string, repo: string, branch: string,
                     commit: string, cloneUrl: string)

  /** What the temporary workspace supplies: the directory `TemporaryDirectory`
      created, the `uuid1` token, and cloudbuild.yaml as loaded from the clone
      (`None` when it cannot be opened or parsed). */
  datatype Workspace = Workspace(tmpdir: string, suffix: string, cloudbuildYaml: Option<Json>)

  /** Every collaborator call succeeds. */
  function AllSucceed(e: Effect): bool {
    true
  }

  /** `os.environ[name]`. */
  function Env(env: map<string, string>, name: string): Result<string, Fault> {
    if name in env then Ok(env[name]) else Err(MissingEnv(name))
  }

  predicate IsText(read: Result<Json, SubscriptError>) {
    read.Ok? && read.value.Str?
  }

  /** An event field as the string the rest of `trigger` uses. */
  function Text(field: string, read: Result<Json, SubscriptError>): Result<string, Fault> {
    match read
    case Err(e) => Err(BadField(field, e))
    case Ok(Str(s)) => Ok(s)
    case Ok(_) => Err(NonTextField(field))
  }

  /** main.py lines 43-56 and the reads of line 64, in the order they happen:
      the two environment variables, then repo, branch, commit and clone_url. */
  function Prepare(e: Event, env: map<string, string>): (r: Result<Job, Fault>)
    ensures BucketVariable !in env ==> r == Err(MissingEnv(BucketVariable))
    ensures BucketVariable in env && ProjectVariable !in env ==> r == Err(MissingEnv(ProjectVariable))
    ensures r.Ok? <==>
      && BucketVariable in env && ProjectVariable in env
      && IsText(Repo(e)) && IsText(Branch(e)) && IsText(Commit(e)) && IsText(CloneUrl(e))
    ensures r.Ok? ==>
      && r.value.bucket == env[BucketVariable]
      && r.value.project == env[ProjectVariable]
      && Repo(e) == Ok(Str(r.value.repo))
      && Branch(e) == Ok(Str(r.value.branch))
      && Commit(e) == Ok(Str(r.value.commit))
      && CloneUrl(e) == Ok(Str(r.value.cloneUrl))
  {
    var bucket :- Env(env, BucketVariable);
    var project :- Env(env, ProjectVariable);
    var repo :- Text("repo", Repo(e));
    var branch :- Text("branch", Branch(e));
    var commit :- Text("commit", Commit(e));
    var cloneUrl :- Text("clone_url", CloneUrl(e));
    Ok(Job(bucket, project, repo, branch, commit, cloneUrl))
  }

  /** The arguments of the shallow, single-branch clone into the workspace. */
  function CloneArgs(branch: string, cloneUrl: string, tmpdir: string): seq<string> {
    ["--branch", branch, "--depth=1", "--single-branch", cloneUrl, tmpdir]
  }

  /** The effects of a build that goes through, in the order they happen. */
  function Plan(job: Job, ws: Workspace, config: Config): seq<Effect> {
    var tarball := TarballPath(ws.tmpdir, job.commit, ws.suffix);
    [ Clone(CloneArgs(job.branch, job.cloneUrl, ws.tmpdir)),
      Archive(["-o", tarball, "HEAD"], ws.tmpdir),
      Upload(tarball, job.bucket),
      Submit(job.project, config) ]
  }

  /** The configuration a job submits, if it gets that far. */
  function FinalConfig(job: Job, ws: Workspace): Result<Config, Fault> {
    Assemble(BaseConfig(job.bucket, job.repo, job.branch, job.commit), ws.cloudbuildYaml,
             TarballPath(ws.tmpdir, job.commit, ws.suffix))
  }

  /** main.py lines 59-78: the `with tempfile.TemporaryDirectory()` block and
      the submission after it.  Each collaborator call is attempted only when
      every earlier one succeeded. */
  function Run(job: Job, ws: Workspace, succeeds: Effect -> bool): (o: Outcome)
    ensures !o.Ignored?
    ensures |o.Effects()| >= 1 && o.Effects()[0] == Clone(CloneArgs(job.branch, job.cloneUrl, ws.tmpdir))
  {
    var clone := Clone(CloneArgs(job.branch, job.cloneUrl, ws.tmpdir));
    if !succeeds(clone) then Failed([clone], EffectFailed(clone))
    else
      var tarball := TarballPath(ws.tmpdir, job.commit, ws.suffix);
      match Assemble(BaseConfig(job.bucket, job.repo, job.branch, job.commit), ws.cloudbuildYaml, tarball)
      case Err(f) => Failed([clone], f)
      case Ok(config) =>
        var archive := Archive(["-o", tarball, "HEAD"], ws.tmpdir);
        var upload := Upload(tarball, job.bucket);
        var submit := Submit(job.project, config);
        if !succeeds(archive) then Failed([clone, archive], EffectFailed(archive))
        else if !succeeds(upload) then Failed([clone, archive, upload], EffectFailed(upload))
        else if !succeeds(submit) then Failed([clone, archive, upload, submit], EffectFailed(submit))
        else Done([clone, archive, upload, submit])
  }

  /** main.py `trigger(req)`.  The try block covers only the `validate` call,
      so only a missing event (`None.validate`) or a missing User-Agent header
      leads to the silent return; what `validate` answers is discarded. */
  function Trigger(req: Request, env: map<string, string>, ws: Workspace,
                   succeeds: Effect -> bool): Outcome
  {
    match CreateEvent(req)
    case Err(f) => Failed([], f)
    case Ok(None) => Ignored
    case Ok(Some(e)) =>
      if Validate(req.headers).Err? then Ignored
      else
        match Prepare(e, env)
        case Err(f) => Failed([], f)
        case Ok(job) => Run(job, ws, succeeds)
  }

  /** A request is ignored exactly when its event key is not one of the two
      recognised ones, or when it is recognised, its body parses, and it has
      no User-Agent header.  A request without an event key is a failure, not
      an ignored request, and so is a recognised key whose body does not
      parse; neither performs an effect. */
  lemma IgnoredExactly(req: Request, env: map<string, string>, ws: Workspace, succeeds: Effect -> bool)
    ensures Trigger(req, env, ws, succeeds).Ignored? <==>
      && EventKeyHeader in req.headers
      && (|| req.headers[EventKeyHeader] !in Classification
          || (req.body.Some? && UserAgentHeader !in req.headers))
    ensures EventKeyHeader !in req.headers ==>
      Trigger(req, env, ws, succeeds) == Failed([], MissingHeader(EventKeyHeader))
    ensures EventKeyHeader in req.headers && req.headers[EventKeyHeader] in Classification && req.body.None? ==>
      Trigger(req, env, ws, succeeds) == Failed([], MalformedPayload)
  {
    match CreateEvent(req)
    case Err(_) =>
    case Ok(None) =>
    case Ok(Some(e)) =>
      if Validate(req.headers).Ok? {
        match Prepare(e, env)
        case Err(_) =>
        case Ok(job) =>
          assert !Run(job, ws, succeeds).Ignored?;
      }
  }

  /** What `validate` returns makes no difference: any User-Agent value,
      Bitbucket's or not, leads to the same outcome. */
  lemma ValidateResultDiscarded(req: Request, env: map<string, string>, ws: Workspace,
                                succeeds: Effect -> bool, agent: string)
    requires UserAgentHeader in req.headers
    ensures Trigger(Request(req.headers[UserAgentHeader := agent], req.body), env, ws, succeeds)
         == Trigger(req, env, ws, succeeds)
  {
    var other := Request(req.headers[UserAgentHeader := agent], req.body);
    assert EventKeyHeader != UserAgentHeader;
    assert (EventKeyHeader in other.headers) == (EventKeyHeader in req.headers);
    if EventKeyHeader in req.headers {
      assert other.headers[EventKeyHeader] == req.headers[EventKeyHeader];
    }
    assert CreateEvent(other) == CreateEvent(req);
    assert Validate(other.headers).Ok? && Validate(req.headers).Ok?;
  }

  /** The effects of any run are a prefix of the effects of the same run
      with every collaborator succeeding; every effect but the last one
      performed succeeded, and a failing collaborator is the last effect. */
  lemma RunStopsAtFirstFailure(job: Job, ws: Workspace, succeeds: Effect -> bool)
    ensures Run(job, ws, succeeds).Effects() <= Run(job, ws, AllSucceed).Effects()
    ensures var t := Run(job, ws, succeeds).Effects();
      forall i :: 0 <= i < |t| - 1 ==> succeeds(t[i])
    ensures var o := Run(job, ws, succeeds);
      o.Failed? && o.fault.EffectFailed? ==>
        o.trace[|o.trace| - 1] == o.fault.effect && !succeeds(o.fault.effect)
    ensures var o := Run(job, ws, succeeds);
      o.Failed? && FinalConfig(job, ws).Ok? ==>
        o.fault == EffectFailed(o.trace[|o.trace| - 1]) && !succeeds(o.fault.effect)
    ensures var o := Run(job, ws, succeeds);
      o.Done? <==> Run(job, ws, AllSucceed).Done? && forall i :: 0 <= i < |o.Effects()| ==> succeeds(o.Effects()[i])
  {
    var clone := Clone(CloneArgs(job.branch, job.cloneUrl, ws.tmpdir));
    if succeeds(clone) {
      match FinalConfig(job, ws)
      case Err(_) =>
      case Ok(config) =>
        var p := Plan(job, ws, config);
        assert Run(job, ws, AllSucceed) == Done(p);
        var o := Run(job, ws, succeeds);
        assert o.Effects() == p[..|o.Effects()|];
    }
  }

  /** Before the archive: a failing clone is the only effect, and so is a
      clone followed by a configuration that does not assemble. */
  lemma RunUpToConfig(job: Job, ws: Workspace, succeeds: Effect -> bool)
    ensures var clone := Clone(CloneArgs(job.branch, job.cloneUrl, ws.tmpdir));
      !succeeds(clone) ==> Run(job, ws, succeeds) == Failed([clone], EffectFailed(clone))
    ensures var clone := Clone(CloneArgs(job.branch, job.cloneUrl, ws.tmpdir));
      succeeds(clone) && FinalConfig(job, ws).Err? ==>
        Run(job, ws, succeeds) == Failed([clone], FinalConfig(job, ws).error)
  {
  }

  /** With every collaborator succeeding, a run completes exactly when its
      configuration assembles. */
  lemma RunCompletesIffConfigAssembles(job: Job, ws: Workspace)
    ensures Run(job, ws, AllSucceed).Done? <==> FinalConfig(job, ws).Ok?
    ensures FinalConfig(job, ws).Ok? ==>
      Run(job, ws, AllSucceed) == Done(Plan(job, ws, FinalConfig(job, ws).value))
  {
  }

  /** For a whole request: whatever the collaborators do, the effects are a
      prefix of those of the same request when they all succeed, and no
      effect follows one that failed. */
  lemma TriggerStopsAtFirstFailure(req: Request, env: map<string, string>, ws: Workspace,
                                   succeeds: Effect -> bool)
    ensures Trigger(req, env, ws, succeeds).Effects() <= Trigger(req, env, ws, AllSucceed).Effects()
    ensures var t := Trigger(req, env, ws, succeeds).Effects();
      forall i :: 0 <= i < |t| - 1 ==> succeeds(t[i])
    ensures Trigger(req, env, ws, succeeds).Done? ==>
      forall i :: 0 <= i < |Trigger(req, env, ws, succeeds).trace| ==> succeeds(Trigger(req, env, ws, succeeds).trace[i])
  {
    match CreateEvent(req)
    case Err(_) =>
    case Ok(None) =>
    case Ok(Some(e)) =>
      if Validate(req.headers).Ok? {
        match Prepare(e, env)
        case Err(_) =>
        case Ok(job) =>
          RunStopsAtFirstFailure(job, ws, succeeds);
      }
  }

  /** A request that is accepted and whose job is read runs that job; a
      request that completes is one of these.  An accepted request whose
      job cannot be read (a missing variable, an unreadable field) fails
      with that fault before any effect. */
  lemma TriggerRunsAcceptedJob(req: Request, env: map<string, string>, ws: Workspace,
                               succeeds: Effect -> bool)
    ensures Trigger(req, env, ws, succeeds).Done? ==>
      && CreateEvent(req).Ok? && CreateEvent(req).value.Some?
      && UserAgentHeader in req.headers
      && Prepare(CreateEvent(req).value.value, env).Ok?
    ensures
      && CreateEvent(req).Ok? && CreateEvent(req).value.Some?
      && UserAgentHeader in req.headers
      && Prepare(CreateEvent(req).value.value, env).Ok?
      ==> Trigger(req, env, ws, succeeds) == Run(Prepare(CreateEvent(req).value.value, env).value, ws, succeeds)
    ensures
      && CreateEvent(req).Ok? && CreateEvent(req).value.Some?
      && UserAgentHeader in req.headers
      && Prepare(CreateEvent(req).value.value, env).Err?
      ==> Trigger(req, env, ws, succeeds) == Failed([], Prepare(CreateEvent(req).value.value, env).error)
  {
  }

  /** A completed run performed exactly clone, archive, upload and submit, in
      that order: the clone of the job's branch, the archive written to the
      tarball path, one upload of it to the job's bucket, and, last, one
      submission to the job's project of a configuration whose
      `source.object` is the tarball path. */
  lemma DoneEffectOrder(job: Job, ws: Workspace, succeeds: Effect -> bool)
    requires Run(job, ws, succeeds).Done?
    ensures
      var tarball := TarballPath(ws.tmpdir, job.commit, ws.suffix);
      var t := Run(job, ws, succeeds).trace;
      && |t| == 4
      && t[0] == Clone(["--branch", job.branch, "--depth=1", "--single-branch", job.cloneUrl, ws.tmpdir])
      && t[1] == Archive(["-o", tarball, "HEAD"], ws.tmpdir)
      && t[2] == Upload(tarball, job.bucket)
      && t[3].Submit?
      && t[3].project == job.project
      && FinalConfig(job, ws) == Ok(t[3].config)
      && "source" in t[3].config && t[3].config["source"].Obj?
      && "object" in t[3].config["source"].fields
      && t[3].config["source"].fields["object"] == Str(tarball)
      && forall i :: 0 <= i < 4 ==> succeeds(t[i])
  {
  }

  /** With a cloudbuild.yaml that defines neither `source` nor
      `substitutions`, the submitted configuration is the file's keys plus
      `source == {bucket, object}` and exactly the five generated
      substitutions: REPO_NAME, BRANCH_NAME, REVISION_ID and COMMIT_SHA from
      the event, and SHORT_SHA the commit's first seven characters. */
  lemma SubmittedConfig(job: Job, ws: Workspace, succeeds: Effect -> bool, repo: Config)
    requires ws.cloudbuildYaml == Some(Obj(repo))
    requires "source" !in repo && "substitutions" !in repo
    requires Run(job, ws, succeeds).Done?
    ensures var config := Run(job, ws, succeeds).trace[3].config;
      var tarball := TarballPath(ws.tmpdir, job.commit, ws.suffix);
      && config.Keys == repo.Keys + {"source", "substitutions"}
      && (forall k :: k in repo ==> config[k] == repo[k])
      && config["source"] == Obj(map["bucket" := Str(job.bucket), "object" := Str(tarball)])
      && config["substitutions"] == Obj(map[
           "REPO_NAME" := Str(job.repo),
           "BRANCH_NAME" := Str(job.branch),
           "REVISION_ID" := Str(job.commit),
           "COMMIT_SHA" := Str(job.commit),
           "SHORT_SHA" := Str(job.commit[..Min(7, |job.commit|)])])
  {
    var tarball := TarballPath(ws.tmpdir, job.commit, ws.suffix);
    AssembleKeepsGenerated(job.bucket, job.repo, job.branch, job.commit, repo, tarball);
    var short := ShortSha(job.commit);
    assert short == job.commit[..Min(7, |job.commit|)];
  }
}
