# cloud-build-trigger in Dafny

A model of the decision logic of `cloud-build-trigger`, a Cloud Function that
receives Bitbucket webhook requests and starts a Google Cloud Build for the
pushed or updated revision.

The model covers two pieces of the program:

- **Event classification and field extraction** (`cloud_build_trigger/event.py`).
  The `X-Event-Key` header selects a push event, a pull-request-updated event,
  or no event. Each event reads `repo`, `clone_url`, `commit` and `branch` from
  fixed paths in the parsed JSON payload. Python's subscript operator is
  modelled with its three ways of raising: `KeyError`, `IndexError` and
  `TypeError`. Events are immutable values, so reading a field never changes
  the event.
- **The `trigger` function** (`main.py`). It is a pure function of the request,
  the environment, the temporary workspace and the collaborators' success. It
  returns `Ignored`, `Failed(trace, fault)` or `Done(trace)`. The trace records
  the effects performed, in order: `Clone(args)`, `Archive(args, cwd)`,
  `Upload(tarball, bucket)` and `Submit(project, config)`. A failed request's
  trace ends with the effect that raised, if one did.

Files:

| file | module | contents |
|---|---|---|
| `results.dfy` | `Results` | `Option` and `Result` |
| `json.dfy` | `JsonValue` | the JSON tree, Python subscripts, path reads |
| `outcomes.dfy` | `Outcomes` | effects, faults, outcomes |
| `events.dfy` | `Events` | `create_event_from_request`, `validate`, the accessors |
| `buildconfig.dfy` | `BuildConfig` | substitutions, base config, `dict.update`, tarball path, `source.object` |
| `orchestrator.dfy` | `Orchestrator` | `trigger` |
| `scenarios.dfy` | `Scenarios` | the two end-to-end cases of the functional tests |

Where the code departs from what it evidently intends, the model follows the
code:

- A pull-request event's `repo` is `repository.name`, the same read as a push
  event. `full_name` is defined but never used.
- `validate`'s answer is discarded (main.py:38). Only an exception on that line
  leads to the silent return. That happens when there is no event
  (`None.validate`) or no `User-Agent` header. A request with the wrong
  `User-Agent` still builds.
- A request without `X-Event-Key` raises at main.py:35, outside the `try`. It
  fails; it is not ignored.
- The body is parsed only for a recognised key. So a malformed body with an
  unknown key is ignored, not a failure.
- `SHORT_SHA` is `commit[0:7]`. A commit shorter than seven characters gives
  the whole commit, not an error.
- The repository's `cloudbuild.yaml` overlays every top-level key, including
  `source` and `substitutions`.
- `source.object` is written after the merge. It holds the full local path of
  the tarball. The uploader names the blob by the path's basename
  (main.py:21), so the two differ whenever the temporary directory is
  non-empty. This is reproduced as written.

## Model

| member | source | states |
|---|---|---|
| `JsonValue.Get` | cloud_build_trigger/event.py:43 | A subscript on a dict returns the key's value, or raises `KeyError` (always for an integer key). A subscript on a list or str by an index returns the element (a one-character str for a str), or raises `IndexError` past the end. It raises `TypeError` exactly on a scalar, or on a list or str subscripted by a string. |
| `JsonValue.GetPath` | cloud_build_trigger/event.py:43 | A chain of subscripts, ending at the first one that raises. Its properties are in `JsonValue.GetPathAppend` and `JsonValue.GetPathNest`. |
| `JsonValue.GetPathAppend` | cloud_build_trigger/event.py:43 | A chain of subscripts can be split anywhere: read the first part, then the rest from where it lands. The first subscript that raises ends the chain. |
| `JsonValue.GetPathNest` | cloud_build_trigger/event.py:30-64 | A document built to hold a value at a path gives that value back when read along the path. |
| `Events.CreateEvent` | cloud_build_trigger/event.py:4-14 | A missing `X-Event-Key` raises. A key outside the table {`repo:push`, `pullrequest:updated`} gives no event. A key in the table with a parsed body always gives an event, of the variant the table names, holding that body. A key in the table with a body that is not JSON fails. |
| `Events.Validate` | cloud_build_trigger/event.py:26-27 | True iff `User-Agent` equals `Bitbucket-Webhooks/2.0`. A missing header raises instead of answering false. |
| `Events.Repo` | cloud_build_trigger/event.py:30-32 | `repository.name`, for both variants. Its properties are in `Events.SharedRepositoryFields` and `Events.PullRequestRepoIsNotFullName`. |
| `Events.CloneUrl` | cloud_build_trigger/event.py:35-37 | `repository.links.html.href`, for both variants. `Events.SharedRepositoryFields` states that both variants read it the same way. |
| `Events.Commit` | cloud_build_trigger/event.py:41-59 | The push or pull-request commit. Its properties are in `Events.PushFieldsFromFirstChange` and `Events.PullRequestFieldsFromSource`. |
| `Events.Branch` | cloud_build_trigger/event.py:46-64 | The push or pull-request branch. Its properties are in the same two lemmas. |
| `Events.FullName` | cloud_build_trigger/event.py:51-54 | The source repository's `full_name`, defined for pull-request events only. `Events.PullRequestRepoIsNotFullName` shows that `repo` never uses it. |
| `Events.PushFieldsFromFirstChange` | cloud_build_trigger/event.py:40-48 | A push event's commit is the hash of the first commit of the first change. Its branch is the first change's `new.name`. No changes, or no commits, raises `IndexError`. |
| `Events.SharedRepositoryFields` | cloud_build_trigger/event.py:30-37 | For every payload, a pull-request event's `repo` and `clone_url` are the same reads as a push event's. |
| `Events.PullRequestFieldsFromSource` | cloud_build_trigger/event.py:30-64 | A pull-request event's commit and branch come from `pullrequest.source`. Its `repo` and `clone_url` are the same reads as for a push event. |
| `Events.PullRequestRepoIsNotFullName` | cloud_build_trigger/event.py:30-54 | For a pull-request event, `repo` is `repository.name`, whatever the source repository's `full_name` holds. |
| `BuildConfig.ShortSha` | main.py:55 | `commit[0:7]` is a prefix of the commit, of length `min(7, len(commit))`. |
| `BuildConfig.ShortShaOfRevision` | main.py:55 | For a revision of at least seven characters, `SHORT_SHA` is exactly its first seven characters. |
| `BuildConfig.PathJoin` | main.py:70 | `os.path.join`: an absolute second part replaces the directory. Otherwise the result starts with the directory and ends with the name, with one separator added unless the directory is empty or ends in one. |
| `BuildConfig.Basename` | main.py:21 | `os.path.basename`: the longest separator-free suffix of the path. |
| `BuildConfig.BasenameOfJoin` | main.py:70 | Joining a separator-free name onto any directory and taking the basename gives the name back. |
| `BuildConfig.TarballBasename` | main.py:69-70 | The archive's own file name is `{commit}-{suffix}.tar.gz` when neither part contains a separator. |
| `BuildConfig.DistinctSuffixesDistinctTarballs` | main.py:69-70 | Different uniqueness tokens give different archive paths for the same commit and directory. |
| `BuildConfig.TarballPath` | main.py:69-70 | `os.path.join(tmpdir, f'{commit}-{suffix}.tar.gz')`. Its properties are in `BuildConfig.TarballBasename`, `BuildConfig.DistinctSuffixesDistinctTarballs` and `BuildConfig.ObjectKeyIsNotBasename`. |
| `BuildConfig.ObjectKeyIsNotBasename` | main.py:69-72 | For a non-empty temporary directory and any commit and token, the object key written into `source` (the full path) differs from the archive's basename, which is the name the uploader gives the blob. |
| `BuildConfig.Substitutions` | main.py:50-56 | The five substitutions. `Orchestrator.SubmittedConfig` states their values. |
| `BuildConfig.BaseConfig` | main.py:46-57 | The generated `{source: {bucket}, substitutions}`. `BuildConfig.GeneratedSourceKept` and `BuildConfig.GeneratedSubstitutionsKept` state what survives the overlay. |
| `BuildConfig.Merge` | main.py:67 | `config.update(repo)`: keys are the union. Every key of the repository file takes the file's value. Every other key keeps its generated value. |
| `BuildConfig.Update` | main.py:67 | `dict.update` performed key by key, in any order, equals the right-biased union. |
| `BuildConfig.SetSourceObject` | main.py:72 | Writes `object` into the mapping `source` holds, and changes nothing else. An absent or non-mapping `source` raises. |
| `BuildConfig.Assemble` | main.py:66-72 | An unreadable `cloudbuild.yaml` fails, and so does a non-mapping one. A mapping file succeeds exactly when the merged `source` is a mapping: the file's own `source` if it has one, else the generated one. Otherwise it fails with `SourceNotMapping`. On success, the file's keys other than `source` win, and the other generated keys survive. `source` is that mapping with `object` set to the tarball path. |
| `BuildConfig.GeneratedSourceKept` | main.py:46-72 | A file with no `source` key always assembles, and its `source` is exactly `{bucket, object}`. |
| `BuildConfig.GeneratedSubstitutionsKept` | main.py:46-67 | A file with no `substitutions` key leaves the generated substitutions in the assembled config. |
| `BuildConfig.AssembleKeepsGenerated` | main.py:46-72 | If the file defines neither `source` nor `substitutions`, the result is the file's keys plus `source == {bucket, object}` and the generated substitutions. |
| `BuildConfig.RepositorySourceOverridesBucket` | main.py:67-72 | Any `source` mapping in the file replaces the generated one: the result's `source` is the file's mapping with `object` added. The bucket is the file's, or absent if the file's mapping has none. |
| `Orchestrator.Prepare` | main.py:43-56 | A missing `BUCKET` fails first, then a missing `GCP_PROJECT`. On success, the job's bucket and project are those variables, and its repo, branch, commit and clone URL are the event's fields. |
| `Orchestrator.Run` | main.py:59-78 | Once the event is accepted, the request never ends ignored, and its first effect is the clone of the event's branch. |
| `Orchestrator.RunUpToConfig` | main.py:64-72 | A failing clone is the only effect. A successful clone followed by a configuration that does not assemble is the only effect too, and the request fails with the assembly's fault. |
| `Orchestrator.RunCompletesIffConfigAssembles` | main.py:59-78 | With every collaborator succeeding, a run completes exactly when its configuration assembles, and it then performs the planned four effects. |
| `Orchestrator.Trigger` | main.py:34-78 | `trigger` itself. Its properties are in `Orchestrator.IgnoredExactly`, `Orchestrator.ValidateResultDiscarded`, `Orchestrator.TriggerStopsAtFirstFailure` and `Orchestrator.TriggerRunsAcceptedJob`. |
| `Orchestrator.IgnoredExactly` | main.py:34-41 | A request is ignored iff its key is unrecognised, or its key is recognised, its body parses and it lacks `User-Agent`. A missing `X-Event-Key` fails with no effects, and so does a recognised key whose body does not parse. |
| `Orchestrator.ValidateResultDiscarded` | main.py:37-41 | Replacing the `User-Agent` value with any other string leaves the outcome unchanged. |
| `Orchestrator.RunStopsAtFirstFailure` | main.py:59-78 | A run's effects are a prefix of the all-succeed run's effects. Every effect before the last succeeded, and a failing collaborator is the last effect. Once the configuration assembles, a failed run's fault names its last effect, the archive, upload or submit call that failed. The run completes iff the all-succeed run does and every effect succeeded. |
| `Orchestrator.TriggerStopsAtFirstFailure` | main.py:34-78 | The same prefix and stop-at-failure property for a whole request. |
| `Orchestrator.TriggerRunsAcceptedJob` | main.py:34-78 | A request completes only if its event was created, it has a `User-Agent` and its job was read. Such a request runs exactly that job, whose fields `Orchestrator.Prepare` ties to the environment and the event. If the job cannot be read (a missing `BUCKET` or `GCP_PROJECT`, an unreadable event field), the request fails with that fault and no effects. |
| `Orchestrator.DoneEffectOrder` | main.py:59-78 | A completed run performed exactly four effects, in this order. First the clone `--branch b --depth=1 --single-branch url tmpdir`. Then the archive `-o tarball HEAD` in `tmpdir`. Then one upload of the tarball to the bucket. Last, one submission to the project of a config whose `source.object` is the tarball. |
| `Orchestrator.SubmittedConfig` | main.py:46-72 | With a file defining neither `source` nor `substitutions`, the submitted config has the five substitutions. `REPO_NAME` is the repo and `BRANCH_NAME` the branch. `REVISION_ID` and `COMMIT_SHA` are the commit. `SHORT_SHA` is its prefix of length `min(7, len)`. |
| `Scenarios.PushRepoScenario` | tests/test_func.py:71-96 | The push test case gives exactly the effects the test expects, including `SHORT_SHA` `d2edcfc`. The payload holds only the fields the accessors read; tests/push_repo.json is not part of this model. |
| `Scenarios.PullRequestUpdatedScenario` | tests/test_func.py:99-124 | The pull-request test case gives exactly the expected effects, with `SHORT_SHA` `4d80f7a`. The payload holds only the fields the accessors read, with `full_name` filled in by hand; tests/pullrequest_updated.json is not part of this model. |

## Left out

- `upload` and `submit` bodies (main.py:13-31): Google Cloud Storage and Cloud Build clients. They appear only as the `Upload` and `Submit` effects. Whether each call succeeds is a parameter. The `exceptions.NotFound` handler at main.py:18 refers to a name that is never imported, so it would itself raise `NameError`. Either way upload raises, which is what the model records.
- `git clone` and `git archive`: these are effects with their exact arguments. Their success is a parameter.
- `tempfile.TemporaryDirectory`: the directory name is an input. Creating and removing the directory is not recorded.
- Reading `cloudbuild.yaml`: the loaded document is an input. `None` stands for a file that cannot be opened or parsed. It is a `Json` value, so the model has only string mapping keys and no YAML floats, timestamps or other YAML-only scalars.
- JSON and YAML text parsing: the parsed tree is an input. JSON numbers are integers only; floats are not modelled.
- `uuid.uuid1()`: the suffix is an input.
- `print` logging: not modelled.
- The Flask request: modelled as a header map and a parsed body. Headers are looked up with exact-case keys; werkzeug's case-insensitive lookup is not modelled.
- `os.environ`: a map; a missing key fails.
- `Orchestrator.Prepare`: Python carries some non-string values on into the config and the git arguments: a non-string `repo`, `branch` or `clone_url`, or a list `commit`, whose `[0:7]` slice succeeds. The model fails such a request with `NonTextField` before any effect. For a number, bool, null or object `commit`, Python's `commit[0:7]` raises at main.py:55 before any effect too, so there the model agrees apart from the kind of fault.
- `BuildConfig.Assemble`: `dict.update` also accepts an iterable of key/value pairs. The model treats every non-mapping document as a failure.
- `JsonValue.Get`: negative indices are not modelled. The source only uses index 0.
- tests/test_func.py:110 misspells `assert_called_with`, so that line checks nothing. `Scenarios.PullRequestUpdatedScenario` states the upload anyway.
