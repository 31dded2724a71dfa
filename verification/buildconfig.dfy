/** The build configuration `trigger` assembles in main.py: substitutions,
    the generated base, the overlay of the repository's cloudbuild.yaml, the
    archive's path, and `source.object`. */
module BuildConfig {
  import opened Results
  import opened JsonValue
  import opened Outcomes

  /** A Cloud Build configuration: a dict of top-level keys. */
  type Config = map<string, Json>

  function Min(a: int, b: int): int {
    if a < b then a else b
  }

  /** Where a Python slice bound lands in a sequence of length n: negative
      bounds count from the end, and both directions are clamped. */
  function SliceBound(i: int, n: nat): nat {
    if i < 0 then (if i + n < 0 then 0 else i + n)
    else if i > n then n
    else i
  }

  /** Python's `s[lo:hi]`. */
  function Slice<T>(s: seq<T>, lo: int, hi: int): seq<T> {
    var a := SliceBound(lo, |s|);
    var b := SliceBound(hi, |s|);
    if a < b then s[a..b] else []
  }

  /** `commit[0:7]`: the first seven characters, or the whole commit when it
      is shorter (the slice never raises). */
  function ShortSha(commit: string): (r: string)
    ensures |r| == Min(7, |commit|)
    ensures r <= commit
  {
    Slice(commit, 0, 7)
  }

  /** SHORT_SHA of a full-length revision is exactly its first seven characters. */
  lemma ShortShaOfRevision(head: string, rest: string)
    requires |head| == 7
    ensures ShortSha(head + rest) == head
  {
    var r := ShortSha(head + rest);
    assert r == (head + rest)[..7];
  }

  /** POSIX `os.path.join(a, b)`: an absolute `b` replaces `a`; otherwise a
      separator is inserted unless `a` is empty or already ends in one. */
  function PathJoin(a: string, b: string): (r: string)
    ensures |b| > 0 && b[0] == '/' ==> r == b
    ensures !(|b| > 0 && b[0] == '/') ==>
      && a <= r
      && |b| <= |r|
      && r[|r| - |b|..] == b
      && (|r| == |a| + |b| <==> (a == [] || a[|a| - 1] == '/'))
    ensures !(|b| > 0 && b[0] == '/') && (a == [] || a[|a| - 1] == '/') ==> r == a + b
    ensures !(|b| > 0 && b[0] == '/') && !(a == [] || a[|a| - 1] == '/') ==> r == a + "/" + b
  {
    if |b| > 0 && b[0] == '/' then b
    else if a == [] || a[|a| - 1] == '/' then a + b
    else a + "/" + b
  }

  /** POSIX `os.path.basename(p)`: everything after the last separator. */
  function Basename(p: string): (r: string)
    ensures '/' !in r
    ensures |r| <= |p| && p[|p| - |r|..] == r
    ensures |r| < |p| ==> p[|p| - |r| - 1] == '/'
    decreases |p|
  {
    if p == [] || p[|p| - 1] == '/' then []
    else Basename(p[..|p| - 1]) + [p[|p| - 1]]
  }

  /** The basename of a path that continues a directory prefix (empty, or
      ending in a separator) with a separator-free name is that name. */
  lemma {:induction false} BasenameAfterDirectory(dir: string, name: string)
    requires dir == [] || dir[|dir| - 1] == '/'
    requires '/' !in name
    ensures Basename(dir + name) == name
    decreases |name|
  {
    if name != [] {
      var last := |name| - 1;
      var x := dir + name;
      assert x[..|x| - 1] == dir + name[..last];
      assert x[|x| - 1] == name[last] && name[last] != '/';
      assert Basename(x) == Basename(x[..|x| - 1]) + [name[last]];
      BasenameAfterDirectory(dir, name[..last]);
      assert name[..last] + [name[last]] == name;
    } else {
      assert dir + name == dir;
    }
  }

  /** Joining a separator-free name onto any directory keeps it as the basename. */
  lemma BasenameOfJoin(dir: string, name: string)
    requires '/' !in name
    ensures Basename(PathJoin(dir, name)) == name
  {
    if name != [] && name[0] == '/' {
      assert false;
    } else if dir == [] || dir[|dir| - 1] == '/' {
      BasenameAfterDirectory(dir, name);
    } else {
      assert dir + "/" + name == (dir + "/") + name;
      BasenameAfterDirectory(dir + "/", name);
    }
  }

  /** The archive's file name: `{commit}-{suffix}.tar.gz`. */
  function TarballName(commit: string, suffix: string): string {
    commit + "-" + suffix + ".tar.gz"
  }

  /** The archive's path: the file name joined onto the temporary directory. */
  function TarballPath(tmpdir: string, commit: string, suffix: string): string {
    PathJoin(tmpdir, TarballName(commit, suffix))
  }

  /** The archive's own name is `{commit}-{suffix}.tar.gz` whenever neither
      part contains a separator, wherever the temporary directory is. */
  lemma TarballBasename(tmpdir: string, commit: string, suffix: string)
    requires '/' !in commit && '/' !in suffix
    ensures Basename(TarballPath(tmpdir, commit, suffix)) == commit + "-" + suffix + ".tar.gz"
  {
    var name := TarballName(commit, suffix);
    forall i | 0 <= i < |name|
      ensures name[i] != '/'
    {
      if i < |commit| {
        assert name[i] == commit[i];
      } else if i == |commit| {
      } else if i < |commit| + 1 + |suffix| {
        assert name[i] == suffix[i - |commit| - 1];
      } else {
        assert name[i] == ".tar.gz"[i - |commit| - 1 - |suffix|];
      }
    }
    BasenameOfJoin(tmpdir, name);
  }

  /** A sequence with a fixed head and tail determines its middle. */
  lemma MiddleInjective(head: string, m1: string, m2: string, tail: string)
    requires head + m1 + tail == head + m2 + tail
    ensures m1 == m2
  {
    var x := head + m1 + tail;
    assert |m1| == |m2|;
    assert m1 == x[|head|..|head| + |m1|];
    assert m2 == (head + m2 + tail)[|head|..|head| + |m2|];
  }

  /** Two invocations with different uniqueness tokens never share an
      archive path, so concurrent builds of one commit do not clobber each other. */
  lemma DistinctSuffixesDistinctTarballs(tmpdir: string, commit: string, s1: string, s2: string)
    requires s1 != s2
    ensures TarballPath(tmpdir, commit, s1) != TarballPath(tmpdir, commit, s2)
  {
    var n1 := TarballName(commit, s1);
    var n2 := TarballName(commit, s2);
    if n1 == n2 {
      MiddleInjective(commit + "-", s1, s2, ".tar.gz");
    }
    assert |n1| > 0 && |n2| > 0 && n1[0] == n2[0];
  }

  /** The substitutions trigger computes from the event. */
  function Substitutions(repo: string, branch: string, commit: string): map<string, Json> {
    map[
      "REPO_NAME" := Str(repo),
      "BRANCH_NAME" := Str(branch),
      "REVISION_ID" := Str(commit),
      "COMMIT_SHA" := Str(commit),
      "SHORT_SHA" := Str(ShortSha(commit))]
  }

  /** The generated configuration, before the repository's file is read. */
  function BaseConfig(bucket: string, repo: string, branch: string, commit: string): Config {
    map[
      "source" := Obj(map["bucket" := Str(bucket)]),
      "substitutions" := Obj(Substitutions(repo, branch, commit))]
  }

  /** `config.update(repo)`: every key of `repo` takes `repo`'s value; every
      other key keeps the value it had. */
  function Merge(config: Config, repo: Config): (r: Config)
    ensures r.Keys == config.Keys + repo.Keys
    ensures forall k :: k in repo ==> r[k] == repo[k]
    ensures forall k :: k in config && k !in repo ==> r[k] == config[k]
  {
    config + repo
  }

  /** `dict.update` as CPython performs it, one key of `repo` at a time; the
      outcome is the right-biased union whatever order the keys come in. */
  method Update(config: Config, repo: Config) returns (r: Config)
    ensures r == Merge(config, repo)
  {
    r := config;
    var todo := repo.Keys;
    while todo != {}
      invariant todo <= repo.Keys
      invariant r.Keys == config.Keys + (repo.Keys - todo)
      invariant forall k :: k in r ==> r[k] == (if k in repo && k !in todo then repo[k] else config[k])
      decreases todo
    {
      var k :| k in todo;
      r := r[k := repo[k]];
      todo := todo - {k};
    }
    assert forall k :: k in r ==> r[k] == Merge(config, repo)[k];
  }

  /** `config['source']['object'] = tarball`: writes the object key into
      whatever mapping `source` holds by now; a `source` that is absent or not
      a mapping raises. */
  function SetSourceObject(config: Config, tarball: string): (r: Result<Config, Fault>)
    ensures r.Ok? <==> "source" in config && config["source"].Obj?
    ensures r.Err? ==> r.error == SourceNotMapping
    ensures r.Ok? ==>
      && r.value.Keys == config.Keys
      && r.value["source"] == Obj(config["source"].fields["object" := Str(tarball)])
      && (forall k :: k in config && k != "source" ==> r.value[k] == config[k])
  {
    if "source" in config && config["source"].Obj? then
      Ok(config["source" := Obj(config["source"].fields["object" := Str(tarball)])])
    else
      Err(SourceNotMapping)
  }

  /** main.py lines 66-72: load cloudbuild.yaml (`None` when it cannot be
      opened or parsed), overlay it on the base, then set `source.object`. */
  function Assemble(base: Config, loaded: Option<Json>, tarball: string): (r: Result<Config, Fault>)
    ensures loaded.None? ==> r == Err(ConfigUnreadable)
    ensures loaded.Some? && !loaded.value.Obj? ==> r == Err(ConfigNotMapping)
    ensures loaded.Some? && loaded.value.Obj? ==>
      (r.Ok? <==>
         if "source" in loaded.value.fields then loaded.value.fields["source"].Obj?
         else "source" in base && base["source"].Obj?)
    ensures loaded.Some? && loaded.value.Obj? && r.Err? ==> r.error == SourceNotMapping
    ensures r.Ok? ==>
      && loaded.Some? && loaded.value.Obj?
      && var repo := loaded.value.fields;
      && r.value.Keys == base.Keys + repo.Keys + {"source"}
      && (forall k :: k in repo && k != "source" ==> r.value[k] == repo[k])
      && (forall k :: k in base && k !in repo && k != "source" ==> r.value[k] == base[k])
      && r.value["source"].Obj?
      && "object" in r.value["source"].fields
      && r.value["source"].fields["object"] == Str(tarball)
      && ("source" in repo ==>
            repo["source"].Obj? && r.value["source"] == Obj(repo["source"].fields["object" := Str(tarball)]))
      && ("source" !in repo ==>
            && "source" in base && base["source"].Obj?
            && r.value["source"] == Obj(base["source"].fields["object" := Str(tarball)]))
  {
    match loaded
    case None => Err(ConfigUnreadable)
    case Some(Obj(repo)) => SetSourceObject(Merge(base, repo), tarball)
    case Some(_) => Err(ConfigNotMapping)
  }

  /** With a cloudbuild.yaml that has no `source` key, the final source is
      exactly the generated `{bucket}` plus the object key. */
  lemma GeneratedSourceKept(bucket: string, repoName: string, branch: string, commit: string,
                            repo: Config, tarball: string)
    requires "source" !in repo
    ensures
      var r := Assemble(BaseConfig(bucket, repoName, branch, commit), Some(Obj(repo)), tarball);
      && r.Ok?
      && r.value["source"] == Obj(map["bucket" := Str(bucket), "object" := Str(tarball)])
  {
    assert map["bucket" := Str(bucket)]["object" := Str(tarball)]
        == map["bucket" := Str(bucket), "object" := Str(tarball)];
  }

  /** With a cloudbuild.yaml that has no `substitutions` key, a configuration
      that assembles carries exactly the generated substitutions. */
  lemma GeneratedSubstitutionsKept(bucket: string, repoName: string, branch: string, commit: string,
                                   repo: Config, tarball: string)
    requires "substitutions" !in repo
    ensures
      var r := Assemble(BaseConfig(bucket, repoName, branch, commit), Some(Obj(repo)), tarball);
      r.Ok? ==> r.value["substitutions"] == Obj(Substitutions(repoName, branch, commit))
  {
  }

  /** With a cloudbuild.yaml that leaves `source` and `substitutions` alone,
      the final configuration is the file's keys plus the generated source
      and substitutions. */
  lemma AssembleKeepsGenerated(bucket: string, repoName: string, branch: string, commit: string,
                               repo: Config, tarball: string)
    requires "source" !in repo && "substitutions" !in repo
    ensures
      var r := Assemble(BaseConfig(bucket, repoName, branch, commit), Some(Obj(repo)), tarball);
      && r.Ok?
      && r.value.Keys == repo.Keys + {"source", "substitutions"}
      && r.value["source"] == Obj(map["bucket" := Str(bucket), "object" := Str(tarball)])
      && r.value["substitutions"] == Obj(Substitutions(repoName, branch, commit))
      && (forall k :: k in repo ==> r.value[k] == repo[k])
  {
    GeneratedSourceKept(bucket, repoName, branch, commit, repo, tarball);
    GeneratedSubstitutionsKept(bucket, repoName, branch, commit, repo, tarball);
  }

  /** The risk of the overlay made concrete: a cloudbuild.yaml with its own
      `source` mapping replaces the generated one, so that mapping alone
      decides the bucket Cloud Build reads from (or leaves it without one),
      whatever bucket the archive was uploaded to. */
  lemma RepositorySourceOverridesBucket(bucket: string, repoName: string, branch: string, commit: string,
                                        repo: Config, tarball: string)
    requires "source" in repo && repo["source"].Obj?
    ensures
      var r := Assemble(BaseConfig(bucket, repoName, branch, commit), Some(Obj(repo)), tarball);
      && r.Ok?
      && r.value["source"] == Obj(repo["source"].fields["object" := Str(tarball)])
      && ("bucket" in r.value["source"].fields <==> "bucket" in repo["source"].fields)
      && ("bucket" in repo["source"].fields ==>
            r.value["source"].fields["bucket"] == repo["source"].fields["bucket"])
  {
  }

  /** The object key the build is given is the archive's full local path,
      which holds a separator whenever the temporary directory is non-empty
      (or the name itself is absolute), while a basename never does: the
      two differ, whatever the commit and the token contain. */
  lemma ObjectKeyIsNotBasename(tmpdir: string, commit: string, suffix: string)
    requires tmpdir != []
    ensures TarballPath(tmpdir, commit, suffix) != Basename(TarballPath(tmpdir, commit, suffix))
  {
    var name := TarballName(commit, suffix);
    var path := TarballPath(tmpdir, commit, suffix);
    assert '/' in path by {
      if name[0] == '/' {
        assert path[0] == '/';
      } else if tmpdir[|tmpdir| - 1] == '/' {
        assert path == tmpdir + name;
        assert path[|tmpdir| - 1] == '/';
      } else {
        assert path == tmpdir + "/" + name;
        assert path[|tmpdir|] == '/';
      }
    }
  }
}
