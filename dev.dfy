/** The cluster helpers of package dev (dev/cluster.go): create-and-wait for
    single objects and for objects loaded from files, folders or URLs, the
    helm install sequence, and the defaulting of a cluster configuration.

    The controller-runtime client's `Create` and the `Waiter`'s
    `WaitForReadiness` are given by their outcome for each object; loading
    manifests, the HTTP client and `execHelmCommand` by their outcome for
    each input. */
module Dev {
  import opened Errors
  import opened Kube
  import opened DevOs

  // ---------------------------------------------------------------------
  // CreateAndWaitForReadiness
  // ---------------------------------------------------------------------

  /** `reply` is the object as a successful `Create` leaves it: the server's
      answer is decoded into the caller's object, which is then awaited. */
  datatype Cluster = Cluster(
    create: Object -> Option<Error>,
    reply: Object -> Object,
    waitForReadiness: Object -> Option<Error>)

  /** Creation counts as done: it succeeded, or the object already exists. */
  predicate Created(c: Cluster, obj: Object)
  {
    c.create(obj).None? || IsAlreadyExists(c.create(obj).value)
  }

  /** The object after `Create`: the server's reply when it succeeded, the
      caller's object untouched otherwise. */
  function Stored(c: Cluster, obj: Object): Object
  {
    ObjectAfterCreate(c.create(obj), c.reply(obj), obj)
  }

  /** The waiter accepts the object as Create left it: it is ready, or its
      type has no readiness check registered. */
  predicate Accepted(c: Cluster, obj: Object)
  {
    var w := c.waitForReadiness(Stored(c, obj));
    w.None? || HasUnknownType(w.value)
  }

  /** `Cluster.CreateAndWaitForReadiness`. */
  function CreateAndWaitForReadiness(c: Cluster, obj: Object): (r: Option<Error>)
    ensures r.None? <==> Created(c, obj) && Accepted(c, obj)
    ensures r.Some? && !Created(c, obj) ==> r.value == Wrap("creating object", c.create(obj).value)
    ensures r.Some? && Created(c, obj) ==>
      var w := c.waitForReadiness(Stored(c, obj));
      r.value == Wrap("waiting for object", w.value) && !HasUnknownType(w.value)
  {
    var createErr := c.create(obj);
    if createErr.Some? && !IsAlreadyExists(createErr.value) then
      Some(Wrap("creating object", createErr.value))
    else
      var waitErr := c.waitForReadiness(ObjectAfterCreate(createErr, c.reply(obj), obj));
      if waitErr.Some? then
        if HasUnknownType(waitErr.value) then None
        else Some(Wrap("waiting for object", waitErr.value))
      else None
  }

  /** A failed create is reported without waiting: the outcome does not
      depend on the waiter at all. */
  lemma FailedCreateSkipsWait(c: Cluster, other: Cluster, obj: Object)
    requires !Created(c, obj)
    requires other.create == c.create
    ensures CreateAndWaitForReadiness(other, obj) == CreateAndWaitForReadiness(c, obj)
  {
  }

  /** An object that already exists is treated as one just created whose
      reply is the object as sent: the caller's own object is awaited. */
  lemma AlreadyExistsProceedsToWait(c: Cluster, other: Cluster, obj: Object)
    requires c.create(obj).Some? && IsAlreadyExists(c.create(obj).value)
    requires other.create(obj).None? && other.reply(obj) == obj && other.waitForReadiness == c.waitForReadiness
    ensures Stored(c, obj) == Stored(other, obj) == obj
    ensures CreateAndWaitForReadiness(other, obj) == CreateAndWaitForReadiness(c, obj)
  {
  }

  // ---------------------------------------------------------------------
  // CreateAndWaitFromFiles / FromFolders / FromHttp
  // ---------------------------------------------------------------------

  datatype SourceKind = Files | Folders | Http

  /** What fetching a URL gives: the failure of one of the request steps, or
      the response body. */
  datatype Fetched =
    | RequestFailed(err: Error)   // http.NewRequestWithContext
    | GetFailed(err: Error)       // client.Do
    | ReadFailed(err: Error)      // io.Copy of the body
    | Body(content: seq<Byte>)

  datatype Loaders = Loaders(
    fromFile: string -> Result<seq<Object>>,     // LoadKubernetesObjectsFromFile
    fromFolder: string -> Result<seq<Object>>,   // LoadKubernetesObjectsFromFolder
    fetch: string -> Fetched,
    fromBytes: seq<Byte> -> Result<seq<Object>>) // LoadKubernetesObjectsFromBytes

  /** The objects of one source, or its error wrapped as that source kind wraps it. */
  function LoadSource(kind: SourceKind, loaders: Loaders, source: string): Result<seq<Object>>
  {
    match kind
    case Files =>
      (match loaders.fromFile(source)
       case Err(e) => Err(Wrap("loading objects from file", e))
       case Ok(objs) => Ok(objs))
    case Folders =>
      (match loaders.fromFolder(source)
       case Err(e) => Err(Wrap("loading objects from folder", e))
       case Ok(objs) => Ok(objs))
    case Http =>
      match loaders.fetch(source)
      case RequestFailed(e) => Err(Wrap("creating request", e))
      case GetFailed(e) => Err(Wrap("getting", e))
      case ReadFailed(e) => Err(Wrap("reading response", e))
      case Body(content) =>
        match loaders.fromBytes(content)
        case Err(e) => Err(Wrap("loading objects from", e))
        case Ok(objs) => Ok(objs)
  }

  /** All sources' objects in source order, or the first source's error. */
  function LoadAll(kind: SourceKind, loaders: Loaders, sources: seq<string>): Result<seq<Object>>
  {
    if sources == [] then Ok([])
    else Chain(LoadSource(kind, loaders, sources[0]), LoadAll(kind, loaders, sources[1..]))
  }

  /** The first object's failure, wrapped, or nil when every object is done. */
  function ProcessAll(c: Cluster, objs: seq<Object>): Option<Error>
  {
    if objs == [] then None
    else match CreateAndWaitForReadiness(c, objs[0])
      case Some(e) => Some(Wrap("creating object", e))
      case None => ProcessAll(c, objs[1..])
  }

  function CreateAndWaitFromResult(c: Cluster, kind: SourceKind, loaders: Loaders, sources: seq<string>): Option<Error>
  {
    match LoadAll(kind, loaders, sources)
    case Err(e) => Some(e)
    case Ok(objs) => ProcessAll(c, objs)
  }

  /** Loading more sources appends their objects after the earlier ones. */
  lemma {:induction false} LoadAllAppend(kind: SourceKind, loaders: Loaders, a: seq<string>, b: seq<string>)
    ensures LoadAll(kind, loaders, a + b) == Chain(LoadAll(kind, loaders, a), LoadAll(kind, loaders, b))
  {
    if a == [] {
      assert a + b == b;
      ChainUnit(LoadAll(kind, loaders, b));
    } else {
      assert (a + b)[0] == a[0] && (a + b)[1..] == a[1..] + b;
      LoadAllAppend(kind, loaders, a[1..], b);
      ChainAssociates(LoadSource(kind, loaders, a[0]), LoadAll(kind, loaders, a[1..]), LoadAll(kind, loaders, b));
    }
  }

  /** Objects are processed in order: the result is nil exactly when every
      object is created and accepted, and otherwise the first failing
      object's error, wrapped. */
  lemma {:induction false} ProcessAllStopsAtFirstFailure(c: Cluster, objs: seq<Object>)
    ensures ProcessAll(c, objs).None? <==> forall i :: 0 <= i < |objs| ==> CreateAndWaitForReadiness(c, objs[i]).None?
    ensures ProcessAll(c, objs).Some? ==>
      exists i :: 0 <= i < |objs| &&
        (forall j :: 0 <= j < i ==> CreateAndWaitForReadiness(c, objs[j]).None?) &&
        CreateAndWaitForReadiness(c, objs[i]).Some? &&
        ProcessAll(c, objs).value == Wrap("creating object", CreateAndWaitForReadiness(c, objs[i]).value)
  {
    if objs != [] && CreateAndWaitForReadiness(c, objs[0]).None? {
      ProcessAllStopsAtFirstFailure(c, objs[1..]);
      forall i | 0 < i < |objs| ensures objs[i] == objs[1..][i - 1] { }
      if ProcessAll(c, objs[1..]).Some? {
        var i :| 0 <= i < |objs[1..]| &&
          (forall j :: 0 <= j < i ==> CreateAndWaitForReadiness(c, objs[1..][j]).None?) &&
          CreateAndWaitForReadiness(c, objs[1..][i]).Some? &&
          ProcessAll(c, objs[1..]).value == Wrap("creating object", CreateAndWaitForReadiness(c, objs[1..][i]).value);
        assert objs[i + 1] == objs[1..][i];
      }
    }
  }

  datatype SourceStep = Loaded(source: string) | Processed(obj: Object)

  /** The loading phase: sources in order, stopping at the first that fails. */
  method LoadSources(kind: SourceKind, loaders: Loaders, sources: seq<string>)
    returns (r: Result<seq<Object>>, ghost trace: seq<SourceStep>)
    ensures r == LoadAll(kind, loaders, sources)
    ensures |trace| <= |sources| && forall k :: 0 <= k < |trace| ==> trace[k] == Loaded(sources[k])
    ensures r.Ok? ==> |trace| == |sources|
  {
    var objects: seq<Object> := [];
    trace := [];
    ChainUnit(LoadAll(kind, loaders, sources));
    for i := 0 to |sources|
      invariant LoadAll(kind, loaders, sources) == Chain(Ok(objects), LoadAll(kind, loaders, sources[i..]))
      invariant |trace| == i && forall k :: 0 <= k < i ==> trace[k] == Loaded(sources[k])
    {
      assert sources[i..][0] == sources[i] && sources[i..][1..] == sources[i + 1..];
      ChainAssociates(Ok(objects), LoadSource(kind, loaders, sources[i]), LoadAll(kind, loaders, sources[i + 1..]));
      trace := trace + [Loaded(sources[i])];
      var objs := LoadSource(kind, loaders, sources[i]);
      match objs {
        case Err(e) =>
          return Err(e), trace;
        case Ok(loaded) =>
          objects := objects + loaded;
      }
    }
    assert sources[|sources|..] == [];
    ChainUnit(Ok(objects));
    r := Ok(objects);
  }

  /** The processing phase: objects in order, stopping at the first that fails. */
  method ProcessObjects(c: Cluster, objects: seq<Object>) returns (err: Option<Error>, ghost trace: seq<SourceStep>)
    ensures err == ProcessAll(c, objects)
    ensures |trace| <= |objects| && forall k :: 0 <= k < |trace| ==> trace[k] == Processed(objects[k])
  {
    trace := [];
    for i := 0 to |objects|
      invariant ProcessAll(c, objects) == ProcessAll(c, objects[i..])
      invariant |trace| == i && forall k :: 0 <= k < i ==> trace[k] == Processed(objects[k])
    {
      assert objects[i..][0] == objects[i] && objects[i..][1..] == objects[i + 1..];
      trace := trace + [Processed(objects[i])];
      var r := CreateAndWaitForReadiness(c, objects[i]);
      if r.Some? {
        return Some(Wrap("creating object", r.value)), trace;
      }
    }
    assert objects[|objects|..] == [];
    err := None;
  }

  /** `Cluster.CreateAndWaitFromFiles`, `CreateAndWaitFromFolders` and
      `CreateAndWaitFromHttp`: every source is loaded before any object is
      processed, and only objects that were loaded are processed. */
  method CreateAndWaitFrom(c: Cluster, kind: SourceKind, loaders: Loaders, sources: seq<string>)
    returns (err: Option<Error>, ghost trace: seq<SourceStep>)
    ensures err == CreateAndWaitFromResult(c, kind, loaders, sources)
    ensures forall k, l :: 0 <= k < l < |trace| && trace[l].Loaded? ==> trace[k].Loaded?
    ensures forall k :: 0 <= k < |trace| && trace[k].Processed? ==>
      LoadAll(kind, loaders, sources).Ok? && k >= |sources| && trace[k].obj in LoadAll(kind, loaders, sources).value
  {
    var loaded, loads := LoadSources(kind, loaders, sources);
    if loaded.Err? {
      return Some(loaded.error), loads;
    }
    ghost var processed;
    err, processed := ProcessObjects(c, loaded.value);
    trace := loads + processed;
    assert forall k :: |sources| <= k < |trace| ==> trace[k] == processed[k - |sources|];
  }

  // ---------------------------------------------------------------------
  // HelmInstall
  // ---------------------------------------------------------------------

  /** `execHelmCommand`: the error helm ends with for the given args. */
  type HelmExec = seq<string> -> Option<Error>

  function SetFlags(setVars: seq<string>): seq<string>
  {
    if setVars == [] then []
    else SetFlags(setVars[..|setVars| - 1]) + ["--set", setVars[|setVars| - 1]]
  }

  /** The install vector: install, the chart as repo/package, the namespace,
      then "--set" and each set variable in order. */
  function InstallFlags(repoName: string, packageName: string, namespace: string, setVars: seq<string>): (r: seq<string>)
    ensures |r| == 4 + 2 * |setVars|
    ensures r[..4] == ["install", repoName + "/" + packageName, "-n", namespace]
    ensures forall k :: 0 <= k < |setVars| ==> r[4 + 2 * k] == "--set" && r[4 + 2 * k + 1] == setVars[k]
  {
    SetFlagsPairs(setVars);
    ["install", repoName + "/" + packageName, "-n", namespace] + SetFlags(setVars)
  }

  /** `SetFlagsAt` for every set variable. */
  lemma SetFlagsPairs(setVars: seq<string>)
    ensures |SetFlags(setVars)| == 2 * |setVars|
    ensures forall k :: 0 <= k < |setVars| ==> SetFlags(setVars)[2 * k] == "--set" && SetFlags(setVars)[2 * k + 1] == setVars[k]
  {
    SetFlagsLength(setVars);
    forall k | 0 <= k < |setVars|
      ensures SetFlags(setVars)[2 * k] == "--set" && SetFlags(setVars)[2 * k + 1] == setVars[k]
    {
      SetFlagsAt(setVars, k);
    }
  }

  /** Each set variable contributes `--set` and itself, in order. */
  lemma {:induction false} SetFlagsAt(setVars: seq<string>, k: int)
    requires 0 <= k < |setVars|
    ensures |SetFlags(setVars)| == 2 * |setVars|
    ensures SetFlags(setVars)[2 * k] == "--set" && SetFlags(setVars)[2 * k + 1] == setVars[k]
    decreases |setVars|
  {
    SetFlagsLength(setVars);
    var init := setVars[..|setVars| - 1];
    if k < |setVars| - 1 {
      SetFlagsAt(init, k);
    } else {
      SetFlagsLength(init);
    }
  }

  lemma {:induction false} SetFlagsLength(setVars: seq<string>)
    ensures |SetFlags(setVars)| == 2 * |setVars|
    decreases |setVars|
  {
    if setVars != [] {
      SetFlagsLength(setVars[..|setVars| - 1]);
    }
  }

  function RepoAddArgs(repoName: string, repoURL: string): seq<string>
  {
    ["repo", "add", repoName, repoURL]
  }

  const RepoUpdateArgs: seq<string> := ["repo", "update"]

  /** `Cluster.HelmInstall`: repo add, then repo update, then install,
      stopping at the first failure. `calls` are the helm invocations made. */
  method HelmInstall(helm: HelmExec, repoName: string, repoURL: string, packageName: string, namespace: string, setVars: seq<string>)
    returns (err: Option<Error>, ghost calls: seq<seq<string>>)
    ensures var add := RepoAddArgs(repoName, repoURL);
      helm(add).Some? ==> err == Some(Wrap("helm repo add", helm(add).value))
    ensures var add := RepoAddArgs(repoName, repoURL);
      helm(add).None? && helm(RepoUpdateArgs).Some? ==> err == Some(Wrap("helm repo update", helm(RepoUpdateArgs).value))
    ensures var add := RepoAddArgs(repoName, repoURL);
      var install := InstallFlags(repoName, packageName, namespace, setVars);
      helm(add).None? && helm(RepoUpdateArgs).None? ==>
        err == if helm(install).Some? then Some(Wrap("helm repo update", helm(install).value)) else None
    ensures var add := RepoAddArgs(repoName, repoURL);
      var install := InstallFlags(repoName, packageName, namespace, setVars);
      calls == if helm(add).Some? then [add] else if helm(RepoUpdateArgs).Some? then [add, RepoUpdateArgs] else [add, RepoUpdateArgs, install]
  {
    calls := [["repo", "add", repoName, repoURL]];
    var addErr := helm(["repo", "add", repoName, repoURL]);
    if addErr.Some? {
      return Some(Wrap("helm repo add", addErr.value)), calls;
    }
    calls := calls + [["repo", "update"]];
    var updateErr := helm(["repo", "update"]);
    if updateErr.Some? {
      return Some(Wrap("helm repo update", updateErr.value)), calls;
    }
    var installFlags := ["install", repoName + "/" + packageName, "-n", namespace];
    for i := 0 to |setVars|
      invariant installFlags == InstallFlags(repoName, packageName, namespace, setVars[..i])
    {
      assert setVars[..i + 1][..i] == setVars[..i];
      installFlags := installFlags + ["--set", setVars[i]];
    }
    assert setVars[..|setVars|] == setVars;
    calls := calls + [installFlags];
    var installErr := helm(installFlags);
    if installErr.Some? {
      return Some(Wrap("helm repo update", installErr.value)), calls;
    }
    err := None;
  }

  // ---------------------------------------------------------------------
  // ClusterConfig.Default
  // ---------------------------------------------------------------------

  datatype LogSink = DiscardSink | Sink(id: nat)

  /** `logr.Logger`, as far as `GetSink()` shows it. */
  datatype Logger = Logger(sink: Option<LogSink>)

  /** `logr.Discard()`. */
  const Discard: Logger := Logger(Some(DiscardSink))

  /** A `ClusterNewWaiterFunc`: `NewWaiter`, or another one. */
  datatype WaiterFactory = DefaultNewWaiter | OtherNewWaiter(id: nat)

  datatype WaitOption = WithLogger(logger: Logger) | OtherWaitOption(id: nat)

  /** `ClusterConfig`; a nil function or slice is `None`. */
  class ClusterConfig {
    var logger: Logger
    var schemeBuilder: seq<nat>
    var newWaiter: Option<WaiterFactory>
    var waitOptions: Option<seq<WaitOption>>

    constructor (logger: Logger, schemeBuilder: seq<nat>, newWaiter: Option<WaiterFactory>, waitOptions: Option<seq<WaitOption>>)
      ensures this.logger == logger && this.schemeBuilder == schemeBuilder
      ensures this.newWaiter == newWaiter && this.waitOptions == waitOptions
    {
      this.logger := logger;
      this.schemeBuilder := schemeBuilder;
      this.newWaiter := newWaiter;
      this.waitOptions := waitOptions;
    }

    /** Every field `Default` fills is set. */
    predicate IsDefaulted()
      reads this
    {
      logger.sink.Some? && newWaiter.Some? && waitOptions.Some?
    }

    /** `ClusterConfig.Default`: each unset field gets its default, set
        fields are kept; the default wait options log to the (defaulted)
        logger. Defaulting a defaulted configuration changes nothing. */
    method Default()
      modifies this
      ensures logger == if old(logger.sink).None? then Discard else old(logger)
      ensures newWaiter == if old(newWaiter).None? then Some(DefaultNewWaiter) else old(newWaiter)
      ensures waitOptions == if old(waitOptions).None? then Some([WithLogger(logger)]) else old(waitOptions)
      ensures schemeBuilder == old(schemeBuilder)
      ensures IsDefaulted()
      ensures old(IsDefaulted()) ==> unchanged(this)
    {
      if logger.sink.None? {
        logger := Discard;
      }
      if newWaiter.None? {
        newWaiter := Some(DefaultNewWaiter);
      }
      if waitOptions.None? {
        waitOptions := Some([WithLogger(logger)]);
      }
    }
  }
}
