/** The readiness registry and the create-then-await orchestrator of package
    devcluster.

    The API client is given by what it answers: the outcome of `Create` for
    each object, the GroupVersionKind `apiutil.GVKForObject` resolves for it,
    and the outcome of the k-th `Get` the object's readiness check performs.
    What each object's poll sees of the clock and of the context is given as
    its own event sequence (see DevTime). */
module DevCluster {
  import opened Errors
  import opened Kube
  import opened DevCheck
  import opened DevTime

  /** `ReadynessChecks`: the checks that must all pass, per GroupKind string. */
  type ReadynessChecks = map<string, seq<ObjCheck>>

  const DeploymentKey: string := "apps.Deployment"
  const CustomResourceDefinitionKey: string := "apiextensions.k8s.io.CustomResourceDefinition"

  /** `DefaultReadynessCheckSetIfEmpty`: a non-empty set is kept; an empty one
      becomes one condition check per kind, built from the given checker (or
      RealChecker when there is none). */
  function DefaultReadynessCheckSetIfEmpty(c: ReadynessChecks, checker: Option<Checker>): (r: ReadynessChecks)
    ensures |c| != 0 ==> r == c
    ensures |c| == 0 ==> r.Keys == {DeploymentKey, CustomResourceDefinitionKey}
    ensures |c| == 0 ==>
      r[DeploymentKey] == [ConditionCheckOf(RealCheckerIfNil(checker), "Available", ConditionTrue)] &&
      r[CustomResourceDefinitionKey] == [ConditionCheckOf(RealCheckerIfNil(checker), "Established", ConditionTrue)]
  {
    if |c| != 0 then c
    else
      var rc := RealCheckerIfNil(checker);
      map[
        DeploymentKey := [ConditionCheckOf(rc, "Available", ConditionTrue)],
        CustomResourceDefinitionKey := [ConditionCheckOf(rc, "Established", ConditionTrue)]
      ]
  }

  /** With no checker given, the default set holds one check per kind: a
      Deployment is ready exactly when it currently reports Available=True, a
      CustomResourceDefinition exactly when it currently reports Established=True. */
  lemma DefaultChecksMeanConditionTrue(obj: Object)
    ensures var r := DefaultReadynessCheckSetIfEmpty(map[], None);
      |r[DeploymentKey]| == 1 && |r[CustomResourceDefinitionKey]| == 1 &&
      (RunObjChecks(r[DeploymentKey], obj) == Ready <==> ReportsCurrentCondition(obj, "Available", ConditionTrue)) &&
      (RunObjChecks(r[CustomResourceDefinitionKey], obj) == Ready <==> ReportsCurrentCondition(obj, "Established", ConditionTrue))
  {
    ConditionStatusIsReadyIff("Available", ConditionTrue, obj);
    ConditionStatusIsReadyIff("Established", ConditionTrue, obj);
  }

  /** The default keys are written group first, but a GroupKind string puts
      the kind first: neither a Deployment nor a CustomResourceDefinition
      finds its default checks, so the orchestrator waits for neither. */
  lemma DefaultKeysMissTheirKinds(checker: Option<Checker>, version: string)
    ensures var r := DefaultReadynessCheckSetIfEmpty(map[], checker);
      GroupKindString(GroupVersionKind("apps", version, "Deployment")) !in r &&
      GroupKindString(GroupVersionKind("apiextensions.k8s.io", version, "CustomResourceDefinition")) !in r
  {
    var r := DefaultReadynessCheckSetIfEmpty(map[], checker);
    var deployment := GroupKindString(GroupVersionKind("apps", version, "Deployment"));
    var crd := GroupKindString(GroupVersionKind("apiextensions.k8s.io", version, "CustomResourceDefinition"));
    assert DeploymentKey[0] == 'a' && CustomResourceDefinitionKey[0] == 'a';
    assert deployment[0] == 'D' && crd[0] == 'C';
    assert r.Keys == {DeploymentKey, CustomResourceDefinitionKey};
  }

  // ---------------------------------------------------------------------
  // The default set with its keys in GroupKind order, as evidently intended.

  const DeploymentGroupKind: string := "Deployment.apps"
  const CustomResourceDefinitionGroupKind: string := "CustomResourceDefinition.apiextensions.k8s.io"

  /** `DefaultReadynessCheckSetIfEmpty` with the keys written as
      `GroupKind.String()` writes them. */
  function CorrectedReadynessCheckSetIfEmpty(c: ReadynessChecks, checker: Option<Checker>): (r: ReadynessChecks)
    ensures |c| != 0 ==> r == c
    ensures |c| == 0 ==> r.Keys == {DeploymentGroupKind, CustomResourceDefinitionGroupKind}
  {
    if |c| != 0 then c
    else
      var rc := RealCheckerIfNil(checker);
      map[
        DeploymentGroupKind := [ConditionCheckOf(rc, "Available", ConditionTrue)],
        CustomResourceDefinitionGroupKind := [ConditionCheckOf(rc, "Established", ConditionTrue)]
      ]
  }

  /** The corrected keys are the GroupKind strings of the two kinds, whatever the version. */
  lemma CorrectedKeysAreGroupKinds(version: string)
    ensures GroupKindString(GroupVersionKind("apps", version, "Deployment")) == DeploymentGroupKind
    ensures GroupKindString(GroupVersionKind("apiextensions.k8s.io", version, "CustomResourceDefinition"))
      == CustomResourceDefinitionGroupKind
  {
  }

  /** With the corrected keys a Deployment of any version finds the
      Available=True check and a CustomResourceDefinition the Established=True
      check; with no checker they mean what their condition says. */
  lemma CorrectedDefaultsFindTheirKinds(checker: Option<Checker>, version: string, obj: Object)
    ensures var r := CorrectedReadynessCheckSetIfEmpty(map[], checker);
      var deployment := GroupKindString(GroupVersionKind("apps", version, "Deployment"));
      var crd := GroupKindString(GroupVersionKind("apiextensions.k8s.io", version, "CustomResourceDefinition"));
      deployment in r && r[deployment] == [ConditionCheckOf(RealCheckerIfNil(checker), "Available", ConditionTrue)] &&
      crd in r && r[crd] == [ConditionCheckOf(RealCheckerIfNil(checker), "Established", ConditionTrue)] &&
      (checker.None? ==>
        (RunObjChecks(r[deployment], obj) == Ready <==> ReportsCurrentCondition(obj, "Available", ConditionTrue)) &&
        (RunObjChecks(r[crd], obj) == Ready <==> ReportsCurrentCondition(obj, "Established", ConditionTrue)))
  {
    CorrectedKeysAreGroupKinds(version);
    ConditionStatusIsReadyIff("Available", ConditionTrue, obj);
    ConditionStatusIsReadyIff("Established", ConditionTrue, obj);
  }

  // ---------------------------------------------------------------------
  // The orchestrator

  /** The client as the orchestrator uses it. `reply` is the object as a
      successful `Create` leaves it: the server's answer is decoded into the
      caller's object, which the rest of the orchestration then uses. */
  datatype Client = Client(
    create: Object -> Option<Error>,
    reply: Object -> Object,
    gvkFor: Object -> Result<GroupVersionKind>,
    get: (Object, nat) -> GetResult)

  /** `Cluster`. */
  datatype Cluster = Cluster(
    cli: Client,
    checker: Option<Checker>,
    poller: Poller,
    readynessChecks: ReadynessChecks)

  /** What the orchestrator did, in order. */
  datatype ClusterStep = Created(obj: Object) | Awaited(obj: Object)

  /** The object after `Create`: the server's reply when it succeeded, the
      caller's object untouched when it failed (AlreadyExists included). */
  function AfterCreate(cli: Client, obj: Object): Object
  {
    ObjectAfterCreate(cli.create(obj), cli.reply(obj), obj)
  }

  /** The GroupKind string of the object, when its GVK resolves. */
  function KindKey(cli: Client, obj: Object): (r: Option<string>)
    ensures r.Some? <==> cli.gvkFor(obj).Ok?
    ensures r.Some? ==> r.value == GroupKindString(cli.gvkFor(obj).value)
  {
    match cli.gvkFor(obj)
    case Ok(gvk) => Some(GroupKindString(gvk))
    case Err(_) => None
  }

  /** The error that aborts the batch at this object, if any. */
  function CreateStepError(cli: Client, obj: Object): Option<Error>
  {
    var err := cli.create(obj);
    if err.Some? && !IsAlreadyExists(err.value) then err
    else match cli.gvkFor(AfterCreate(cli, obj))
      case Err(e) => Some(Wrap("could not determine GVK for object", e))
      case Ok(_) => None
  }

  /** When a creation step aborts the batch, and with what. */
  lemma CreateStepErrorCases(cli: Client, obj: Object)
    // nothing aborts exactly when Create succeeds or finds the object already
    // there, and the created object's GVK resolves
    ensures CreateStepError(cli, obj).None? <==>
      (cli.create(obj).None? || IsAlreadyExists(cli.create(obj).value)) && KindKey(cli, AfterCreate(cli, obj)).Some?
    // any other Create error is returned as it is
    ensures cli.create(obj).Some? && !IsAlreadyExists(cli.create(obj).value) ==> CreateStepError(cli, obj) == cli.create(obj)
    // a GVK failure comes back wrapped, satisfying errors.Is for its cause
    ensures CreateStepError(cli, obj).Some? && CreateStepError(cli, obj) != cli.create(obj) ==>
      var cause := cli.gvkFor(AfterCreate(cli, obj));
      cause.Err? && CreateStepError(cli, obj).value == Wrap("could not determine GVK for object", cause.error) &&
      ErrorIs(CreateStepError(cli, obj).value, cause.error)
  {
  }

  /** The objects as the first loop leaves them, in order. */
  function AfterCreateAll(cli: Client, objs: seq<Object>): (r: seq<Object>)
    ensures |r| == |objs| && forall i :: 0 <= i < |objs| ==> r[i] == AfterCreate(cli, objs[i])
  {
    seq(|objs|, i requires 0 <= i < |objs| => AfterCreate(cli, objs[i]))
  }

  /** The checks the first loop records: the objects, as Create left them,
      whose GroupKind is a key, each with that key's checks. */
  function Recorded(cli: Client, rcs: ReadynessChecks, objs: seq<Object>): map<Object, seq<ObjCheck>>
  {
    map o | o in AfterCreateAll(cli, objs) && KindKey(cli, o).Some? && KindKey(cli, o).value in rcs :: rcs[KindKey(cli, o).value]
  }

  /** An object is recorded exactly when Create left it as one of the batch
      and its GroupKind is registered; it is recorded with that kind's checks. */
  lemma RecordedIsRegisteredCreated(cli: Client, rcs: ReadynessChecks, objs: seq<Object>, o: Object)
    ensures o in Recorded(cli, rcs, objs) <==>
      (exists i :: 0 <= i < |objs| && AfterCreate(cli, objs[i]) == o) && cli.gvkFor(o).Ok? &&
      GroupKindString(cli.gvkFor(o).value) in rcs
    ensures o in Recorded(cli, rcs, objs) ==> Recorded(cli, rcs, objs)[o] == rcs[GroupKindString(cli.gvkFor(o).value)]
  {
    var after := AfterCreateAll(cli, objs);
    if exists i :: 0 <= i < |objs| && AfterCreate(cli, objs[i]) == o {
      var i :| 0 <= i < |objs| && AfterCreate(cli, objs[i]) == o;
      assert after[i] == o;
    }
  }

  /** The readiness set the orchestrator uses for a cluster. */
  function RegistryOf(c: Cluster): ReadynessChecks
  {
    DefaultReadynessCheckSetIfEmpty(c.readynessChecks, c.checker)
  }

  /** The Check that `checker.CheckObj(cli, obj, checks...)` gives the poller:
      the k-th call evaluates the k-th Get of the object; the context it is
      given does not change its answer, and with RealChecker a successful Get
      is ready at once. */
  function CheckFor(checker: Checker, cli: Client, obj: Object, checks: seq<ObjCheck>): (r: PollCheck)
    ensures forall a: Context, b: Context, k: nat :: r(a, k) == r(b, k)
    ensures forall a: Context, k: nat :: checker.RealChecker? && cli.get(obj, k).GetOk? ==> r(a, k) == Ready
  {
    (_: Context, k: nat) => CheckObjOf(checker, cli.get(obj, k), obj, checks)
  }

  /** How `Poller.Wait` ends for one recorded object: still waiting only when
      all of its events were ticks. */
  function WaitOf(c: Cluster, ctx: Context, events: Object -> seq<Event>, obj: Object, checks: seq<ObjCheck>): (r: WaitOutcome)
    ensures r.StillWaiting? ==> forall i :: 0 <= i < |events(obj)| ==> events(obj)[i].Tick?
  {
    var check := CheckFor(RealCheckerIfNil(c.checker), c.cli, obj, checks);
    RunCallsOncePerTick(events(obj), CheckContext(c.poller, ctx), check, 0);
    Run(events(obj), CheckContext(c.poller, ctx), check, 0).outcome
  }

  ghost predicate AllCreated(cli: Client, objs: seq<Object>)
  {
    forall i :: 0 <= i < |objs| ==> CreateStepError(cli, objs[i]).None?
  }

  /** The batch is aborted at index i: the first object whose creation step failed. */
  ghost predicate AbortsAt(cli: Client, objs: seq<Object>, i: int)
  {
    0 <= i < |objs| && CreateStepError(cli, objs[i]).Some? &&
    forall j :: 0 <= j < i ==> CreateStepError(cli, objs[j]).None?
  }

  function CreatedSteps(objs: seq<Object>): (t: seq<ClusterStep>)
    ensures |t| == |objs| && forall k :: 0 <= k < |objs| ==> t[k] == Created(objs[k])
  {
    if objs == [] then [] else [Created(objs[0])] + CreatedSteps(objs[1..])
  }

  /** Recording one more created object adds it, under its kind's checks,
      exactly when its kind is registered. */
  lemma RecordedExtend(cli: Client, rcs: ReadynessChecks, objs: seq<Object>, obj: Object)
    requires KindKey(cli, AfterCreate(cli, obj)).Some?
    ensures var stored := AfterCreate(cli, obj);
      KindKey(cli, stored).value in rcs ==>
        Recorded(cli, rcs, objs + [obj]) == Recorded(cli, rcs, objs)[stored := rcs[KindKey(cli, stored).value]]
    ensures var stored := AfterCreate(cli, obj);
      KindKey(cli, stored).value !in rcs ==>
        Recorded(cli, rcs, objs + [obj]) == Recorded(cli, rcs, objs)
  {
    var stored := AfterCreate(cli, obj);
    var a := Recorded(cli, rcs, objs + [obj]);
    var b := Recorded(cli, rcs, objs);
    assert AfterCreateAll(cli, objs + [obj]) == AfterCreateAll(cli, objs) + [stored];
    forall o ensures o in AfterCreateAll(cli, objs + [obj]) <==> o in AfterCreateAll(cli, objs) || o == stored { }
    if KindKey(cli, stored).value in rcs {
      assert a.Keys == b.Keys + {stored};
    } else {
      assert a.Keys == b.Keys;
    }
  }

  /** One iteration of the first loop: `Create`, where AlreadyExists is
      not an error, then the GroupKind of the object as Create left it. */
  method CreateOne(cli: Client, obj: Object) returns (err: Option<Error>, stored: Object, key: string)
    ensures err == CreateStepError(cli, obj)
    ensures err.None? ==> stored == AfterCreate(cli, obj) && KindKey(cli, stored) == Some(key)
  {
    stored, key := obj, "";
    err := cli.create(obj);
    if err.Some? && !IsAlreadyExists(err.value) {
      return;
    }
    if err.None? {
      stored := cli.reply(obj);
    }
    match cli.gvkFor(stored) {
      case Err(e) =>
        err := Some(Wrap("could not determine GVK for object", e));
      case Ok(gvk) =>
        err, key := None, GroupKindString(gvk);
    }
  }

  /** `RecordedExtend` at the i-th object of a batch. */
  lemma RecordedStep(cli: Client, rcs: ReadynessChecks, objs: seq<Object>, i: int)
    requires 0 <= i < |objs| && KindKey(cli, AfterCreate(cli, objs[i])).Some?
    ensures var stored := AfterCreate(cli, objs[i]);
      var key := KindKey(cli, stored).value;
      Recorded(cli, rcs, objs[..i + 1]) ==
        if key in rcs then Recorded(cli, rcs, objs[..i])[stored := rcs[key]] else Recorded(cli, rcs, objs[..i])
  {
    assert objs[..i + 1] == objs[..i] + [objs[i]];
    RecordedExtend(cli, rcs, objs[..i], objs[i]);
  }

  /** One iteration of the first loop: create the i-th object and, when
      that succeeds, record its kind's checks if its kind is registered. */
  method CreateAndRecord(cli: Client, rcs: ReadynessChecks, objs: seq<Object>, i: int, checks: map<Object, seq<ObjCheck>>)
    returns (err: Option<Error>, checks': map<Object, seq<ObjCheck>>)
    requires 0 <= i < |objs| && checks == Recorded(cli, rcs, objs[..i])
    ensures err == CreateStepError(cli, objs[i])
    ensures err.None? ==> checks' == Recorded(cli, rcs, objs[..i + 1])
  {
    var stored, key;
    err, stored, key := CreateOne(cli, objs[i]);
    checks' := checks;
    if err.None? {
      RecordedStep(cli, rcs, objs, i);
      if key in rcs {
        checks' := checks[stored := rcs[key]];
      }
    }
  }

  /** The first loop of `CreateAndAwaitReadiness`: create each object in
      order, stopping at the first step that fails, and record the checks of
      each created object whose kind is registered. */
  method CreateObjects(cli: Client, rcs: ReadynessChecks, objs: seq<Object>)
    returns (err: Option<Error>, checks: map<Object, seq<ObjCheck>>, ghost trace: seq<ClusterStep>)
    ensures err.None? <==> AllCreated(cli, objs)
    ensures forall i :: AbortsAt(cli, objs, i) ==> err == CreateStepError(cli, objs[i]) && trace == CreatedSteps(objs[..i + 1])
    ensures err.None? ==> checks == Recorded(cli, rcs, objs) && trace == CreatedSteps(objs)
  {
    checks := map[];
    var i := 0;
    while i < |objs|
      invariant 0 <= i <= |objs|
      invariant forall j :: 0 <= j < i ==> CreateStepError(cli, objs[j]).None?
      invariant checks == Recorded(cli, rcs, objs[..i])
    {
      var stepErr;
      stepErr, checks := CreateAndRecord(cli, rcs, objs, i, checks);
      if stepErr.Some? {
        FirstAbortIsUnique(cli, objs, i);
        return stepErr, checks, CreatedSteps(objs[..i + 1]);
      }
      i := i + 1;
    }
    assert objs[..i] == objs;
    err, trace := None, CreatedSteps(objs);
  }

  /** The first failing step is the only index the batch aborts at. */
  lemma FirstAbortIsUnique(cli: Client, objs: seq<Object>, i: int)
    requires 0 <= i < |objs| && CreateStepError(cli, objs[i]).Some?
    requires forall j :: 0 <= j < i ==> CreateStepError(cli, objs[j]).None?
    ensures AbortsAt(cli, objs, i)
    ensures forall j :: AbortsAt(cli, objs, j) ==> j == i
    ensures !AllCreated(cli, objs)
  {
  }

  /** `Cluster.CreateAndAwaitReadiness`. Every object is created first, in
      order, stopping at the first creation step that fails; then each
      recorded object is awaited at most once, in an unspecified order (the Go
      map's), stopping at the first wait that does not return nil; a nil
      result means every recorded object was awaited. */
  method CreateAndAwaitReadiness(c: Cluster, ctx: Context, objs: seq<Object>, events: Object -> seq<Event>)
    returns (outcome: WaitOutcome, ghost trace: seq<ClusterStep>)
    // An aborted batch: the step's error, no wait, nothing created after it.
    ensures forall i :: AbortsAt(c.cli, objs, i) ==>
      outcome == Returned(CreateStepError(c.cli, objs[i])) && trace == CreatedSteps(objs[..i + 1])
    // Otherwise everything was created before anything was awaited, and only
    // recorded objects were awaited, none twice.
    ensures AllCreated(c.cli, objs) ==>
      |objs| <= |trace| && trace[..|objs|] == CreatedSteps(objs) &&
      (forall k :: |objs| <= k < |trace| ==> trace[k].Awaited? && trace[k].obj in Recorded(c.cli, RegistryOf(c), objs)) &&
      (forall k, l :: |objs| <= k < l < |trace| ==> trace[k] != trace[l])
    // nil exactly when every object was created and every recorded wait returns nil.
    ensures outcome == Returned(None) <==>
      AllCreated(c.cli, objs) &&
      forall o :: o in Recorded(c.cli, RegistryOf(c), objs) ==>
        WaitOf(c, ctx, events, o, Recorded(c.cli, RegistryOf(c), objs)[o]) == Returned(None)
    // nil only after every recorded object was awaited.
    ensures outcome == Returned(None) ==>
      |objs| <= |trace| && forall o :: o in Recorded(c.cli, RegistryOf(c), objs) ==> Awaited(o) in trace[|objs|..]
    // Any other outcome after the creates is that of some recorded wait.
    ensures AllCreated(c.cli, objs) && outcome != Returned(None) ==>
      exists o :: o in Recorded(c.cli, RegistryOf(c), objs) &&
        outcome == WaitOf(c, ctx, events, o, Recorded(c.cli, RegistryOf(c), objs)[o])
  {
    var rcs := DefaultReadynessCheckSetIfEmpty(c.readynessChecks, c.checker);
    var err, checks;
    ghost var created;
    err, checks, created := CreateObjects(c.cli, rcs, objs);
    if err.Some? {
      return Returned(err), created;
    }
    assert checks == Recorded(c.cli, RegistryOf(c), objs);
    ghost var awaited;
    outcome, awaited := AwaitRecorded(c, ctx, events, checks);
    trace := created + awaited;
    assert trace[..|objs|] == created;
    assert trace[|objs|..] == awaited;
    assert forall k :: |objs| <= k < |trace| ==> trace[k] == awaited[k - |objs|];
  }

  /** The second loop of `CreateAndAwaitReadiness`: wait for the recorded
      objects one by one, in any order, stopping at the first wait that does
      not return nil; nil only once every recorded object has been awaited. */
  method AwaitRecorded(c: Cluster, ctx: Context, events: Object -> seq<Event>, checks: map<Object, seq<ObjCheck>>)
    returns (outcome: WaitOutcome, ghost awaited: seq<ClusterStep>)
    ensures forall k :: 0 <= k < |awaited| ==> awaited[k].Awaited? && awaited[k].obj in checks
    ensures forall k, l :: 0 <= k < l < |awaited| ==> awaited[k] != awaited[l]
    ensures outcome == Returned(None) <==> forall o :: o in checks ==> WaitOf(c, ctx, events, o, checks[o]) == Returned(None)
    ensures outcome == Returned(None) ==> forall o :: o in checks ==> Awaited(o) in awaited
    ensures outcome != Returned(None) ==> exists o :: o in checks && outcome == WaitOf(c, ctx, events, o, checks[o])
  {
    var checker := RealCheckerIfNil(c.checker);
    awaited := [];
    var pending := checks.Keys;
    while pending != {}
      invariant pending <= checks.Keys
      invariant forall o :: o in checks.Keys - pending ==> WaitOf(c, ctx, events, o, checks[o]) == Returned(None)
      invariant forall o :: o in checks.Keys - pending ==> Awaited(o) in awaited
      invariant forall k :: 0 <= k < |awaited| ==> awaited[k].Awaited? && awaited[k].obj in checks.Keys - pending
      invariant forall k, l :: 0 <= k < l < |awaited| ==> awaited[k] != awaited[l]
      decreases pending
    {
      var obj :| obj in pending;
      var res, _, _, _ := Wait(c.poller, ctx, events(obj), CheckFor(checker, c.cli, obj, checks[obj]));
      assert res == WaitOf(c, ctx, events, obj, checks[obj]);
      awaited := awaited + [Awaited(obj)];
      if res != Returned(None) {
        return res, awaited;
      }
      pending := pending - {obj};
    }
    outcome := Returned(None);
  }

  /** AlreadyExists does not abort: it proceeds like a successful create
      whose reply is the object as sent, and the object is kept as the caller
      gave it. */
  lemma AlreadyExistsIsLikeCreated(cli: Client, other: Client, obj: Object)
    requires cli.create(obj).None? && cli.reply(obj) == obj
    requires other.create(obj).Some? && IsAlreadyExists(other.create(obj).value)
    requires other.gvkFor == cli.gvkFor
    ensures AfterCreate(other, obj) == AfterCreate(cli, obj) == obj
    ensures CreateStepError(other, obj) == CreateStepError(cli, obj)
    ensures KindKey(other, AfterCreate(other, obj)) == KindKey(cli, AfterCreate(cli, obj))
  {
  }
}
