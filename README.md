# devkube readiness engine, in Dafny

This project models the core of devkube, a Go toolkit for local Kubernetes
development clusters, and proves properties of the model. It covers:

- **Readiness checks** (`devcheck/check.go`). Checks are `(success, err)`
  pairs: the object is there, the object is gone, or the object is there and
  passes its object checks. The condition check reads `.status.conditions`
  and applies two `observedGeneration` staleness rules.
- **The poller** (`devtime/poller.go`). A loop over tick and done events.
  It calls the check once per tick and ends on an error, on success, or when
  the context is done.
- **The readiness registry and orchestrator** (`devcluster/cluster.go`).
  They create every object first, then wait for each object whose
  GroupKind is registered.
- **Container runtime commands** (`devcr/`). The docker/podman argument
  vectors, runtime detection, and the command runner.
- **Helm** (`devhelm/`). The environment of a helm command and the install
  arguments.
- **Manifest loading** (`devos/load.go`). Which directory entries are
  loaded, in which order, and how file contents are joined.
- **Build and cluster helpers of package `dev`** (`dev/build.go`,
  `dev/cluster.go`). Image build and push command plans, create-and-wait
  classification, loading from files, folders or URLs, helm install, and
  configuration defaulting.

Everything outside the program is a parameter:

- the Kubernetes client's Create, Get and GVK lookup are functions from the
  object (and, for Get, the call index) to an outcome; a successful Create
  also gives the server's reply, which Go decodes into the caller's object
  and which is what is then looked up and awaited;
- running a process is a `Runner` from the command as configured to its
  error;
- the file system, the YAML decoder, HTTP fetching and the environment are
  functions;
- the poller's clock and context are a finite sequence of `Tick` and
  `Done(err)` events.

Go errors are a datatype (`Errors.Error`):

- a wrapped error keeps its cause;
- `errors.Is`, `errors.As` and `apierrors.ReasonForError` walk the chain;
- a message keeps its fixed text and drops the formatted values.
  `execute` is the exception: its message is modelled as
  `cmd + " " + FormatList(args)`.

Functions with loops in Go are methods with loop invariants here. Most are
proved equal to a reference function, and the properties are lemmas about
that function. The two loops of `CreateAndAwaitReadiness` are specified
differently: the first against the reference `Recorded` and
`CreateStepError`, the second (a Go map range, taken in any order) by what
holds of every recorded object's wait, `WaitOf`, whichever order is taken. `exec.Cmd` and the argument list that helm install options
extend are classes, modified through their setters.

Where the code and its own documentation differ, the model follows the code:

- `CheckObj` returns `(true, nil)` as soon as Get succeeds, without running
  the object checks. The checks run only after a Get error other than
  NotFound, and that error is then dropped (devcheck/check.go:135-151).
- The default registry keys are written group first (`"apps.Deployment"`).
  `GroupKind.String()` puts the kind first (`"Deployment.apps"`), so
  neither a Deployment nor a CustomResourceDefinition finds its default
  checks. `DefaultKeysMissTheirKinds` proves this (see "## Findings"). The
  orchestrator keeps the keys as written; the set with the keys in GroupKind
  order is `CorrectedReadynessCheckSetIfEmpty`. The model uses
  apimachinery's `GroupKind.String()` format, which is not part of this
  model's sources.
- Two steps wrap their error in `"helm repo update"` although they are not
  the update step: `RealHelm.Install` and the install step of
  `Cluster.HelmInstall`. The model keeps that text.
- `ContainerRuntimePodman` is taken to be `"podman"`; its declaration is not
  part of this model.

## Model

| member | source | states |
|---|---|---|
| DevCheck.FindStatusCondition | devcheck/check.go:81 | None exactly when no condition has the type; otherwise the first condition of that type |
| DevCheck.FirstOfTypeIsUnique | devcheck/check.go:81 | the index of the first condition of a type is unique |
| DevCheck.ConditionStatusIs | devcheck/check.go:38-92 | an error never comes with success |
| DevCheck.ConditionStatusIsReadyIff | devcheck/check.go:52-91 | the condition check succeeds iff the status generation is absent or current, the first condition of the type has the wanted status, and its own observedGeneration is 0 or current |
| DevCheck.ConditionStatusIsErrIff | devcheck/check.go:45-78 | the check errs iff the object is malformed: the conversion fails, observedGeneration is unreadable, or (when the status is not stale) the conditions are unreadable or fail to encode or decode |
| DevCheck.UnstructuredStatus | devcheck/check.go:42-50 | an unstructured object's status as it is; a typed object's status unless its conversion fails, and then exactly that error |
| DevCheck.ConditionStatusIsMeans | devcheck/check.go:37-92 | for every object, the condition check is ready iff the object currently reports the condition, and errs iff it is malformed |
| DevCheck.ObjCheckStatusConditionIs | devcheck/check.go:37-92 | the returned check is ready exactly on an object that currently reports the wanted condition status, and errs exactly on a malformed object |
| DevCheck.StaleStatusIsNotReady | devcheck/check.go:52-58 | a stale status observedGeneration gives (false, nil) |
| DevCheck.StaleConditionIsNotReady | devcheck/check.go:86-88 | a first condition of the type with a nonzero, stale observedGeneration gives (false, nil) whatever its status |
| DevCheck.AbsentConditionIsNotReady | devcheck/check.go:61-85 | missing conditions, or no condition of the type, give (false, nil) |
| DevCheck.CheckThere | devcheck/check.go:117-129 | Get ok gives (true, nil); NotFound gives (false, nil); any other error gives (false, err) |
| DevCheck.CheckGone | devcheck/check.go:103-115 | Get ok gives (false, nil); NotFound gives (true, nil); any other error gives (false, err) |
| DevCheck.CheckGoneInvertsCheckThere | devcheck/check.go:103-129 | both checks report the same error; without an error their verdicts are opposite |
| DevCheck.RunObjChecks | devcheck/check.go:141-151 | success implies no error |
| DevCheck.RunObjChecksSucceedsIff | devcheck/check.go:141-151 | the checks succeed together iff each passes |
| DevCheck.RunObjChecksStopsAtFirstFailure | devcheck/check.go:141-151 | a failing run reports the first check that does not pass: its error, or (false, nil) |
| DevCheck.CheckObj | devcheck/check.go:131-153 | Get ok gives (true, nil) with no check run; NotFound gives (false, nil); otherwise the checks run in order up to the first failure |
| DevCheck.RealCheckerIfNil | devcheck/check.go:95-101 | a given checker is kept; a missing one becomes RealChecker |
| DevTime.CheckContextCarriesDeadlineCause | devtime/poller.go:26-30 | with a nonzero MaxWaitDuration, the check gets a derived context whose own deadline has cause DeadlineExceededErr (the case of an earlier deadline on the caller's context is not covered); otherwise it gets the caller's context |
| DevTime.Run | devtime/poller.go:38-51 | the call count never decreases, and no more events are taken than exist |
| DevTime.RunCallsOncePerTick | devtime/poller.go:38-49 | one check call per tick taken and none otherwise; still waiting iff every event was a tick answered not-ready |
| DevTime.RunErrorOrigin | devtime/poller.go:40-46 | a returned error is verbatim a done context's error or a check call's error |
| DevTime.RunKeepsPollingWhileNotReady | devtime/poller.go:42-49 | n ticks answered (false, nil) just advance to event n with n more calls |
| DevTime.SucceedsAtFirstReady | devtime/poller.go:42-48 | n not-ready ticks, then a ready one, return nil after n + 1 calls |
| DevTime.CancelledAfterNotReady | devtime/poller.go:38-49 | a done context after n not-ready ticks returns its error with no further call |
| DevTime.Wait | devtime/poller.go:18-52 | the ticker interval is 1s when PollInterval is 0, else PollInterval; every check call gets the derived context; outcome and call count are those of Run; the ticker is stopped once on return |
| Kube.ObjectAfterCreate | devcluster/cluster.go:50 | a successful Create leaves the server's reply in the caller's object; a failed one, AlreadyExists included, leaves it untouched |
| DevCluster.DefaultReadynessCheckSetIfEmpty | devcluster/cluster.go:19-34 | a non-empty set is returned unchanged; an empty one gives exactly the keys "apps.Deployment" and "apiextensions.k8s.io.CustomResourceDefinition", holding one condition check each, Available=True and Established=True, built from the given checker or RealChecker when there is none |
| DevCluster.DefaultChecksMeanConditionTrue | devcluster/cluster.go:24-33 | with no checker, each default kind has one check, ready iff the object currently reports Available=True, or Established=True for a CustomResourceDefinition |
| DevCluster.DefaultKeysMissTheirKinds | devcluster/cluster.go:26-33 | the GroupKind strings of Deployment and CustomResourceDefinition are not keys of the default set |
| DevCluster.CorrectedReadynessCheckSetIfEmpty | devcluster/cluster.go:19-34 | a non-empty set is returned unchanged; an empty one gives exactly the keys "Deployment.apps" and "CustomResourceDefinition.apiextensions.k8s.io" |
| DevCluster.CorrectedKeysAreGroupKinds | devcluster/cluster.go:63 | the corrected keys are the GroupKind strings of Deployment and CustomResourceDefinition, for any version |
| DevCluster.CorrectedDefaultsFindTheirKinds | devcluster/cluster.go:26-33 | with the corrected keys, a Deployment of any version finds [Available == True] and a CustomResourceDefinition [Established == True]; with no checker each is ready iff the object currently reports its condition |
| DevCluster.KindKey | devcluster/cluster.go:58-63 | a GroupKind string exactly when the GVK resolves, and then that GVK's |
| DevCluster.CreateStepErrorCases | devcluster/cluster.go:50-61 | no abort iff Create succeeds or reports AlreadyExists and the GVK of the object as Create left it resolves; another Create error is returned as is; a GVK failure is wrapped and satisfies errors.Is for its cause |
| DevCluster.AfterCreateAll | devcluster/cluster.go:49-50 | each object of the batch as Create left it, in order |
| DevCluster.RecordedIsRegisteredCreated | devcluster/cluster.go:48-66 | an object is recorded iff it is one of the batch as Create left it and its GroupKind is a key, and then with that key's checks |
| DevCluster.RecordedStep | devcluster/cluster.go:63-65 | creating the i-th object adds it under its kind's checks iff its kind is a key, and otherwise leaves the record as it was |
| DevCluster.CreateOne | devcluster/cluster.go:50-61 | returns the creation step's error; without one, the object as Create left it and its GroupKind string |
| DevCluster.CreateAndRecord | devcluster/cluster.go:49-66 | returns the creation step's error; without one, the record extended by the i-th object |
| DevCluster.CheckFor | devcluster/cluster.go:69 | the check's answer does not depend on the context the poller hands it; with RealChecker a successful k-th Get is ready |
| DevCluster.WaitOf | devcluster/cluster.go:69 | a wait still running has taken only ticks |
| DevCluster.CreatedSteps | devcluster/cluster.go:49-66 | one Created step per object, in order |
| DevCluster.RecordedExtend | devcluster/cluster.go:63-65 | an object is recorded as Create left it, with its kind's checks, exactly when its GroupKind string is a key; otherwise the record is unchanged |
| DevCluster.CreateObjects | devcluster/cluster.go:48-66 | no error iff every create step succeeds; otherwise the first failing step's error (a create error other than AlreadyExists as is, a GVK failure wrapped) with nothing created after it; on success the recorded checks, keyed by the objects as Create left them |
| DevCluster.FirstAbortIsUnique | devcluster/cluster.go:49-66 | the first failing create step is the only index the batch aborts at, and there is then no full creation |
| DevCluster.CreateAndAwaitReadiness | devcluster/cluster.go:44-75 | an abort returns the step's error with no wait; otherwise all creates precede all waits, only recorded objects are awaited, none twice; nil iff every recorded wait returns nil, and nil only once every recorded object has been awaited; any other outcome is some recorded wait's |
| DevCluster.AwaitRecorded | devcluster/cluster.go:68-72 | only recorded objects are awaited, none twice, in any order; nil iff every recorded wait returns nil, and then every recorded object was awaited; any other outcome is some recorded wait's |
| DevCluster.AlreadyExistsIsLikeCreated | devcluster/cluster.go:52-53 | AlreadyExists gives the same create step and kind as a successful create whose reply is the object as sent, and keeps the caller's object |
| Exec.Cmd.constructor | devcr/devcr.go:57 | a new command has its name and args, no env, dir or streams, and no run |
| Exec.Cmd.SetEnv | devhelm/devhelm.go:38-40 | sets the environment, nothing else |
| Exec.Cmd.SetDir | dev/build.go:58 | sets the working directory, nothing else |
| Exec.Cmd.SetStdin | devcr/devcr.go:59 | attaches stdin, nothing else |
| Exec.Cmd.SetStdout | devcr/devcr.go:60 | attaches stdout, nothing else |
| Exec.Cmd.SetStderr | devcr/devcr.go:58 | attaches stderr, nothing else |
| Exec.Cmd.Run | devcr/devcr.go:62 | returns the runner's error for the command as configured, and counts one run |
| DevCr.BuildArgs | devcr/dockerpodman.go:3-17 | starts with "build" and ends with the source path |
| DevCr.BuildArgsLayout | devcr/dockerpodman.go:3-17 | "--tag" tag, "--push" and "--file" file appear exactly when set, in that order, at the stated positions |
| DevCr.LoadArgs | devcr/dockerpodman.go:19-21 | the vector reads back as a load of exactly that archive |
| DevCr.SaveArgs | devcr/dockerpodman.go:23-25 | the vector reads back as a save of exactly those tags, in order, to that path |
| DevCr.LoginArgs | devcr/dockerpodman.go:27-29 | the vector reads back with registry, user and password each in its own place |
| DevCr.PushArgs | devcr/dockerpodman.go:31-33 | the vector reads back as a push of exactly that tag |
| DevCr.ParseInvertsArgs | devcr/dockerpodman.go:3-33 | each of the five vectors parses back to the command it was built from |
| DevCr.Detect | devcr/devcr.go:40-53 | podman is probed first and returned if its probe succeeds, with docker not probed; else docker if its probe succeeds; else an error wrapping both probe errors |
| DevCr.Execute | devcr/devcr.go:55-67 | runs once with all three streams attached; nil iff the run succeeds; otherwise a wrapped error satisfying errors.Is for the run error |
| DevHelm.LookupAppend | devhelm/devhelm.go:22-34 | looking up a variable in appended entries finds the first list's entry first |
| DevHelm.EntriesAreDistinct | devhelm/devhelm.go:24-33 | no variable's entry is read as another's |
| DevHelm.LookupEntry | devhelm/devhelm.go:24 | a single entry gives its value to its own key only |
| DevHelm.EnvForParts | devhelm/devhelm.go:22-34 | the environment is the four optional entries, in key order |
| DevHelm.EnvForSetsEachField | devhelm/devhelm.go:22-34 | each variable is set, to its field's value, exactly when the field is non-empty |
| DevHelm.EnvEntriesLength | devhelm/devhelm.go:22-34 | one entry per non-empty field |
| DevHelm.EnvEntriesPosition | devhelm/devhelm.go:22-34 | the entry of the k-th key sits after the entries of the earlier set keys |
| DevHelm.ExecHelmCmd | devhelm/devhelm.go:21-46 | runs helm once with the args unchanged, the built environment set only when non-empty, and all three streams attached; returns the run error verbatim |
| DevHelm.InstallArg.ApplyTo | devhelm/install.go:10-20 | an option appends its flag and value to the list |
| DevHelm.OptionArgsAppend | devhelm/install.go:24-26 | more options only extend the list |
| DevHelm.OptionArgsAt | devhelm/install.go:24-26 | the k-th option gives its flag at 2k and its value at 2k+1 |
| DevHelm.OptionArgsLength | devhelm/install.go:24-26 | two arguments per option |
| DevHelm.Install | devhelm/install.go:22-33 | helm runs once with ["install", name, chart] and then the options in call order; nil iff the run succeeds; otherwise a wrapped error satisfying errors.Is for the cause |
| DevOs.Chain | devos/load.go:39-43 | ok iff both are ok, then the values are appended; the first error otherwise |
| DevOs.ChainAssociates | devos/load.go:24-44 | appending results is associative |
| DevOs.ChainUnit | devos/load.go:23 | the empty result is a unit |
| DevOs.ExtBefore | devos/load.go:35 | the extension is empty, or a suffix of the name that starts with a dot and has no separator or dot between that dot and position i; it is non-empty whenever a dot before i has no separator after it up to i |
| DevOs.ExtBeforeSkips | devos/load.go:35 | the scan passes over a character that is neither a separator nor a dot |
| DevOs.Ext | devos/load.go:35 | empty, or the suffix of the path from a dot, with no separator and no other dot after it; empty only when the final path element has no dot |
| DevOs.ExtIsYamlIff | devos/load.go:35 | the extension is ".yaml" iff the name ends in ".yaml" |
| DevOs.FilesDataAppend | devos/load.go:87-94 | reading more paths appends their bytes after the earlier ones |
| DevOs.FilesDataFailsAtFirstError | devos/load.go:88-92 | all bytes iff every read succeeds; otherwise the first failing read's error, wrapped |
| DevOs.UnstructuredFromFiles | devos/load.go:84-97 | decodes the files' bytes joined in path order; the first read error aborts |
| DevOs.Manifests | devos/load.go:30-37 | an entry is loaded iff it is not a directory and its name ends in ".yaml" |
| DevOs.OnlyManifestsAreLoaded | devos/load.go:30-37 | directories and other files contribute nothing |
| DevOs.FolderResultAppend | devos/load.go:24-45 | results follow path order |
| DevOs.EntriesResultAppend | devos/load.go:30-44 | within a directory, results follow listing order |
| DevOs.FolderStopsAtUnreadableDirectory | devos/load.go:25-28 | a directory that cannot be read ends the load with its error |
| DevOs.UnstructuredFromFolder | devos/load.go:21-47 | returns the folder reference result |
| DevOs.ObjectsFromUnstructured | devos/load.go:123-130 | a new array of the input's length with out[i] = in[i] |
| DevBuild.RunSteps | dev/build.go:54-60 | no more commands run than planned |
| DevBuild.RunStepsStopsAtFirstFailure | dev/build.go:54-60 | completes iff every command succeeds; otherwise stops right after the first failure, panicking with its error |
| DevBuild.RunStepsAppend | dev/build.go:65-86 | a plan followed by another runs the second only when the first completes |
| DevBuild.Invocations | dev/build.go:54-55 | one invocation per command, in order |
| DevBuild.BuildCommand | dev/build.go:42-46 | [runtime, build, -t, tag], then -f and the file exactly when one is given, then the context directory |
| DevBuild.SaveCommand | dev/build.go:50 | the runtime saves the image tag to the cache directory's ".tar" archive |
| DevBuild.SaveNeedsBuild | dev/build.go:48-60 | the save command never runs after a failed build |
| DevBuild.BuildImage | dev/build.go:33-61 | runs build then save in the cache directory with stdout and stderr attached, panicking at the first failure |
| DevBuild.PushCommandArgs | dev/build.go:78-82 | [push], then --digestfile=<file> exactly when the runtime is podman, then the tag |
| DevBuild.PushPlanOrder | dev/build.go:64-87 | build and save first; registry login only when JENKINS_HOME or CI is set; push last; the login and push, run by `sh.Run`, attach standard input and standard error but not standard output |
| DevBuild.PushPlanRun | dev/build.go:64-87 | a build panic ends the push; else a login failure panics with "registry login"; else the push's error panics with "pushing image"; the login and push run their expanded commands |
| DevBuild.PushImage | dev/build.go:64-87 | with BuildImage called directly, runs the push plan and ends as it does |
| DevBuild.ExpandPlain | dev/build.go:73 | `sh.Run` leaves a program name or argument without a dollar sign unchanged |
| DevBuild.ExpandPlainPrefix | dev/build.go:73 | text without a dollar sign before the rest is kept, and the rest is expanded on its own |
| DevBuild.ShellNameOfVariable | dev/build.go:73 | after a dollar sign, a name starting with a letter or underscore runs to the first non-alphanumeric character |
| DevBuild.ExpandVariable | dev/build.go:73 | `$NAME` becomes the variable's value, "" when unset |
| DevBuild.ExpandBraced | dev/build.go:73 | `${NAME}` becomes the variable's value, "" when unset, for any non-empty name without '}' |
| DevBuild.ExpandAll | dev/build.go:73 | every argument is expanded on its own, in order |
| DevBuild.PushWithoutDollarIsVerbatim | dev/build.go:78-84 | with no dollar sign in the runtime, tag or digest file, the push runs exactly the runtime and the push arguments |
| DevBuild.LoginTokenIsExpanded | dev/build.go:72-73 | a QUAY_TOKEN of "ab$c" with c unset logs in with "-p=ab" |
| DevBuild.MgFCheck | dev/build.go:65 | no error iff every parameter type of the target is one mage accepts |
| DevBuild.PushImageAsWrittenRunsNothing | dev/build.go:65 | as written, PushImage panics in `mg.F` on every input before running any command |
| Dev.CreateAndWaitForReadiness | dev/cluster.go:199-219 | nil iff the create succeeds or the object already exists, and the wait on the object as Create left it succeeds or its type is unknown; otherwise "creating object" around the create error, or "waiting for object" around a wait error of known type |
| Dev.FailedCreateSkipsWait | dev/cluster.go:202-205 | after a failed create the result does not depend on the waiter |
| Dev.AlreadyExistsProceedsToWait | dev/cluster.go:202-203 | AlreadyExists gives the same result as a successful create whose reply is the object as sent, and the caller's object is awaited |
| Dev.LoadAllAppend | dev/cluster.go:158-166 | loading more sources appends their objects after the earlier ones |
| Dev.ProcessAllStopsAtFirstFailure | dev/cluster.go:168-173 | nil iff every object succeeds; otherwise the first failing object's error, wrapped in "creating object" |
| Dev.LoadSources | dev/cluster.go:158-166 | equals the loading reference; loads sources in order up to the first failure |
| Dev.ProcessObjects | dev/cluster.go:168-173 | equals the processing reference; processes objects in order up to the first failure |
| Dev.CreateAndWaitFrom | dev/cluster.go:117-196 | every source is loaded before any object is processed, and only loaded objects are processed; the result is the first load error or the processing result |
| Dev.SetFlagsAt | dev/cluster.go:246-248 | the k-th set variable gives "--set" at 2k and itself at 2k+1 |
| Dev.SetFlagsLength | dev/cluster.go:246-248 | two flags per set variable |
| Dev.SetFlagsPairs | dev/cluster.go:246-248 | every set variable k gives "--set" at 2k and itself at 2k+1, two flags each |
| Dev.InstallFlags | dev/cluster.go:243-248 | install, repo/package, -n and the namespace, then "--set" and each set variable in order, two flags each |
| Dev.HelmInstall | dev/cluster.go:221-256 | repo add, then repo update, then install with ["install", repo/pkg, "-n", ns] and the set flags, stopping at the first failure with its wrapped error |
| Dev.ClusterConfig.Default | dev/cluster.go:42-52 | each unset field gets its default and set fields are kept; the default wait options log to the defaulted logger; the config is then defaulted, and defaulting it again changes nothing |

## Left out

- Test doubles: the mocks in devcheck, devcluster, devos, devkind and devtime.
- devkind: the kind provider, kubeconfig parsing and the device probe, which are calls into libraries.
- devcr/docker.go and devcr/podman.go: one-line dispatches of the argument builders to `execute` with a fixed binary name.
- devhelm/repo.go: fixed argument lists passed to `ExecHelmCmd`.
- dev/env.go, dev/options.go, magedeps and magefile.go: kind CLI orchestration, build tooling and option setters outside this core.
- The `RealXIfUnset` defaults (`RealClockIfUnset`, `RealExecIfUnset`, `RealFSIfUnset`): the clock, exec and file system are parameters.
- `UnstructuredFromBytes`, `UnstructuredFromHTTP`, YAML and JSON decoding, unstructured conversion and the HTTP client. The decoder and fetcher are parameters, given by their outcomes.
- `Cluster.execHelmCommand` (the helm directories, the inherited environment, `os.MkdirAll`): a parameter from the args to helm's error.
- `LoadKubernetesObjectsFromFile`, `LoadKubernetesObjectsFromFolder` and `LoadKubernetesObjectsFromBytes`: parameters.
- Wall-clock time and durations as time: the poller sees a finite sequence of events. `DevTime.Wait` still waiting when the events run out stands for a wait that has not yet ended.
- `select` fairness when a tick and a done context are both ready: the event sequence fixes the order.
- Go map iteration order in `CreateAndAwaitReadiness`: the waits are taken in an arbitrary order, so the properties hold for any order.
- Object identity: the checks map is keyed by object reference; the model keys it by object value, so equal objects are one entry.
- Logging (slog, logr output, the "running in CI" line); standard-stream contents, as opposed to which streams are attached.
- The formatted values in error messages (`%q`, `%s`, `%v`), except in `execute`.
- `filepath.Join` cleaning: a directory and an entry name are joined with one separator.
- mage's `mg.Deps`, `mg.SerialDeps` and `populateCache`: the build plan starts with the image commands. mage re-panics a dependency's failure in its own error; the model keeps the build's own error.
- `sh.Run` under mage's verbose mode, which also attaches stdout.
- DevBuild.PushPlanRun: `sh.Run` returns mage's own error, naming the command and its exit code, without wrapping the runner's error; the model passes the runner's error through.
- DevBuild.MgFCheck: mage's `mg.F` is not part of this model; its parameter check is modelled by mage's documented rule that a target's parameters are string, int, bool, float64 or time.Duration, and the other checks of `mg.F` (argument count and types) are left out because the first parameter already fails.
- DevHelm.InstallArg: Go's `InstallArg` is any `func(*[]string)`; the model has only the two options devhelm/install.go builds, `InstallWithNamespace` and `InstallWithSet`.
- Dev.ClusterConfig.Default: `logr.Discard()` is taken to be a logger with a non-nil discarding sink, as in logr releases before 1.4; from 1.4 on its sink is nil, and the defaulted-logger clause would not hold.
- DevTime.Wait: a `Done(err)` event carries any error, while Go's `ctx.Err()` is only `context.Canceled` or `context.DeadlineExceeded`; the poller's `DeadlineExceededErr` cause is what `context.Cause` would give, not `ctx.Err()`.
- DevTime.Wait: a negative PollInterval makes the real clock's `NewTicker` panic; the clock is a parameter here and the model polls anyway.
- The deferred `cancel()` of the poller's context and the deferred `resp.Body.Close()`.
- DevTime.CheckContextCarriesDeadlineCause: covers only a caller context without an earlier deadline, because deadlines are not modelled as instants; when the caller's deadline is earlier, `context.WithTimeoutCause` returns a plain cancelable child whose deadline and cause are the caller's.
- The successful `Get` inside `CheckObj` also decodes into the object; the check returns at once then, so nothing later sees it, and the model does not carry it.
- DevCluster.CreateAndAwaitReadiness: does not say which recorded wait's outcome is returned when several fail, because the Go map order leaves it unspecified.

## Findings

| source | as written | input that shows it | evidently intended | confidence | as-written member | corrected member |
|---|---|---|---|---|---|---|
| devcluster/cluster.go:26-33 | the default keys are "apps.Deployment" and "apiextensions.k8s.io.CustomResourceDefinition", but line 63 looks objects up by `GroupKind.String()`, which puts the kind first | an empty ReadynessChecks and a Deployment of group apps, any version: its key "Deployment.apps" is not in the default set, so it is never awaited | the Deployment is awaited until it reports Available=True, a CustomResourceDefinition until Established=True | not executed | DevCluster.DefaultKeysMissTheirKinds | DevCluster.CorrectedDefaultsFindTheirKinds |
| dev/build.go:65 | the build step passes BuildImage and its three arguments through `mg.F`, but `mg.F` accepts only targets whose parameters are string, int, bool, float64 or time.Duration, and BuildImage takes `*ImageBuildInfo`, `func()` and `[]interface{}` | any push: `mg.F` panics with "argument 0 (*dev.ImageBuildInfo), is not a supported argument type" before the build, the login or the push runs | the image is built and saved, then logged in (in CI) and pushed | not executed; rests on mage's documented `mg.F` rule, and mage is not part of this model | DevBuild.PushImageAsWrittenRunsNothing | DevBuild.PushImage |
