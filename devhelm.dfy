/** Package devhelm: running helm with the environment of a `RealHelm`, and
    `helm install` with its ordered options. */
module DevHelm {
  import opened Errors
  import opened Exec

  /** `RealHelm`; its Exec is the runner passed to each operation. */
  datatype RealHelm = RealHelm(kubeconfigPath: string, cacheDir: string, configDir: string, dataDir: string)

  // ---------------------------------------------------------------------
  // The helm environment (devhelm/devhelm.go)
  // ---------------------------------------------------------------------

  const KubeconfigKey: string := "KUBECONFIG"
  const CacheHomeKey: string := "HELM_CACHE_HOME"
  const ConfigHomeKey: string := "HELM_CONFIG_HOME"
  const DataHomeKey: string := "HELM_DATA_HOME"

  /** The variables helm is given, in their fixed order, with the field each one takes. */
  function EnvKeys(): seq<string>
  {
    [KubeconfigKey, CacheHomeKey, ConfigHomeKey, DataHomeKey]
  }

  function Settings(h: RealHelm): seq<string>
  {
    [h.kubeconfigPath, h.cacheDir, h.configDir, h.dataDir]
  }

  function Entry(key: string, value: string): string
  {
    key + "=" + value
  }

  /** One `KEY=value` entry per key whose value is set, in key order. */
  function EnvEntries(keys: seq<string>, values: seq<string>): seq<string>
    requires |keys| == |values|
  {
    if keys == [] then []
    else (if values[0] != "" then [Entry(keys[0], values[0])] else []) + EnvEntries(keys[1..], values[1..])
  }

  /** The environment `ExecHelmCmd` builds. */
  function EnvFor(h: RealHelm): seq<string>
  {
    EnvEntries(EnvKeys(), Settings(h))
  }

  /** The command `ExecHelmCmd` runs: `helm` with the args as given, the
      environment only when it has an entry, and all three streams attached. */
  function HelmInvocation(h: RealHelm, args: seq<string>): Invocation
  {
    Invocation("helm", args, if EnvFor(h) != [] then Some(EnvFor(h)) else None, "", true, true, true)
  }

  /** `entry` sets `key`. */
  predicate IsEntryFor(entry: string, key: string)
  {
    |entry| > |key| && entry[..|key| + 1] == key + "="
  }

  /** The value the first entry for `key` gives it, as a process reads its environment. */
  function Lookup(env: seq<string>, key: string): Option<string>
  {
    if env == [] then None
    else if IsEntryFor(env[0], key) then Some(env[0][|key| + 1..])
    else Lookup(env[1..], key)
  }

  lemma {:induction false} LookupAppend(a: seq<string>, b: seq<string>, key: string)
    ensures Lookup(a + b, key) == if Lookup(a, key).Some? then Lookup(a, key) else Lookup(b, key)
  {
    if a != [] {
      assert (a + b)[0] == a[0];
      assert (a + b)[1..] == a[1..] + b;
      LookupAppend(a[1..], b, key);
    } else {
      assert a + b == b;
    }
  }

  /** No variable's entry is read as another's. */
  lemma EntriesAreDistinct(i: int, j: int, value: string)
    requires 0 <= i < 4 && 0 <= j < 4
    ensures IsEntryFor(Entry(EnvKeys()[i], value), EnvKeys()[j]) <==> i == j
  {
    var e := Entry(EnvKeys()[i], value);
    var k := EnvKeys()[j];
    if i == j {
      assert e[..|k| + 1] == k + "=";
    } else {
      // The two keys differ at a position both strings have.
      var d := if EnvKeys()[i][0] != k[0] then 0 else if EnvKeys()[i][5] != k[5] then 5 else 6;
      assert EnvKeys()[i][d] != k[d];
      assert e[d] == EnvKeys()[i][d];
      assert (k + "=")[d] == k[d];
      if |e| > |k| {
        assert e[..|k| + 1][d] == e[d];
      }
    }
  }

  lemma LookupEntry(key: string, value: string, other: string)
    ensures Lookup([Entry(key, value)], other) ==
      if IsEntryFor(Entry(key, value), other) then Some(Entry(key, value)[|other| + 1..]) else None
  {
  }

  /** The entry a field contributes: one when it is set, none otherwise. */
  function Part(h: RealHelm, i: int): seq<string>
    requires 0 <= i < 4
  {
    if Settings(h)[i] != "" then [Entry(EnvKeys()[i], Settings(h)[i])] else []
  }

  lemma EnvForParts(h: RealHelm)
    ensures EnvFor(h) == Part(h, 0) + Part(h, 1) + Part(h, 2) + Part(h, 3)
  {
    var keys := EnvKeys();
    var values := Settings(h);
    forall n | 0 <= n < 4
      ensures EnvEntries(keys[n..], values[n..]) == Part(h, n) + EnvEntries(keys[n + 1..], values[n + 1..])
    {
      assert keys[n..][0] == keys[n] && values[n..][0] == values[n];
      assert keys[n..][1..] == keys[n + 1..] && values[n..][1..] == values[n + 1..];
    }
    assert keys[0..] == keys && values[0..] == values;
    assert EnvEntries(keys[4..], values[4..]) == [];
  }

  /** Each variable is in the environment exactly when its field is set, and
      then with the field's value. */
  lemma EnvForSetsEachField(h: RealHelm, j: int)
    requires 0 <= j < 4
    ensures Lookup(EnvFor(h), EnvKeys()[j]) == if Settings(h)[j] != "" then Some(Settings(h)[j]) else None
  {
    var keys := EnvKeys();
    var values := Settings(h);
    var key := keys[j];
    EnvForParts(h);
    forall i | 0 <= i < 4
      ensures Lookup(Part(h, i), key) == if i == j && values[i] != "" then Some(values[i]) else None
    {
      if values[i] != "" {
        EntriesAreDistinct(i, j, values[i]);
        LookupEntry(keys[i], values[i], key);
        if i == j {
          assert Entry(keys[i], values[i])[|key| + 1..] == values[i];
        }
      }
    }
    LookupAppend(Part(h, 0) + Part(h, 1) + Part(h, 2), Part(h, 3), key);
    LookupAppend(Part(h, 0) + Part(h, 1), Part(h, 2), key);
    LookupAppend(Part(h, 0), Part(h, 1), key);
  }

  /** The number of set values. */
  function CountSet(values: seq<string>): nat
  {
    if values == [] then 0 else (if values[0] != "" then 1 else 0) + CountSet(values[1..])
  }

  lemma {:induction false} EnvEntriesLength(keys: seq<string>, values: seq<string>)
    requires |keys| == |values|
    ensures |EnvEntries(keys, values)| == CountSet(values)
  {
    if keys != [] {
      EnvEntriesLength(keys[1..], values[1..]);
    }
  }

  /** The entries come in the fixed key order: the entry of the k-th key, when
      set, is preceded by exactly the entries of the set keys before it. */
  lemma {:induction false} EnvEntriesPosition(keys: seq<string>, values: seq<string>, k: int)
    requires |keys| == |values| && 0 <= k < |keys| && values[k] != ""
    ensures CountSet(values[..k]) < |EnvEntries(keys, values)|
    ensures EnvEntries(keys, values)[CountSet(values[..k])] == Entry(keys[k], values[k])
  {
    EnvEntriesLength(keys, values);
    var first := if values[0] != "" then [Entry(keys[0], values[0])] else [];
    var rest := EnvEntries(keys[1..], values[1..]);
    assert EnvEntries(keys, values) == first + rest;
    if k > 0 {
      EnvEntriesPosition(keys[1..], values[1..], k - 1);
      assert values[..k][1..] == values[1..][..k - 1];
      assert CountSet(values[..k]) == |first| + CountSet(values[1..][..k - 1]);
    }
  }

  /** `RealHelm.ExecHelmCmd`. */
  method ExecHelmCmd(h: RealHelm, run: Runner, args: seq<string>) returns (err: Option<Error>, ghost c: Cmd)
    ensures c.Snapshot() == HelmInvocation(h, args) && c.runs == 1
    ensures err == run(HelmInvocation(h, args))
  {
    var env: seq<string> := [];
    if h.kubeconfigPath != "" {
      env := env + [Entry(KubeconfigKey, h.kubeconfigPath)];
    }
    if h.cacheDir != "" {
      env := env + [Entry(CacheHomeKey, h.cacheDir)];
    }
    if h.configDir != "" {
      env := env + [Entry(ConfigHomeKey, h.configDir)];
    }
    if h.dataDir != "" {
      env := env + [Entry(DataHomeKey, h.dataDir)];
    }
    EnvForParts(h);
    assert env == EnvFor(h);
    var command := new Cmd("helm", args);
    if |env| > 0 {
      command.SetEnv(env);
    }
    command.SetStderr();
    command.SetStdout();
    command.SetStdin();
    err := command.Run(run);
    c := command;
  }

  // ---------------------------------------------------------------------
  // helm install (devhelm/install.go)
  // ---------------------------------------------------------------------

  /** The argument list an `InstallArg` extends in place. */
  class ArgList {
    var items: seq<string>

    constructor (items: seq<string>)
      ensures this.items == items
    {
      this.items := items;
    }
  }

  /** `InstallArg`, as built by `InstallWithNamespace` and `InstallWithSet`. */
  datatype InstallArg = InstallWithNamespace(namespace: string) | InstallWithSet(setting: string)
  {
    function Flag(): string
    {
      match this
      case InstallWithNamespace(_) => "--namespace"
      case InstallWithSet(_) => "--set"
    }

    function Value(): string
    {
      match this
      case InstallWithNamespace(ns) => ns
      case InstallWithSet(s) => s
    }

    /** Calling the option on the list: it appends its flag and value. */
    method ApplyTo(s: ArgList)
      modifies s
      ensures s.items == old(s.items) + [Flag(), Value()]
    {
      match this {
        case InstallWithNamespace(ns) => s.items := s.items + ["--namespace", ns];
        case InstallWithSet(setting) => s.items := s.items + ["--set", setting];
      }
    }
  }

  /** The arguments the options append, in call order. */
  function OptionArgs(opts: seq<InstallArg>): seq<string>
  {
    if opts == [] then []
    else OptionArgs(opts[..|opts| - 1]) + [opts[|opts| - 1].Flag(), opts[|opts| - 1].Value()]
  }

  function InstallArgs(name: string, chart: string, opts: seq<InstallArg>): seq<string>
  {
    ["install", name, chart] + OptionArgs(opts)
  }

  /** Options only ever extend the list: applying more options keeps what the
      earlier ones produced as a prefix. */
  lemma {:induction false} OptionArgsAppend(a: seq<InstallArg>, b: seq<InstallArg>)
    ensures OptionArgs(a + b) == OptionArgs(a) + OptionArgs(b)
    decreases |b|
  {
    if b == [] {
      assert a + b == a;
    } else {
      var b' := b[..|b| - 1];
      assert (a + b)[..|a + b| - 1] == a + b';
      assert (a + b)[|a + b| - 1] == b[|b| - 1];
      OptionArgsAppend(a, b');
    }
  }

  /** The k-th option contributes exactly its flag at 2k and its value at 2k+1. */
  lemma {:induction false} OptionArgsAt(opts: seq<InstallArg>, k: int)
    requires 0 <= k < |opts|
    ensures |OptionArgs(opts)| == 2 * |opts|
    ensures OptionArgs(opts)[2 * k] == opts[k].Flag() && OptionArgs(opts)[2 * k + 1] == opts[k].Value()
    decreases |opts|
  {
    OptionArgsLength(opts);
    var init := opts[..|opts| - 1];
    if k < |opts| - 1 {
      OptionArgsAt(init, k);
    } else {
      OptionArgsLength(init);
    }
  }

  lemma {:induction false} OptionArgsLength(opts: seq<InstallArg>)
    ensures |OptionArgs(opts)| == 2 * |opts|
    decreases |opts|
  {
    if opts != [] {
      OptionArgsLength(opts[..|opts| - 1]);
    }
  }

  /** `RealHelm.Install`. */
  method Install(h: RealHelm, run: Runner, name: string, chart: string, opts: seq<InstallArg>)
    returns (err: Option<Error>, ghost ran: Invocation)
    ensures ran == HelmInvocation(h, InstallArgs(name, chart, opts))
    ensures var cause := run(HelmInvocation(h, InstallArgs(name, chart, opts)));
      err.None? <==> cause.None?
    ensures var cause := run(HelmInvocation(h, InstallArgs(name, chart, opts)));
      err.Some? ==> err.value == Wrap("helm repo update", cause.value) && ErrorIs(err.value, cause.value)
  {
    var args := new ArgList(["install", name, chart]);
    for i := 0 to |opts|
      invariant args.items == ["install", name, chart] + OptionArgs(opts[..i])
    {
      opts[i].ApplyTo(args);
      assert opts[..i + 1][..i] == opts[..i];
    }
    assert opts[..|opts|] == opts;
    var runErr, _ := ExecHelmCmd(h, run, args.items);
    ran := HelmInvocation(h, args.items);
    if runErr.Some? {
      return Some(Wrap("helm repo update", runErr.value)), ran;
    }
    err := None;
  }
}
