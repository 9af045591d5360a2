/** The image build and push helpers of package dev (dev/build.go).

    Both run a fixed plan of commands and panic at the first one that fails
    (`must`, or an explicit `panic`). A panic is modelled as the outcome
    `Panicked`, after which nothing else runs. The process environment is
    given by what `os.LookupEnv` answers for each name. */
module DevBuild {
  import opened Errors
  import opened Exec

  datatype ImageBuildInfo = ImageBuildInfo(
    imageTag: string,
    cacheDir: string,
    containerFile: string,
    contextDir: string,
    runtime: string)

  datatype ImagePushInfo = ImagePushInfo(digestFile: string, buildInfo: ImageBuildInfo)

  /** The runtime name that gets a digest file on push. */
  const ContainerRuntimePodman: string := "podman"

  datatype Outcome = Completed | Panicked(err: Error)

  /** One command of a plan, and the text its error is wrapped in when it panics. */
  datatype PlanStep = PlanStep(inv: Invocation, wrapWith: Option<string>)

  function PanicValue(s: PlanStep, e: Error): Error
  {
    match s.wrapWith
    case None => e
    case Some(msg) => Wrap(msg, e)
  }

  /** How a plan ends and how many of its commands ran. */
  datatype PlanRun = PlanRun(outcome: Outcome, ran: nat)

  /** Reference semantics of running a plan with panic on the first failure. */
  function RunSteps(steps: seq<PlanStep>, run: Runner): (r: PlanRun)
    ensures r.ran <= |steps|
  {
    if steps == [] then PlanRun(Completed, 0)
    else match run(steps[0].inv)
      case Some(e) => PlanRun(Panicked(PanicValue(steps[0], e)), 1)
      case None =>
        var rest := RunSteps(steps[1..], run);
        PlanRun(rest.outcome, rest.ran + 1)
  }

  /** A plan completes exactly when it runs every command and each succeeds;
      otherwise it stops right after the first failing command, panicking
      with that command's error. */
  lemma {:induction false} RunStepsStopsAtFirstFailure(steps: seq<PlanStep>, run: Runner)
    ensures var r := RunSteps(steps, run);
      (r.outcome.Completed? <==> forall i :: 0 <= i < |steps| ==> run(steps[i].inv).None?) &&
      (r.outcome.Completed? ==> r.ran == |steps|) &&
      (forall i :: 0 <= i < r.ran - 1 ==> run(steps[i].inv).None?) &&
      (r.outcome.Panicked? ==>
         (1 <= r.ran &&
          run(steps[r.ran - 1].inv).Some? &&
          r.outcome.err == PanicValue(steps[r.ran - 1], run(steps[r.ran - 1].inv).value)))
  {
    if steps != [] && run(steps[0].inv).None? {
      RunStepsStopsAtFirstFailure(steps[1..], run);
      var rest := RunSteps(steps[1..], run);
      forall i | 0 < i < |steps| ensures steps[i] == steps[1..][i - 1] { }
      if rest.outcome.Panicked? {
        assert steps[rest.ran] == steps[1..][rest.ran - 1];
      }
    }
  }

  lemma {:induction false} RunStepsAppend(a: seq<PlanStep>, b: seq<PlanStep>, run: Runner)
    ensures var ra := RunSteps(a, run);
      RunSteps(a + b, run) ==
        if ra.outcome.Panicked? then ra
        else var rb := RunSteps(b, run); PlanRun(rb.outcome, ra.ran + rb.ran)
  {
    if a == [] {
      assert a + b == b;
    } else {
      assert (a + b)[0] == a[0] && (a + b)[1..] == a[1..] + b;
      RunStepsAppend(a[1..], b, run);
    }
  }

  function Invocations(steps: seq<PlanStep>): (r: seq<Invocation>)
    ensures |r| == |steps| && forall i :: 0 <= i < |steps| ==> r[i] == steps[i].inv
  {
    if steps == [] then [] else [steps[0].inv] + Invocations(steps[1..])
  }

  // ---------------------------------------------------------------------
  // BuildImage
  // ---------------------------------------------------------------------

  /** The build vector: runtime, build, -t and the tag; -f and the container
      file exactly when one is given; the context directory last. */
  function BuildCommand(info: ImageBuildInfo): (c: seq<string>)
    ensures info.containerFile != "" <==> |c| == 7
    ensures info.containerFile == "" <==> |c| == 5
    ensures c[..4] == [info.runtime, "build", "-t", info.imageTag]
    ensures c[|c| - 1] == info.contextDir
    ensures info.containerFile != "" ==> c[4] == "-f" && c[5] == info.containerFile
  {
    [info.runtime, "build", "-t", info.imageTag]
    + (if info.containerFile != "" then ["-f", info.containerFile] else [])
    + [info.contextDir]
  }

  /** The save vector: the runtime saves the image tag into the cache
      directory's tar archive. */
  function SaveCommand(info: ImageBuildInfo): (c: seq<string>)
    ensures |c| == 6 && c[0] == info.runtime && c[1..3] == ["image", "save"]
    ensures c[3] == "-o" && c[4] == info.cacheDir + ".tar" && c[5] == info.imageTag
  {
    [info.runtime, "image", "save", "-o", info.cacheDir + ".tar", info.imageTag]
  }

  /** A command of BuildImage as `exec.Command` gets it: the first element is
      the program, both output streams are attached, the cache directory is
      the working directory. */
  function BuildStep(command: seq<string>, dir: string): PlanStep
    requires |command| >= 1
  {
    PlanStep(Invocation(command[0], command[1..], None, dir, false, true, true), None)
  }

  function BuildSteps(info: ImageBuildInfo): seq<PlanStep>
  {
    [BuildStep(BuildCommand(info), info.cacheDir), BuildStep(SaveCommand(info), info.cacheDir)]
  }

  /** The save command never runs after a failed build. */
  lemma SaveNeedsBuild(info: ImageBuildInfo, run: Runner)
    ensures var r := RunSteps(BuildSteps(info), run);
      run(BuildSteps(info)[0].inv).Some? ==> r.ran == 1 && r.outcome == Panicked(run(BuildSteps(info)[0].inv).value)
  {
  }

  /** `BuildImage`. `ran` is what was run, in order. */
  method BuildImage(info: ImageBuildInfo, run: Runner) returns (outcome: Outcome, ghost ran: seq<Invocation>)
    ensures outcome == RunSteps(BuildSteps(info), run).outcome
    ensures ran == Invocations(BuildSteps(info))[..RunSteps(BuildSteps(info), run).ran]
  {
    var cmds := [BuildCommand(info), SaveCommand(info)];
    ghost var steps := BuildSteps(info);
    ran := [];
    for i := 0 to |cmds|
      invariant ran == Invocations(steps)[..i]
      invariant var r := RunSteps(steps[i..], run);
        RunSteps(steps, run) == PlanRun(r.outcome, r.ran + i)
    {
      var command := cmds[i];
      var c := new Cmd(command[0], command[1..]);
      c.SetStderr();
      c.SetStdout();
      c.SetDir(info.cacheDir);
      assert c.Snapshot() == steps[i].inv;
      var err := c.Run(run);
      ran := ran + [steps[i].inv];
      assert Invocations(steps)[..i + 1] == Invocations(steps)[..i] + [steps[i].inv];
      assert steps[i..][0] == steps[i] && steps[i..][1..] == steps[i + 1..];
      if err.Some? {
        return Panicked(err.value), ran;
      }
    }
    outcome := Completed;
  }

  // ---------------------------------------------------------------------
  // PushImage
  // ---------------------------------------------------------------------

  /** `os.LookupEnv`. */
  type Environment = string -> Option<string>

  /** `os.Getenv`: an unset variable reads as "". */
  function Getenv(env: Environment, name: string): string
  {
    match env(name)
    case Some(v) => v
    case None => ""
  }

  predicate RunningInCI(env: Environment)
  {
    env("JENKINS_HOME").Some? || env("CI").Some?
  }

  function RegistryLoginArgs(env: Environment): seq<string>
  {
    ["login", "-u=" + Getenv(env, "QUAY_USER"), "-p=" + Getenv(env, "QUAY_TOKEN"), "quay.io"]
  }

  /** The push vector: push; the digest file exactly when the runtime is
      podman; the tag last. */
  function PushCommandArgs(push: ImagePushInfo): (a: seq<string>)
    ensures push.buildInfo.runtime == ContainerRuntimePodman <==> |a| == 3
    ensures push.buildInfo.runtime != ContainerRuntimePodman <==> |a| == 2
    ensures a[0] == "push" && a[|a| - 1] == push.buildInfo.imageTag
    ensures push.buildInfo.runtime == ContainerRuntimePodman ==> a[1] == "--digestfile=" + push.digestFile
  {
    ["push"]
    + (if push.buildInfo.runtime == ContainerRuntimePodman then ["--digestfile=" + push.digestFile] else [])
    + [push.buildInfo.imageTag]
  }

  // ---------------------------------------------------------------------
  // mage's sh.Run: `os.Expand` over the command, then `exec.Command`
  // ---------------------------------------------------------------------

  /** `isShellSpecialVar` of `os.Expand`. */
  predicate IsShellSpecial(c: char)
  {
    c in "*#$@!?-0123456789"
  }

  /** `isAlphaNum` of `os.Expand`. */
  predicate IsAlphaNum(c: char)
  {
    c == '_' || '0' <= c <= '9' || 'a' <= c <= 'z' || 'A' <= c <= 'Z'
  }

  /** The name `os.Expand` reads after a dollar sign, and how many characters
      after the dollar it takes; an empty name with a nonzero width is bad
      syntax, which is dropped. */
  datatype ShellName = ShellName(name: string, width: nat)

  /** The first '}' in t at or after i. */
  function CloseBrace(t: string, i: nat): (r: Option<nat>)
    requires i <= |t|
    ensures r.Some? ==> i <= r.value < |t| && t[r.value] == '}' && forall k :: i <= k < r.value ==> t[k] != '}'
    ensures r.None? ==> forall k :: i <= k < |t| ==> t[k] != '}'
    decreases |t| - i
  {
    if i == |t| then None else if t[i] == '}' then Some(i) else CloseBrace(t, i + 1)
  }

  /** The end of the run of alphanumerics in t that starts at i. */
  function AlphaNumEnd(t: string, i: nat): (r: nat)
    requires i <= |t|
    ensures i <= r <= |t| && (forall k :: i <= k < r ==> IsAlphaNum(t[k])) && (r < |t| ==> !IsAlphaNum(t[r]))
    decreases |t| - i
  {
    if i == |t| || !IsAlphaNum(t[i]) then i else AlphaNumEnd(t, i + 1)
  }

  /** `getShellName`, on the text after a dollar sign. */
  function GetShellName(t: string): (r: ShellName)
    requires |t| > 0
    ensures r.width <= |t|
  {
    if t[0] == '{' then
      if |t| > 2 && IsShellSpecial(t[1]) && t[2] == '}' then ShellName(t[1..2], 3)
      else match CloseBrace(t, 1)
        case Some(i) => if i == 1 then ShellName("", 2) else ShellName(t[1..i], i + 1)
        case None => ShellName("", 1)
    else if IsShellSpecial(t[0]) then ShellName(t[..1], 1)
    else
      var i := AlphaNumEnd(t, 0);
      ShellName(t[..i], i)
  }

  /** `os.Expand(s, mapping)` with the mapping of `sh.Run`: it passes no
      variables of its own, so every name reads through `os.Getenv`. A dollar
      sign that ends the text, or that no name follows, stays as it is. */
  function Expand(env: Environment, s: string): string
    decreases |s|
  {
    if |s| == 0 then ""
    else if s[0] == '$' && |s| >= 2 then
      var n := GetShellName(s[1..]);
      var value := if n.name != "" then Getenv(env, n.name) else if n.width > 0 then "" else "$";
      value + Expand(env, s[1 + n.width..])
    else [s[0]] + Expand(env, s[1..])
  }

  /** Text with no dollar sign is left exactly as it is. */
  lemma {:induction false} ExpandPlain(env: Environment, s: string)
    requires forall k :: 0 <= k < |s| ==> s[k] != '$'
    ensures Expand(env, s) == s
    decreases |s|
  {
    if |s| > 0 {
      assert forall k :: 0 <= k < |s[1..]| ==> s[1..][k] == s[k + 1];
      ExpandPlain(env, s[1..]);
    }
  }

  /** Text with no dollar sign in front of the rest is kept, and the rest is
      expanded on its own. */
  lemma {:induction false} ExpandPlainPrefix(env: Environment, p: string, s: string)
    requires forall k :: 0 <= k < |p| ==> p[k] != '$'
    ensures Expand(env, p + s) == p + Expand(env, s)
    decreases |p|
  {
    if |p| > 0 {
      var ps := p + s;
      assert ps[0] == p[0] && ps[1..] == p[1..] + s;
      assert Expand(env, ps) == [p[0]] + Expand(env, ps[1..]);
      assert forall k :: 0 <= k < |p[1..]| ==> p[1..][k] == p[k + 1];
      ExpandPlainPrefix(env, p[1..], s);
      assert p == [p[0]] + p[1..];
    } else {
      assert p + s == s;
    }
  }

  /** `$NAME`, for a name that starts with a letter or an underscore and runs
      to the first character that is not alphanumeric, becomes the variable's
      value, or "" when it is unset. */
  lemma ExpandVariable(env: Environment, name: string, rest: string)
    requires |name| > 0 && !IsShellSpecial(name[0])
    requires forall k :: 0 <= k < |name| ==> IsAlphaNum(name[k])
    requires rest == "" || !IsAlphaNum(rest[0])
    ensures Expand(env, "$" + name + rest) == Getenv(env, name) + Expand(env, rest)
  {
    var s := "$" + name + rest;
    assert s[1..] == name + rest;
    ShellNameOfVariable(name, rest);
    assert s[1 + |name|..] == rest;
  }

  lemma ShellNameOfVariable(name: string, rest: string)
    requires |name| > 0 && !IsShellSpecial(name[0])
    requires forall k :: 0 <= k < |name| ==> IsAlphaNum(name[k])
    requires rest == "" || !IsAlphaNum(rest[0])
    ensures GetShellName(name + rest) == ShellName(name, |name|)
  {
    var t := name + rest;
    assert t[0] == name[0];
    var i := AlphaNumEnd(t, 0);
    assert i <= |name| by {
      assert |name| < |t| ==> t[|name|] == rest[0];
    }
    assert t[..i] == name;
  }

  /** `${NAME}`, for any non-empty name without a closing brace, becomes the
      variable's value, or "" when it is unset. */
  lemma ExpandBraced(env: Environment, name: string, rest: string)
    requires |name| > 0 && forall k :: 0 <= k < |name| ==> name[k] != '}'
    ensures Expand(env, "${" + name + "}" + rest) == Getenv(env, name) + Expand(env, rest)
  {
    var s := "${" + name + "}" + rest;
    var t := s[1..];
    assert t == "{" + name + "}" + rest;
    assert t[|name| + 1] == '}';
    assert forall k :: 1 <= k <= |name| ==> t[k] == name[k - 1];
    if |t| > 2 && IsShellSpecial(t[1]) && t[2] == '}' {
      assert |name| == 1;
      assert t[1..2] == name;
    } else {
      var c := CloseBrace(t, 1);
      assert c == Some(|name| + 1);
      assert t[1..|name| + 1] == name;
    }
    assert s[|name| + 3..] == rest;
  }

  function ExpandAll(env: Environment, args: seq<string>): (r: seq<string>)
    ensures |r| == |args| && forall i :: 0 <= i < |args| ==> r[i] == Expand(env, args[i])
  {
    seq(|args|, i requires 0 <= i < |args| => Expand(env, args[i]))
  }

  /** The command `sh.Run(cmd, args...)` runs: the program name and every
      argument expanded, the inherited environment, standard input and
      standard error attached (standard output only in mage's verbose mode). */
  function ShInvocation(env: Environment, name: string, args: seq<string>): Invocation
  {
    Invocation(Expand(env, name), ExpandAll(env, args), None, "", true, false, true)
  }

  /** `sh.Run(cmd, args...)` as a step of the push plan, panicking with its
      error wrapped in `wrapWith`. */
  function ShRun(env: Environment, name: string, args: seq<string>, wrapWith: string): PlanStep
  {
    PlanStep(ShInvocation(env, name, args), Some(wrapWith))
  }

  function PushSteps(push: ImagePushInfo, env: Environment): seq<PlanStep>
  {
    var rt := push.buildInfo.runtime;
    BuildSteps(push.buildInfo)
    + (if RunningInCI(env) then [ShRun(env, rt, RegistryLoginArgs(env), "registry login")] else [])
    + [ShRun(env, rt, PushCommandArgs(push), "pushing image")]
  }

  function LoginInvocation(push: ImagePushInfo, env: Environment): Invocation
  {
    ShInvocation(env, push.buildInfo.runtime, RegistryLoginArgs(env))
  }

  function PushInvocation(push: ImagePushInfo, env: Environment): Invocation
  {
    ShInvocation(env, push.buildInfo.runtime, PushCommandArgs(push))
  }

  /** The plan: build and save, then the registry login only in CI, the push
      last; the two `sh.Run` commands attach standard input and standard
      error, not standard output. */
  lemma PushPlanOrder(push: ImagePushInfo, env: Environment)
    ensures var s := PushSteps(push, env);
      s[..2] == BuildSteps(push.buildInfo) &&
      (RunningInCI(env) <==> |s| == 4) &&
      (RunningInCI(env) ==> s[2].inv == LoginInvocation(push, env)) &&
      s[|s| - 1].inv == PushInvocation(push, env) &&
      forall k :: 2 <= k < |s| ==> s[k].inv.stdin && s[k].inv.stderr && !s[k].inv.stdout
  {
  }

  /** A runtime, tag and digest file without dollar signs reach the runtime
      verbatim: the push runs exactly the push vector. */
  lemma PushWithoutDollarIsVerbatim(push: ImagePushInfo, env: Environment)
    requires forall k :: 0 <= k < |push.buildInfo.runtime| ==> push.buildInfo.runtime[k] != '$'
    requires forall k :: 0 <= k < |push.buildInfo.imageTag| ==> push.buildInfo.imageTag[k] != '$'
    requires forall k :: 0 <= k < |push.digestFile| ==> push.digestFile[k] != '$'
    ensures PushInvocation(push, env).name == push.buildInfo.runtime
    ensures PushInvocation(push, env).args == PushCommandArgs(push)
  {
    var a := PushCommandArgs(push);
    ExpandPlain(env, push.buildInfo.runtime);
    forall i | 0 <= i < |a| ensures Expand(env, a[i]) == a[i] {
      if i == 0 {
        ExpandPlain(env, "push");
      } else if i == |a| - 1 {
        ExpandPlain(env, push.buildInfo.imageTag);
      } else {
        var d := "--digestfile=" + push.digestFile;
        assert a[i] == d;
        assert forall k :: 0 <= k < |d| ==> d[k] != '$' by {
          forall k | 0 <= k < |d| ensures d[k] != '$' {
            if k >= 13 { assert d[k] == push.digestFile[k - 13]; }
          }
        }
        ExpandPlain(env, d);
      }
    }
    assert ExpandAll(env, a) == a;
  }

  /** A registry token holding `$NAME` loses it to the variable's value:
      with QUAY_TOKEN set to "ab$c" and c unset, the login passes "-p=ab". */
  lemma LoginTokenIsExpanded(push: ImagePushInfo, env: Environment)
    requires env("QUAY_TOKEN") == Some("ab$c") && env("c") == None
    ensures LoginInvocation(push, env).args[2] == "-p=ab"
  {
    assert RegistryLoginArgs(env)[2] == "-p=" + "ab$c";
    assert "-p=" + "ab$c" == "-p=ab" + ("$" + "c" + "");
    ExpandPlainPrefix(env, "-p=ab", "$" + "c" + "");
    ExpandVariable(env, "c", "");
  }

  /** The push plan run step by step: the build's panic, else the login's
      (only in CI), else the push's, else completion. */
  lemma PushPlanRun(push: ImagePushInfo, env: Environment, run: Runner)
    ensures var b := RunSteps(BuildSteps(push.buildInfo), run);
      var login := LoginInvocation(push, env);
      var pushed := PushInvocation(push, env);
      var n := if RunningInCI(env) then 3 else 2;
      RunSteps(PushSteps(push, env), run) ==
        if b.outcome.Panicked? then b
        else if RunningInCI(env) && run(login).Some? then PlanRun(Panicked(Wrap("registry login", run(login).value)), 3)
        else if run(pushed).Some? then PlanRun(Panicked(Wrap("pushing image", run(pushed).value)), n + 1)
        else PlanRun(Completed, n + 1)
  {
    var built := BuildSteps(push.buildInfo);
    var loginSteps := if RunningInCI(env) then [ShRun(env, push.buildInfo.runtime, RegistryLoginArgs(env), "registry login")] else [];
    var pushStep := ShRun(env, push.buildInfo.runtime, PushCommandArgs(push), "pushing image");
    assert PushSteps(push, env) == built + (loginSteps + [pushStep]);
    RunStepsAppend(built, loginSteps + [pushStep], run);
    RunStepsAppend(loginSteps, [pushStep], run);
    RunStepsStopsAtFirstFailure(built, run);
  }

  /** `PushImage` as intended: BuildImage runs first, then the login and the
      push. As written, the build goes through `mg.F`, modelled apart below. */
  method PushImage(push: ImagePushInfo, run: Runner, env: Environment) returns (outcome: Outcome, ghost ran: seq<Invocation>)
    ensures outcome == RunSteps(PushSteps(push, env), run).outcome
    ensures ran == Invocations(PushSteps(push, env))[..RunSteps(PushSteps(push, env), run).ran]
  {
    PushPlanRun(push, env, run);
    RunStepsStopsAtFirstFailure(BuildSteps(push.buildInfo), run);
    ghost var all := Invocations(PushSteps(push, env));
    assert all[..2] == Invocations(BuildSteps(push.buildInfo));

    outcome, ran := BuildImage(push.buildInfo, run);
    if outcome.Panicked? {
      return;
    }
    var isJenkins := env("JENKINS_HOME").Some?;
    var isCI := env("CI").Some?;
    if isJenkins || isCI {
      var args := ["login", "-u=" + Getenv(env, "QUAY_USER"), "-p=" + Getenv(env, "QUAY_TOKEN"), "quay.io"];
      var err := run(ShInvocation(env, push.buildInfo.runtime, args));
      ran := ran + [all[2]];
      assert ran == all[..3];
      if err.Some? {
        return Panicked(Wrap("registry login", err.value)), ran;
      }
    }
    var args := ["push"];
    if push.buildInfo.runtime == ContainerRuntimePodman {
      args := args + ["--digestfile=" + push.digestFile];
    }
    args := args + [push.buildInfo.imageTag];
    assert args == PushCommandArgs(push);
    var err := run(ShInvocation(env, push.buildInfo.runtime, args));
    ran := ran + [all[|all| - 1]];
    assert ran == all;
    if err.Some? {
      return Panicked(Wrap("pushing image", err.value)), ran;
    }
    outcome := Completed;
  }

  // ---------------------------------------------------------------------
  // PushImage as written: `mg.SerialDeps(mg.F(BuildImage, ...))`
  // ---------------------------------------------------------------------

  /** The Go type of a target's parameter, as far as `mg.F` tells types apart. */
  datatype ArgType = StringType | IntType | BoolType | Float64Type | DurationType | OtherType(name: string)

  /** The parameter types `mg.F` accepts. */
  predicate SupportedArgType(t: ArgType)
  {
    !t.OtherType?
  }

  /** `mg.F`'s check of its target's parameters: the first one whose type mage
      does not accept is an error, and `mg.F` panics with it. */
  function MgFCheck(params: seq<ArgType>): (r: Option<Error>)
    ensures r.None? <==> forall i :: 0 <= i < |params| ==> SupportedArgType(params[i])
  {
    if params == [] then None
    else if !SupportedArgType(params[0]) then Some(Leaf("is not a supported argument type"))
    else MgFCheck(params[1..])
  }

  /** The parameters of BuildImage: `*ImageBuildInfo`, `func()` and `[]interface{}`. */
  const BuildImageParams: seq<ArgType> := [OtherType("*ImageBuildInfo"), OtherType("func()"), OtherType("[]interface{}")]

  /** `PushImage` as written: `mg.F(BuildImage, ...)` is evaluated before
      anything else, and its parameter check decides whether the plan runs. */
  function PushImageAsWritten(push: ImagePushInfo, env: Environment, run: Runner): PlanRun
  {
    match MgFCheck(BuildImageParams)
    case Some(e) => PlanRun(Panicked(e), 0)
    case None => RunSteps(PushSteps(push, env), run)
  }

  /** As written, PushImage panics in `mg.F` for every input, before it has
      run a single command. */
  lemma PushImageAsWrittenRunsNothing(push: ImagePushInfo, env: Environment, run: Runner)
    ensures PushImageAsWritten(push, env, run) == PlanRun(Panicked(Leaf("is not a supported argument type")), 0)
    ensures MgFCheck(BuildImageParams).Some?
  {
    assert !SupportedArgType(BuildImageParams[0]);
  }
}
