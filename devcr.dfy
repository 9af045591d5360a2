/** Package devcr: the argument vectors shared by the docker and podman
    runtimes, runtime detection, and the helper that runs a runtime command. */
module DevCr {
  import opened Errors
  import opened Exec

  // ---------------------------------------------------------------------
  // Argument vectors (devcr/dockerpodman.go)
  // ---------------------------------------------------------------------

  /** `dockerPodmanBuildArgs`: the optional flags in the order tag, push, file. */
  function BuildArgs(tag: string, push: bool, sourcePath: string, file: string): (args: seq<string>)
    ensures |args| >= 2 && args[0] == "build" && args[|args| - 1] == sourcePath
  {
    var tagged := if tag != "" then ["build", "--tag", tag] else ["build"];
    var pushed := if push then tagged + ["--push"] else tagged;
    var filed := if file != "" then pushed + ["--file", file] else pushed;
    filed + [sourcePath]
  }

  /** `dockerPodmanLoadArgs`: reads back as a load of exactly that archive. */
  function LoadArgs(sourcePath: string): (args: seq<string>)
    ensures ParseArgs(args) == Some(LoadCommand(sourcePath))
  {
    ["load", "--input", sourcePath]
  }

  /** `dockerPodmanSaveArgs`: reads back as a save of exactly those tags, in order, to that path. */
  function SaveArgs(dstPath: string, tags: seq<string>): (args: seq<string>)
    ensures ParseArgs(args) == Some(SaveCommand(dstPath, tags))
  {
    ["save", "--output", dstPath] + tags
  }

  /** `dockerPodmanLoginArgs`: reads back with registry, user and password each in its own place. */
  function LoginArgs(registry: string, user: string, password: string): (args: seq<string>)
    ensures ParseArgs(args) == Some(LoginCommand(registry, user, password))
  {
    ["login", "--username", user, "--password", password, registry]
  }

  /** `dockerPodmanPushArgs`: reads back as a push of exactly that tag. */
  function PushArgs(tag: string): (args: seq<string>)
    ensures ParseArgs(args) == Some(PushCommand(tag))
  {
    ["push", tag]
  }

  /** The runtime commands the builders describe. */
  datatype RuntimeCommand =
    | BuildCommand(tag: string, push: bool, sourcePath: string, file: string)
    | LoadCommand(sourcePath: string)
    | SaveCommand(dstPath: string, tags: seq<string>)
    | LoginCommand(registry: string, user: string, password: string)
    | PushCommand(tag: string)

  function ArgsOf(c: RuntimeCommand): seq<string>
  {
    match c
    case BuildCommand(tag, push, sourcePath, file) => BuildArgs(tag, push, sourcePath, file)
    case LoadCommand(sourcePath) => LoadArgs(sourcePath)
    case SaveCommand(dstPath, tags) => SaveArgs(dstPath, tags)
    case LoginCommand(registry, user, password) => LoginArgs(registry, user, password)
    case PushCommand(tag) => PushArgs(tag)
  }

  datatype BuildFlags = BuildFlags(tag: string, push: bool, file: string)

  /** Reads the optional build flags, in any order, the later occurrence winning. */
  function ParseBuildFlags(flags: seq<string>, acc: BuildFlags): Option<BuildFlags>
    decreases |flags|
  {
    if flags == [] then Some(acc)
    else if flags[0] == "--tag" && |flags| >= 2 then ParseBuildFlags(flags[2..], acc.(tag := flags[1]))
    else if flags[0] == "--push" then ParseBuildFlags(flags[1..], acc.(push := true))
    else if flags[0] == "--file" && |flags| >= 2 then ParseBuildFlags(flags[2..], acc.(file := flags[1]))
    else None
  }

  /** How the runtime's command line reads an argument vector. */
  function ParseArgs(args: seq<string>): Option<RuntimeCommand>
  {
    if |args| == 0 then None
    else if args[0] == "build" then
      if |args| < 2 then None
      else match ParseBuildFlags(args[1..|args| - 1], BuildFlags("", false, ""))
        case Some(f) => Some(BuildCommand(f.tag, f.push, args[|args| - 1], f.file))
        case None => None
    else if args[0] == "load" then
      if |args| == 3 && args[1] == "--input" then Some(LoadCommand(args[2])) else None
    else if args[0] == "save" then
      if |args| >= 3 && args[1] == "--output" then Some(SaveCommand(args[2], args[3..])) else None
    else if args[0] == "login" then
      if |args| == 6 && args[1] == "--username" && args[3] == "--password"
      then Some(LoginCommand(args[5], args[2], args[4]))
      else None
    else if args[0] == "push" then
      if |args| == 2 then Some(PushCommand(args[1])) else None
    else None
  }

  /** Every builder's vector reads back as the command it was built from: no
      value is lost, none is taken for another, and each optional build flag
      is there exactly when its value is set. */
  lemma ParseInvertsArgs(c: RuntimeCommand)
    ensures ParseArgs(ArgsOf(c)) == Some(c)
  {
    if c.BuildCommand? {
      var args := ArgsOf(c);
      var flags := args[1..|args| - 1];
      var tagPart := if c.tag != "" then ["--tag", c.tag] else [];
      var pushPart := if c.push then ["--push"] else [];
      var filePart := if c.file != "" then ["--file", c.file] else [];
      assert flags == tagPart + pushPart + filePart;
      var afterTag := BuildFlags(c.tag, false, "");
      var afterPush := BuildFlags(c.tag, c.push, "");
      assert ParseBuildFlags(filePart, afterPush) == Some(BuildFlags(c.tag, c.push, c.file));
      assert ParseBuildFlags(pushPart + filePart, afterTag) == ParseBuildFlags(filePart, afterPush) by {
        if c.push {
          assert (pushPart + filePart)[1..] == filePart;
        }
      }
      assert ParseBuildFlags(tagPart + pushPart + filePart, BuildFlags("", false, ""))
          == ParseBuildFlags(pushPart + filePart, afterTag) by {
        if c.tag != "" {
          assert (tagPart + pushPart + filePart)[2..] == pushPart + filePart;
        } else {
          assert tagPart + pushPart + filePart == pushPart + filePart;
        }
      }
    }
  }

  /** Where the optional build flags sit: tag first, then push, then file,
      each present exactly when its value is set. */
  lemma BuildArgsLayout(tag: string, push: bool, sourcePath: string, file: string)
    ensures var args := BuildArgs(tag, push, sourcePath, file);
      var p := if tag != "" then 3 else 1;
      var f := if push then p + 1 else p;
      |args| == f + (if file != "" then 2 else 0) + 1 &&
      (tag != "" ==> args[1] == "--tag" && args[2] == tag) &&
      (push ==> args[p] == "--push") &&
      (file != "" ==> args[f] == "--file" && args[f + 1] == file)
  {
  }

  // ---------------------------------------------------------------------
  // Detection and execution (devcr/devcr.go)
  // ---------------------------------------------------------------------

  datatype Runtime = Podman | Docker

  function RuntimeName(rt: Runtime): string
  {
    match rt
    case Podman => "podman"
    case Docker => "docker"
  }

  /** The probe `test` runs: `<runtime> info`, with no stream attached. */
  function Probe(rt: Runtime): Invocation
  {
    Invocation(RuntimeName(rt), ["info"], None, "", false, false, false)
  }

  /** `Detect`: podman is preferred; docker is probed only when podman's
      probe fails. `probed` lists the runtimes probed, in order. */
  method Detect(run: Runner) returns (r: Result<Runtime>, ghost probed: seq<Runtime>)
    ensures |probed| >= 1 && probed[0] == Podman
    ensures run(Probe(Podman)).None? <==> r == Ok(Podman)
    ensures run(Probe(Podman)).None? <==> probed == [Podman]
    ensures r == Ok(Docker) <==> run(Probe(Podman)).Some? && run(Probe(Docker)).None?
    ensures r.Err? <==> run(Probe(Podman)).Some? && run(Probe(Docker)).Some?
    ensures r.Err? ==> ErrorIs(r.error, run(Probe(Podman)).value) && ErrorIs(r.error, run(Probe(Docker)).value)
    ensures r.Err? ==> r.error == Wrap("no container runtime available", Joined(run(Probe(Podman)).value, run(Probe(Docker)).value))
  {
    probed := [Podman];
    var pErr := run(Probe(Podman));
    if pErr.None? {
      return Ok(Podman), probed;
    }
    probed := probed + [Docker];
    var dErr := run(Probe(Docker));
    if dErr.None? {
      return Ok(Docker), probed;
    }
    r := Err(Wrap("no container runtime available", Joined(pErr.value, dErr.value)));
  }

  /** The command `execute` runs: all three standard streams attached. */
  function Attached(cmd: string, args: seq<string>): Invocation
  {
    Invocation(cmd, args, None, "", true, true, true)
  }

  /** `execute`: the command is run once with all three streams attached; a
      run error comes back wrapped, satisfying `errors.Is` for it. */
  method Execute(run: Runner, cmd: string, args: seq<string>) returns (err: Option<Error>, ghost c: Cmd)
    ensures c.Snapshot() == Attached(cmd, args) && c.runs == 1
    ensures err.None? <==> run(Attached(cmd, args)).None?
    ensures err.Some? ==> ErrorIs(err.value, run(Attached(cmd, args)).value)
    ensures err.Some? ==> err.value == Wrap(cmd + " " + FormatList(args), run(Attached(cmd, args)).value)
  {
    var command := new Cmd(cmd, args);
    command.SetStderr();
    command.SetStdin();
    command.SetStdout();
    var runErr := command.Run(run);
    c := command;
    if runErr.Some? {
      return Some(Wrap(cmd + " " + FormatList(args), runErr.value)), c;
    }
    err := None;
  }
}
