/** A command object of `k8s.io/utils/exec` (and of `os/exec`) as the
    modelled code configures and runs it.

    Running a command is not modelled: a `Runner` gives the error the process
    would end with, as a function of everything the command was configured
    with. Attaching a standard stream is recorded as a flag; which writer is
    attached (always the process's own `os.Stdin`, `os.Stdout`, `os.Stderr`
    here) is not. */
module Exec {
  import opened Errors

  /** Everything the runner sees of a command when it is run. */
  datatype Invocation = Invocation(
    name: string,
    args: seq<string>,
    env: Option<seq<string>>,
    dir: string,
    stdin: bool,
    stdout: bool,
    stderr: bool)

  type Runner = Invocation -> Option<Error>

  /** A command as `exec.Interface.CommandContext(ctx, name, args...)` returns it. */
  class Cmd {
    const name: string
    const args: seq<string>
    var env: Option<seq<string>>
    var dir: string
    var stdin: bool
    var stdout: bool
    var stderr: bool
    /** How many times the command has been run. */
    ghost var runs: nat

    constructor (name: string, args: seq<string>)
      ensures this.name == name && this.args == args
      ensures env == None && dir == "" && !stdin && !stdout && !stderr
      ensures runs == 0
    {
      this.name := name;
      this.args := args;
      env := None;
      dir := "";
      stdin := false;
      stdout := false;
      stderr := false;
      runs := 0;
    }

    /** The configuration the runner sees. */
    function Snapshot(): Invocation
      reads this
    {
      Invocation(name, args, env, dir, stdin, stdout, stderr)
    }

    method SetEnv(e: seq<string>)
      modifies this
      ensures Snapshot() == old(Snapshot()).(env := Some(e))
      ensures runs == old(runs)
    {
      env := Some(e);
    }

    /** `cmd.Dir = dir`. */
    method SetDir(d: string)
      modifies this
      ensures Snapshot() == old(Snapshot()).(dir := d)
      ensures runs == old(runs)
    {
      dir := d;
    }

    method SetStdin()
      modifies this
      ensures Snapshot() == old(Snapshot()).(stdin := true)
      ensures runs == old(runs)
    {
      stdin := true;
    }

    method SetStdout()
      modifies this
      ensures Snapshot() == old(Snapshot()).(stdout := true)
      ensures runs == old(runs)
    {
      stdout := true;
    }

    method SetStderr()
      modifies this
      ensures Snapshot() == old(Snapshot()).(stderr := true)
      ensures runs == old(runs)
    {
      stderr := true;
    }

    /** `cmd.Run()`: the error the runner gives for the configured command. */
    method Run(runner: Runner) returns (err: Option<Error>)
      modifies this
      ensures err == runner(old(Snapshot()))
      ensures Snapshot() == old(Snapshot()) && runs == old(runs) + 1
    {
      err := runner(Snapshot());
      runs := runs + 1;
    }
  }

  /** `fmt.Sprintf("%v", args)` for a string slice: the elements between
      brackets, separated by single spaces. */
  function FormatList(args: seq<string>): string
  {
    "[" + JoinSpaced(args) + "]"
  }

  function JoinSpaced(args: seq<string>): string
  {
    if args == [] then ""
    else if |args| == 1 then args[0]
    else args[0] + " " + JoinSpaced(args[1..])
  }
}
