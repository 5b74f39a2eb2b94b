/** The ZBrush pre-launch hook: the launch is rewritten so that the AYON
    launcher runs ZBrush through a launch script, with a fixed startup
    script as second argument. */
module ZBrushStartup {
  import opened Common

  /** One element of the launch argument list: a plain string, or a list
      appended whole so that its pieces stay together. */
  datatype Arg = Plain(text: string) | Group(texts: seq<string>)

  datatype LaunchError = EmptyLaunchArgs

  const ZBrushExeVar := "ZBRUSH_EXE"
  const AyonCmdVar := "AYON_ZBRUSH_CMD"

  /** `os.path.join(ZBRUSH_HOST_DIR, "startup", "startup.txt")`. */
  function StartupPath(hostDir: string): string {
    PathJoin(PathJoin(hostDir, "startup"), "startup.txt")
  }

  /** `get_openpype_execute_args("run", script, executable)`: the
      launcher's own invocation, then the three arguments in that order. */
  function ExecuteArgs(launcherArgs: seq<string>, launchScript: string, executable: string): seq<string> {
    launcherArgs + ["run", launchScript, executable]
  }

  /** The launch arguments after the hook, for a non-empty original list
      whose head is the executable. */
  function RewrittenArgs(args: seq<Arg>, launcherArgs: seq<string>, launchScript: string, hostDir: string): seq<Arg>
    requires |args| > 0 && args[0].Plain?
  {
    [Group(ExecuteArgs(launcherArgs, launchScript, args[0].text)), Group([StartupPath(hostDir)])] + args[1..]
  }

  /** The environment after the hook. */
  function RewrittenEnv(env: map<string, string>, executable: string, ayonCmd: string): map<string, string> {
    env[ZBrushExeVar := executable][AyonCmdVar := ayonCmd]
  }

  /** Recovers the original arguments from rewritten ones: the executable is
      the last piece of the first group, and the leftovers follow the two
      groups. */
  function OriginalArgs(rewritten: seq<Arg>): seq<Arg>
    requires |rewritten| >= 2 && rewritten[0].Group? && |rewritten[0].texts| >= 1
  {
    var first := rewritten[0].texts;
    [Plain(first[|first| - 1])] + rewritten[2..]
  }

  /** The hook keeps everything: the original list can be read back from
      the rewritten one. */
  lemma RewriteLosesNothing(args: seq<Arg>, launcherArgs: seq<string>, launchScript: string, hostDir: string)
    requires |args| > 0 && args[0].Plain?
    ensures var r := RewrittenArgs(args, launcherArgs, launchScript, hostDir);
      |r| >= 2 && r[0].Group? && |r[0].texts| >= 1 && OriginalArgs(r) == args
  {
    var r := RewrittenArgs(args, launcherArgs, launchScript, hostDir);
    assert r[2..] == args[1..];
    assert [args[0]] + args[1..] == args;
  }

  /** The shape of the result: the launcher group ending in `run`, the
      script and the executable, then the startup script on its own, then
      the leftovers in their original order; a single original argument
      gives exactly two elements. */
  lemma RewriteShape(args: seq<Arg>, launcherArgs: seq<string>, launchScript: string, hostDir: string)
    requires |args| > 0 && args[0].Plain?
    ensures var r := RewrittenArgs(args, launcherArgs, launchScript, hostDir);
      && |r| == |args| + 1
      && r[0] == Group(launcherArgs + ["run", launchScript, args[0].text])
      && r[1] == Group([StartupPath(hostDir)])
      && (forall k :: 1 <= k < |args| ==> r[k + 1] == args[k])
      && (|args| == 1 <==> |r| == 2)
  {
    var r := RewrittenArgs(args, launcherArgs, launchScript, hostDir);
    assert r[2..] == args[1..];
  }

  /** The process launch: its argument list and its environment. */
  class LaunchContext {
    var launchArgs: seq<Arg>
    var env: map<string, string>

    constructor (launchArgs: seq<Arg>, env: map<string, string>)
      ensures this.launchArgs == launchArgs && this.env == env
    {
      this.launchArgs := launchArgs;
      this.env := env;
    }
  }

  /** `ForceStartupScript.execute`. `ayonCmd` is the command line of the
      AYON launcher, `launcherArgs` its execute arguments, `launchScript`
      the launch script path and `hostDir` the ZBrush host directory.
      Returns whether the unexpected-arguments warning was logged. */
  method Execute(context: LaunchContext, ayonCmd: string, launcherArgs: seq<string>, launchScript: string, hostDir: string)
    returns (result: Result<bool, LaunchError>)
    requires context.launchArgs != [] ==> context.launchArgs[0].Plain?
    modifies context
    ensures old(context.launchArgs) == [] ==>
      result == Err(EmptyLaunchArgs) && context.launchArgs == [] && context.env == old(context.env)
    ensures old(context.launchArgs) != [] ==>
      && result == Ok(|old(context.launchArgs)| > 1)
      && context.launchArgs == RewrittenArgs(old(context.launchArgs), launcherArgs, launchScript, hostDir)
      && context.env == RewrittenEnv(old(context.env), old(context.launchArgs)[0].text, ayonCmd)
  {
    if context.launchArgs == [] {
      return Err(EmptyLaunchArgs);
    }
    var executablePath := context.launchArgs[0].text;
    context.launchArgs := context.launchArgs[1..];

    context.env := context.env[ZBrushExeVar := executablePath];
    context.env := context.env[AyonCmdVar := ayonCmd];

    ghost var leftovers := context.launchArgs;
    var remainders := [];
    while context.launchArgs != []
      invariant remainders + context.launchArgs == leftovers
      invariant context.env == RewrittenEnv(old(context.env), executablePath, ayonCmd)
      decreases |context.launchArgs|
    {
      var next := context.launchArgs[0];
      assert remainders + [next] + context.launchArgs[1..] == remainders + context.launchArgs;
      remainders := remainders + [next];
      context.launchArgs := context.launchArgs[1..];
    }
    assert remainders == leftovers;

    var newLaunchArgs := ExecuteArgs(launcherArgs, launchScript, executablePath);
    context.launchArgs := context.launchArgs + [Group(newLaunchArgs)];
    var startupArgs := [StartupPath(hostDir)];
    context.launchArgs := context.launchArgs + [Group(startupArgs)];
    assert context.launchArgs == [Group(newLaunchArgs), Group(startupArgs)];

    var warned := false;
    if remainders != [] {
      warned := true;
      context.launchArgs := context.launchArgs + remainders;
    }
    return Ok(warned);
  }
}
