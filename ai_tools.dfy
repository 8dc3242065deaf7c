/**
  Selection of the AI coding CLI tool and the policy for launching it.

  The process environment is a map from variable name to value, and whether a
  command can be found on the search path is a set of available command names.
  Spawning the tool is reduced to the exit status it reports.
*/
module AiTools {
  import opened Wrappers

  /** The configuration of one AI coding tool. */
  datatype AiTool = AiTool(name: string, command: string, defaultArgs: seq<string>, envVar: string)

  /** The supported tools. */
  datatype AiToolType = OpenCode | QwenCode | Claude

  /** How the launched tool's standard input is wired. */
  datatype StdinMode = Inherit | Null

  /** The order in which tools are tried. */
  const Priority: seq<AiToolType> := [OpenCode, QwenCode, Claude]

  const SkipPermissionsFlag: string := "--dangerously-skip-permissions"

  /** The fixed configuration table. Only Claude has default arguments. */
  function GetConfig(t: AiToolType): (tool: AiTool)
    ensures tool.name != "" && tool.command != "" && tool.envVar != ""
    ensures tool.defaultArgs != [] <==> t == Claude
  {
    match t
    case OpenCode => AiTool("OpenCode", "opencode", [], "XLAUDE_OPENCODE_CMD")
    case QwenCode => AiTool("Qwen Code", "qwen", [], "XLAUDE_QWEN_CMD")
    case Claude => AiTool("Claude", "claude", [SkipPermissionsFlag], "XLAUDE_CLAUDE_CMD")
  }

  /** Different tools never share a name, a command or an override variable. */
  lemma ConfigTableInjective(s: AiToolType, t: AiToolType)
    requires s != t
    ensures GetConfig(s).name != GetConfig(t).name
    ensures GetConfig(s).command != GetConfig(t).command
    ensures GetConfig(s).envVar != GetConfig(t).envVar
  {
  }

  /** The default command of the tool called `name`; "" for a name no tool has. */
  function ToolTypeToDefaultCmd(name: string): (cmd: string)
    ensures forall t :: name == GetConfig(t).name ==> cmd == GetConfig(t).command
    ensures (forall t :: name != GetConfig(t).name) ==> cmd == ""
  {
    match name
    case "OpenCode" => assert name == GetConfig(OpenCode).name; "opencode"
    case "Qwen Code" => assert name == GetConfig(QwenCode).name; "qwen"
    case "Claude" => assert name == GetConfig(Claude).name; "claude"
    case _ => ""
  }

  // ---------------------------------------------------------------------------
  // Selection
  // ---------------------------------------------------------------------------

  /** `env` sets `v` to a non-empty value; an empty value is as good as unset. */
  predicate HasOverride(env: map<string, string>, v: string): (overridden: bool)
    ensures v !in env ==> !overridden
    ensures v in env ==> (overridden <==> |env[v]| > 0)
  {
    v in env && env[v] != ""
  }

  /** Tool `t` may be chosen: its override variable is set, or its command is available. */
  predicate Selectable(t: AiToolType, env: map<string, string>, available: set<string>): (selectable: bool)
    ensures HasOverride(env, GetConfig(t).envVar) ==> selectable
    ensures !HasOverride(env, GetConfig(t).envVar) ==> (selectable <==> GetConfig(t).command in available)
  {
    HasOverride(env, GetConfig(t).envVar) || GetConfig(t).command in available
  }

  /**
    What examining tool `t` yields: its configuration with the command replaced
    by the override, if there is one; otherwise its configuration if the default
    command is available; otherwise nothing.
  */
  function Candidate(t: AiToolType, env: map<string, string>, available: set<string>): (r: Option<AiTool>)
    ensures r.Some? <==> Selectable(t, env, available)
    ensures r.Some? ==> r.value.(command := GetConfig(t).command) == GetConfig(t)
    ensures HasOverride(env, GetConfig(t).envVar) ==> r.Some? && r.value.command == env[GetConfig(t).envVar]
    ensures !HasOverride(env, GetConfig(t).envVar) && r.Some? ==> r.value == GetConfig(t)
  {
    var tool := GetConfig(t);
    if tool.envVar in env && env[tool.envVar] != "" then Some(tool.(command := env[tool.envVar]))
    else if tool.command in available then Some(tool)
    else None
  }

  /** The first tool of `tools` that yields a candidate, or nothing if none does. */
  function FirstAvailable(tools: seq<AiToolType>, env: map<string, string>, available: set<string>): (r: Option<AiTool>)
    ensures r.None? <==> forall i :: 0 <= i < |tools| ==> !Selectable(tools[i], env, available)
  {
    if tools == [] then None
    else match Candidate(tools[0], env, available)
      case Some(tool) => Some(tool)
      case None =>
        var rest := FirstAvailable(tools[1..], env, available);
        assert forall i :: 1 <= i < |tools| ==> tools[i] == tools[1..][i - 1];
        rest
  }

  /** The search over the priority list; an earlier tool is returned as soon as it qualifies. */
  method FindAvailableTool(env: map<string, string>, available: set<string>) returns (r: Option<AiTool>)
    ensures r == FirstAvailable(Priority, env, available)
  {
    var tools := [OpenCode, QwenCode, Claude];
    var i := 0;
    while i < |tools|
      invariant 0 <= i <= |tools|
      invariant FirstAvailable(Priority, env, available) == FirstAvailable(tools[i..], env, available)
    {
      var tool := GetConfig(tools[i]);
      if tool.envVar in env {
        var custom := env[tool.envVar];
        if custom != "" {
          return Some(tool.(command := custom));
        }
      }
      if tool.command in available {
        return Some(tool);
      }
      i := i + 1;
    }
    return None;
  }

  /** The first selectable tool of the list is the one returned. */
  lemma {:induction false} FirstSelectableWins(tools: seq<AiToolType>, env: map<string, string>, available: set<string>, i: nat)
    requires i < |tools| && Selectable(tools[i], env, available)
    requires forall j :: 0 <= j < i ==> !Selectable(tools[j], env, available)
    ensures FirstAvailable(tools, env, available) == Candidate(tools[i], env, available)
  {
    if i > 0 {
      assert !Selectable(tools[0], env, available);
      assert tools[1..][i - 1] == tools[i];
      FirstSelectableWins(tools[1..], env, available, i - 1);
    }
  }

  /** Whatever is returned is the candidate of a selectable tool no later than any selectable tool. */
  lemma {:induction false} ChosenNoLaterThan(tools: seq<AiToolType>, env: map<string, string>, available: set<string>, i: nat)
    requires i < |tools| && Selectable(tools[i], env, available)
    ensures exists k :: 0 <= k <= i && Selectable(tools[k], env, available)
                        && FirstAvailable(tools, env, available) == Candidate(tools[k], env, available)
  {
    if !Selectable(tools[0], env, available) {
      assert i > 0;
      ChosenNoLaterThan(tools[1..], env, available, i - 1);
      var k :| 0 <= k <= i - 1 && Selectable(tools[1..][k], env, available)
               && FirstAvailable(tools[1..], env, available) == Candidate(tools[1..][k], env, available);
      assert tools[1..][k] == tools[k + 1];
    }
  }

  /** In the priority order, a selectable tool always beats every tool after it. */
  lemma EarlierToolWins(env: map<string, string>, available: set<string>, i: nat, j: nat)
    requires i < j < |Priority| && Selectable(Priority[i], env, available)
    ensures FirstAvailable(Priority, env, available).Some?
    ensures FirstAvailable(Priority, env, available).value.name != GetConfig(Priority[j]).name
  {
  }

  /** A variable set to the empty string is treated exactly as if it were unset. */
  lemma {:induction false} EmptyValueIsUnset(tools: seq<AiToolType>, env: map<string, string>, available: set<string>, v: string)
    ensures FirstAvailable(tools, env[v := ""], available) == FirstAvailable(tools, env - {v}, available)
  {
    if tools != [] {
      var e := GetConfig(tools[0]).envVar;
      assert HasOverride(env[v := ""], e) == HasOverride(env - {v}, e);
      assert Candidate(tools[0], env[v := ""], available) == Candidate(tools[0], env - {v}, available);
      EmptyValueIsUnset(tools[1..], env, available, v);
    }
  }

  /** Nothing is found exactly when no tool has a non-empty override and no default command is available. */
  lemma NoneFoundIff(env: map<string, string>, available: set<string>)
    ensures FirstAvailable(Priority, env, available).None? <==>
            forall t :: !HasOverride(env, GetConfig(t).envVar) && GetConfig(t).command !in available
  {
    var none := FirstAvailable(Priority, env, available).None?;
    if none {
      forall t ensures !HasOverride(env, GetConfig(t).envVar) && GetConfig(t).command !in available {
        var i := match t case OpenCode => 0 case QwenCode => 1 case Claude => 2;
        assert Priority[i] == t;
        assert !Selectable(Priority[i], env, available);
      }
    }
  }

  /** With OpenCode's command available and no OpenCode override, OpenCode is chosen as configured. */
  lemma OpenCodePreferred(env: map<string, string>, available: set<string>)
    requires "opencode" in available && !HasOverride(env, "XLAUDE_OPENCODE_CMD")
    ensures FirstAvailable(Priority, env, available) == Some(GetConfig(OpenCode))
  {
  }

  /** Without OpenCode, an available Qwen Code is the fallback. */
  lemma QwenFallback(env: map<string, string>, available: set<string>)
    requires "opencode" !in available && !HasOverride(env, "XLAUDE_OPENCODE_CMD")
    requires "qwen" in available && !HasOverride(env, "XLAUDE_QWEN_CMD")
    ensures FirstAvailable(Priority, env, available) == Some(GetConfig(QwenCode))
  {
  }

  /** A non-empty XLAUDE_OPENCODE_CMD wins over everything and replaces only the command. */
  lemma OpenCodeOverride(env: map<string, string>, available: set<string>)
    requires HasOverride(env, "XLAUDE_OPENCODE_CMD")
    ensures FirstAvailable(Priority, env, available) ==
            Some(GetConfig(OpenCode).(command := env["XLAUDE_OPENCODE_CMD"]))
  {
  }

  // ---------------------------------------------------------------------------
  // Launching
  // ---------------------------------------------------------------------------

  /** The arguments passed on launch: the defaults only when the command is the tool's default one. */
  function LaunchArgs(tool: AiTool): (args: seq<string>)
    ensures forall t :: tool.name == GetConfig(t).name ==>
              args == if tool.command == GetConfig(t).command then tool.defaultArgs else []
    ensures (forall t :: tool.name != GetConfig(t).name) ==>
              args == if tool.command == "" then tool.defaultArgs else []
  {
    if tool.command == ToolTypeToDefaultCmd(tool.name) then tool.defaultArgs else []
  }

  /** A tool run with its configured command gets its default arguments. */
  lemma DefaultCommandGetsDefaultArgs(t: AiToolType)
    ensures LaunchArgs(GetConfig(t)) == GetConfig(t).defaultArgs
  {
  }

  /**
    A selected tool gets its default arguments exactly when its command ended up
    equal to the configured command, whether or not it came from an override.
  */
  lemma CandidateArgs(t: AiToolType, env: map<string, string>, available: set<string>)
    requires Selectable(t, env, available)
    ensures var tool := Candidate(t, env, available).value;
            LaunchArgs(tool) == if tool.command == GetConfig(t).command then GetConfig(t).defaultArgs else []
  {
  }

  /** An overridden Claude command gets no skip-permissions flag unless the override is literally "claude". */
  lemma OverriddenClaudeArgs(custom: string)
    ensures LaunchArgs(GetConfig(Claude).(command := custom)) ==
            if custom == "claude" then [SkipPermissionsFlag] else []
  {
  }

  /** Where the child's standard input comes from. */
  datatype StdinSource = InheritedStdin | NullDevice

  /** What spawning and waiting for the child reports. */
  datatype ExitStatus = SpawnFailed | Exited(success: bool)

  /** Why a launch failed; both carry the tool's name. */
  datatype LaunchError = FailedToLaunch(tool: string) | ExitedWithError(tool: string) {
    function Message(): string {
      match this
      case FailedToLaunch(n) => "Failed to launch " + n
      case ExitedWithError(n) => n + " exited with error"
    }
  }

  /** The result of a launch: success only on a successful exit status. */
  function LaunchOutcome(name: string, status: ExitStatus): (r: Outcome<LaunchError>)
    ensures r.Pass? <==> status == Exited(true)
    ensures r.Fail? ==> r.error.tool == name
    ensures r.Fail? ==> (r.error.FailedToLaunch? <==> status == SpawnFailed)
  {
    match status
    case SpawnFailed => Fail(FailedToLaunch(name))
    case Exited(ok) => if ok then Pass else Fail(ExitedWithError(name))
  }

  /** A process builder: the program, its arguments, its environment and its stdin. */
  class Command {
    const program: string
    var args: seq<string>
    var envs: map<string, string>
    var stdin: StdinSource

    constructor (program: string)
      ensures this.program == program && args == [] && envs == map[] && stdin == InheritedStdin
    {
      this.program := program;
      args := [];
      envs := map[];
      stdin := InheritedStdin;
    }

    /** Appends one argument. */
    method Arg(a: string)
      modifies this
      ensures args == old(args) + [a]
      ensures envs == old(envs) && stdin == old(stdin)
    {
      args := args + [a];
    }

    /** Adds the variables of `vars`, overriding earlier ones with the same name. */
    method Envs(vars: map<string, string>)
      modifies this
      ensures envs == old(envs) + vars
      ensures args == old(args) && stdin == old(stdin)
    {
      envs := envs + vars;
    }

    /** Sets where standard input comes from. */
    method Stdin(s: StdinSource)
      modifies this
      ensures stdin == s
      ensures args == old(args) && envs == old(envs)
    {
      stdin := s;
    }
  }

  /**
    Builds the command for `tool` and runs it; `vars` is the current process
    environment, which the child inherits, and `status` what running it reports.
  */
  method LaunchAiTool(tool: AiTool, mode: StdinMode, vars: map<string, string>, status: ExitStatus)
    returns (cmd: Command, r: Outcome<LaunchError>)
    ensures fresh(cmd)
    ensures cmd.program == tool.command && cmd.args == LaunchArgs(tool) && cmd.envs == vars
    ensures cmd.stdin == (if mode == Null then NullDevice else InheritedStdin)
    ensures r == LaunchOutcome(tool.name, status)
  {
    cmd := new Command(tool.command);
    if tool.command == ToolTypeToDefaultCmd(tool.name) {
      var i := 0;
      while i < |tool.defaultArgs|
        invariant 0 <= i <= |tool.defaultArgs|
        invariant cmd.args == tool.defaultArgs[..i]
        invariant cmd.envs == map[] && cmd.stdin == InheritedStdin
      {
        cmd.Arg(tool.defaultArgs[i]);
        i := i + 1;
      }
    }
    cmd.Envs(vars);
    match mode {
      case Inherit =>
      case Null => cmd.Stdin(NullDevice);
    }
    r := LaunchOutcome(tool.name, status);
  }
}
