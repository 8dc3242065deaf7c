/**
  The `open` command: decide which worktree to open, register the current
  worktree if the user agrees, and launch the first available AI tool in it.

  Every question the command asks of git, the terminal, the clock or the
  process environment is answered by a `Surroundings` value; the crate
  functions it calls but that are not modelled here are `Helpers`. The
  iteration order of the worktree map, which the source leaves to the hash
  map, is a sequence `order` listing every key once.
*/
module Open {
  import opened Wrappers
  import opened AiTools
  import opened State

  /** The answers of the command's collaborators for one run. */
  datatype Surroundings = Surroundings(
    inWorktree: bool,          // the current directory is a linked worktree
    onBaseBranch: bool,        // its branch is a base branch (main, master, develop)
    pipedInput: bool,          // standard input is a pipe
    repoName: Option<string>,  // the repository's name; None outside a repository
    currentBranch: string,
    currentDir: string,
    confirmAdd: bool,          // the answer to "add this worktree and open it?"
    selection: Option<nat>,    // the index picked interactively; None when not interactive
    now: int,                  // the current time
    vars: map<string, string>, // the process environment
    available: set<string>,    // the commands found on the search path
    exit: ExitStatus)          // what running the chosen tool reports

  /** Branch-name sanitising, key construction and reading the name argument or piped name. */
  datatype Helpers = Helpers(
    sanitizeBranchName: string -> string,
    makeKey: (string, string) -> string,
    getCommandArg: Option<string> -> Option<string>)

  /** A tool run: which tool, the arguments it got, how its stdin is wired, and the directory it runs in. */
  datatype Launch = Launch(tool: AiTool, args: seq<string>, stdin: StdinMode, dir: string)

  datatype OpenError =
    | NotInGitRepository
    | NoWorktreesFound
    | WorktreeNotFound(name: string)
    | NonInteractiveSelection
    | SelectionOutOfRange(index: nat)
    | NoAiToolsFound
    | ToolFailed(launch: Launch, cause: LaunchError)
  {
    function Message(): string {
      match this
      case NotInGitRepository => "Not in a git repository"
      case NoWorktreesFound => "No worktrees found. Create one first with 'xlaude create'"
      case WorktreeNotFound(n) => "Worktree '" + n + "' not found"
      case NonInteractiveSelection =>
        "Interactive selection not available in non-interactive mode. Please specify a worktree name."
      case SelectionOutOfRange(_) => "index out of bounds"
      case NoAiToolsFound => "No AI coding tools found. Please install OpenCode, Qwen Code, or Claude CLI"
      case ToolFailed(_, e) => e.Message()
    }
  }

  /** How a run of the command ends: a tool was run, the user declined, or an error. */
  datatype OpenResult = Opened(launch: Launch) | Declined | Failed(error: OpenError)

  /** The tool run the command performed, if any (a tool that exits with an error was still run). */
  function Launched(r: OpenResult): Option<Launch> {
    match r
    case Opened(l) => Some(l)
    case Failed(ToolFailed(l, _)) => Some(l)
    case _ => None
  }

  /** XLAUDE_CLAUDE_CMD is set to exactly "true". */
  predicate ClaudeCmdIsTrue(vars: map<string, string>): (isTrue: bool)
    ensures isTrue ==> HasOverride(vars, GetConfig(Claude).envVar) && vars[GetConfig(Claude).envVar] == "true"
    ensures "XLAUDE_CLAUDE_CMD" !in vars ==> !isTrue
  {
    "XLAUDE_CLAUDE_CMD" in vars && vars["XLAUDE_CLAUDE_CMD"] == "true"
  }

  /**
    The command works on the current worktree: no name was given, the current
    directory is a worktree not on a base branch, and piped input does not
    take precedence (it does unless XLAUDE_CLAUDE_CMD is "true").
  */
  predicate UsesCurrentWorktree(name: Option<string>, s: Surroundings): (uses: bool)
    ensures uses ==> name.None? && s.inWorktree && !s.onBaseBranch
    ensures s.pipedInput && !ClaudeCmdIsTrue(s.vars) ==> !uses
    ensures name.None? && s.inWorktree && !s.onBaseBranch && (!s.pipedInput || ClaudeCmdIsTrue(s.vars)) ==> uses
  {
    name.None? && s.inWorktree && !s.onBaseBranch && !(s.pipedInput && !ClaudeCmdIsTrue(s.vars))
  }

  /** The registry key of the current worktree. */
  function CurrentKey(s: Surroundings, h: Helpers): (key: string)
    requires s.repoName.Some?
    ensures key == h.makeKey(CurrentRecord(s, h).repoName, CurrentRecord(s, h).name)
  {
    h.makeKey(s.repoName.value, h.sanitizeBranchName(s.currentBranch))
  }

  /** The record registered for the current worktree. */
  function CurrentRecord(s: Surroundings, h: Helpers): (w: WorktreeInfo)
    requires s.repoName.Some?
    ensures w.name == h.sanitizeBranchName(w.branch) && w.branch == s.currentBranch
    ensures w.path == s.currentDir && w.repoName == s.repoName.value && w.createdAt == s.now
  {
    WorktreeInfo(h.sanitizeBranchName(s.currentBranch), s.currentBranch, s.currentDir, s.repoName.value, s.now)
  }

  /** Stdin is detached exactly when input is piped (the pipe has been drained). */
  function StdinModeFor(piped: bool): (mode: StdinMode)
    ensures mode == Null <==> piped
  {
    if piped then Null else Inherit
  }

  /**
    What launching a tool in `dir` ends in: the first available tool in
    priority order is run there, and the command fails if there is none or
    if it does not exit successfully.
  */
  function LaunchIn(dir: string, s: Surroundings): (r: OpenResult)
    ensures r == Failed(NoAiToolsFound) <==>
            forall t :: !HasOverride(s.vars, GetConfig(t).envVar) && GetConfig(t).command !in s.available
    ensures r.Opened? <==> FirstAvailable(Priority, s.vars, s.available).Some? && s.exit == Exited(true)
    ensures Launched(r).Some? <==> FirstAvailable(Priority, s.vars, s.available).Some?
    ensures Launched(r).Some? ==>
              var tool := FirstAvailable(Priority, s.vars, s.available).value;
              Launched(r).value == Launch(tool, LaunchArgs(tool), StdinModeFor(s.pipedInput), dir)
    ensures r.Failed? && r.error.ToolFailed? ==>
              r.error.cause == LaunchOutcome(r.error.launch.tool.name, s.exit).error
  {
    NoneFoundIff(s.vars, s.available);
    match FirstAvailable(Priority, s.vars, s.available)
    case None => Failed(NoAiToolsFound)
    case Some(tool) =>
      var l := Launch(tool, LaunchArgs(tool), StdinModeFor(s.pipedInput), dir);
      match LaunchOutcome(tool.name, s.exit)
      case Pass => Opened(l)
      case Fail(e) => Failed(ToolFailed(l, e))
  }

  /** Finds the first available tool and runs it in `dir`. */
  method LaunchFirstTool(dir: string, s: Surroundings) returns (r: OpenResult)
    ensures r == LaunchIn(dir, s)
  {
    var mode := StdinModeFor(s.pipedInput);
    var found := FindAvailableTool(s.vars, s.available);
    match found {
      case None =>
        r := Failed(NoAiToolsFound);
      case Some(tool) =>
        var cmd, outcome := LaunchAiTool(tool, mode, s.vars, s.exit);
        var l := Launch(tool, cmd.args, mode, dir);
        r := if outcome.Pass? then Opened(l) else Failed(ToolFailed(l, outcome.error));
    }
  }

  // ---------------------------------------------------------------------------
  // Choosing a worktree from the registry
  // ---------------------------------------------------------------------------

  /** `order` lists every key of `keys` exactly once. */
  ghost predicate Enumerates(order: seq<string>, keys: set<string>) {
    && (forall i, j :: 0 <= i < j < |order| ==> order[i] != order[j])
    && (forall k :: k in keys <==> k in order)
  }

  /** A registry enumerated by `order` has as many entries as `order` has keys. */
  lemma {:induction false} EnumeratedCount(order: seq<string>, keys: set<string>)
    requires Enumerates(order, keys)
    ensures |keys| == |order|
  {
    if order != [] {
      var rest := keys - {order[0]};
      forall k ensures k in rest <==> k in order[1..] {
        if k in order[1..] {
          var j :| 0 <= j < |order[1..]| && order[1..][j] == k;
          assert order[j + 1] == k;
        }
        if k in rest {
          var j :| 0 <= j < |order| && order[j] == k;
          assert j != 0;
          assert order[1..][j - 1] == k;
        }
      }
      EnumeratedCount(order[1..], rest);
    }
  }

  /**
    The first worktree in iteration order whose `name` field is `n`, with its
    key. The key itself is never compared with `n`.
  */
  function FindByName(order: seq<string>, worktrees: map<string, WorktreeInfo>, n: string)
    : (r: Option<(string, WorktreeInfo)>)
    requires forall k :: k in order ==> k in worktrees
    ensures r.Some? ==> r.value.0 in order && worktrees[r.value.0] == r.value.1 && r.value.1.name == n
    ensures r.None? <==> forall k :: k in order ==> worktrees[k].name != n
  {
    if order == [] then None
    else if worktrees[order[0]].name == n then Some((order[0], worktrees[order[0]]))
    else
      var rest := FindByName(order[1..], worktrees, n);
      assert forall k :: k in order ==> k == order[0] || k in order[1..];
      rest
  }

  /** Among several worktrees with the same name, the one met first in iteration order is chosen. */
  lemma {:induction false} FindByNameTakesFirstMatch(order: seq<string>, worktrees: map<string, WorktreeInfo>, n: string, i: nat)
    requires forall k :: k in order ==> k in worktrees
    requires i < |order| && worktrees[order[i]].name == n
    requires forall j :: 0 <= j < i ==> worktrees[order[j]].name != n
    ensures FindByName(order, worktrees, n) == Some((order[i], worktrees[order[i]]))
  {
    if i > 0 {
      assert worktrees[order[0]].name != n;
      assert order[1..][i - 1] == order[i];
      FindByNameTakesFirstMatch(order[1..], worktrees, n, i - 1);
    }
  }

  /** Over a whole registry, lookup by name fails exactly when no worktree of any repository has that name. */
  lemma NameLookupFailsIff(order: seq<string>, worktrees: map<string, WorktreeInfo>, n: string)
    requires Enumerates(order, worktrees.Keys)
    ensures FindByName(order, worktrees, n).None? <==> forall k :: k in worktrees ==> worktrees[k].name != n
  {
  }

  /** The registry's (key, record) pairs in iteration order, as offered for interactive selection. */
  function WorktreeList(order: seq<string>, worktrees: map<string, WorktreeInfo>)
    : (list: seq<(string, WorktreeInfo)>)
    requires forall k :: k in order ==> k in worktrees
    ensures |list| == |order|
    ensures forall i :: 0 <= i < |list| ==> list[i].0 == order[i] && list[i].1 == worktrees[order[i]]
  {
    if order == [] then []
    else [(order[0], worktrees[order[0]])] + WorktreeList(order[1..], worktrees)
  }

  /** The selection list holds exactly the registry's entries, each once. */
  lemma WorktreeListIsRegistry(order: seq<string>, worktrees: map<string, WorktreeInfo>)
    requires Enumerates(order, worktrees.Keys)
    ensures |WorktreeList(order, worktrees)| == |worktrees|
    ensures forall k :: k in worktrees ==> (k, worktrees[k]) in WorktreeList(order, worktrees)
    ensures forall p :: p in WorktreeList(order, worktrees) ==> p.0 in worktrees && worktrees[p.0] == p.1
  {
    EnumeratedCount(order, worktrees.Keys);
    var list := WorktreeList(order, worktrees);
    forall k | k in worktrees ensures (k, worktrees[k]) in list {
      var i :| 0 <= i < |order| && order[i] == k;
      assert list[i] == (k, worktrees[k]);
    }
  }

  // ---------------------------------------------------------------------------
  // The command
  // ---------------------------------------------------------------------------

  method HandleOpen(state: XlaudeState, name: Option<string>, s: Surroundings, h: Helpers, order: seq<string>)
    returns (r: OpenResult)
    requires Enumerates(order, state.worktrees.Keys)
    modifies state
    // The current worktree: opened if registered, registered first if the user agrees.
    ensures UsesCurrentWorktree(name, s) && s.repoName.None? ==>
              r == Failed(NotInGitRepository) && unchanged(state)
    ensures UsesCurrentWorktree(name, s) && s.repoName.Some? && CurrentKey(s, h) in old(state.worktrees) ==>
              unchanged(state) && r == LaunchIn(s.currentDir, s)
    ensures UsesCurrentWorktree(name, s) && s.repoName.Some? && CurrentKey(s, h) !in old(state.worktrees) ==>
              if s.confirmAdd then
                && state.worktrees == old(state.worktrees)[CurrentKey(s, h) := CurrentRecord(s, h)]
                && state.saved == state.worktrees
                && r == LaunchIn(s.currentDir, s)
              else
                unchanged(state) && r == Declined
    // Otherwise the registry is only read.
    ensures !UsesCurrentWorktree(name, s) ==> unchanged(state)
    ensures !UsesCurrentWorktree(name, s) && old(state.worktrees) == map[] ==> r == Failed(NoWorktreesFound)
    ensures !UsesCurrentWorktree(name, s) && old(state.worktrees) != map[] && h.getCommandArg(name).Some? ==>
              var n := h.getCommandArg(name).value;
              match FindByName(order, old(state.worktrees), n)
              case None => r == Failed(WorktreeNotFound(n))
              case Some(found) => r == LaunchIn(found.1.path, s)
    ensures !UsesCurrentWorktree(name, s) && old(state.worktrees) != map[] && h.getCommandArg(name).None? ==>
              match s.selection
              case None => r == Failed(NonInteractiveSelection)
              case Some(idx) =>
                if idx < |order| then r == LaunchIn(WorktreeList(order, old(state.worktrees))[idx].1.path, s)
                else r == Failed(SelectionOutOfRange(idx))
  {
    if name.None? && s.inWorktree && !s.onBaseBranch {
      if s.pipedInput && !ClaudeCmdIsTrue(s.vars) {
        // Piped input takes precedence over the current worktree.
      } else {
        if s.repoName.None? {
          return Failed(NotInGitRepository);
        }
        var repoName := s.repoName.value;
        var worktreeName := h.sanitizeBranchName(s.currentBranch);
        var key := h.makeKey(repoName, worktreeName);
        if key !in state.worktrees {
          if !s.confirmAdd {
            return Declined;
          }
          state.worktrees := state.worktrees[key := WorktreeInfo(worktreeName, s.currentBranch, s.currentDir, repoName, s.now)];
          state.Save();
        }
        r := LaunchFirstTool(s.currentDir, s);
        return;
      }
    }

    if |state.worktrees| == 0 {
      return Failed(NoWorktreesFound);
    }

    var targetName := h.getCommandArg(name);
    var selected: WorktreeInfo;
    if targetName.Some? {
      var found := FindByName(order, state.worktrees, targetName.value);
      if found.None? {
        return Failed(WorktreeNotFound(targetName.value));
      }
      selected := found.value.1;
    } else {
      var worktreeList := WorktreeList(order, state.worktrees);
      match s.selection {
        case None =>
          return Failed(NonInteractiveSelection);
        case Some(idx) =>
          if idx >= |worktreeList| {
            return Failed(SelectionOutOfRange(idx));
          }
          selected := worktreeList[idx].1;
      }
    }
    r := LaunchFirstTool(selected.path, s);
  }
}
