# xlaude `open` and AI-tool selection, modelled in Dafny

This project models two pieces of decision logic from xlaude, a tool that
manages git worktrees and opens an AI coding assistant in them.

- **AI-tool selection and launch** (`ai_tools.dfy`, module `AiTools`). A fixed
  table gives each tool kind (OpenCode, Qwen Code, Claude) a name, a command,
  default arguments and an override variable. The tools are tried in that
  order. A tool is chosen when its override variable is set to a non-empty
  value (the value then replaces only the command), or else when its default
  command is available. On launch the default arguments are passed only if the
  command is the tool's default command. The launched child inherits the
  environment. Its stdin is either inherited or null. The launch succeeds only
  on a successful exit status. The process environment is a
  `map<string, string>`. Command availability is a `set<string>` of the
  commands found on the search path. The process builder is a `Command` class,
  filled in step by step.
- **The `open` command** (`open.dfy`, module `Open`; the registry in
  `state.dfy`, module `State`). The registry is a map from key to worktree
  record, held by a state object. The current worktree is used when no
  name is given, the current directory is a worktree whose branch is not a
  base branch, and input is not piped unless XLAUDE_CLAUDE_CMD is "true". If
  that worktree is managed, it is opened without touching the registry. If it
  is not managed, the user is asked first. On yes, exactly one record is inserted under the current key and the
  state is saved. On no, the command ends with nothing changed. Otherwise:
  - an empty registry is an error;
  - a name is looked up by the records' `name` field across all repositories;
  - with no name, an interactively chosen index selects from the list of all
    entries.

  The chosen worktree's path is where the first available tool is launched.

Everything the command asks of git, the terminal, the clock and the process
environment comes from one `Surroundings` value. The crate functions it calls
that are not modelled are passed in as `Helpers`:
`sanitize_branch_name`, `XlaudeState::make_key` and `get_command_arg`. The
hash map's iteration order is a sequence `order` that lists every key once.

## Model

| member | source | states |
|---|---|---|
| `AiTools.GetConfig` | src/ai_tools.rs:26-47 | every tool has a non-empty name, command and override variable; only Claude has default arguments |
| `AiTools.ConfigTableInjective` | src/ai_tools.rs:26-47 | two different tool kinds never share a name, a command or an override variable |
| `AiTools.ToolTypeToDefaultCmd` | src/ai_tools.rs:145-151 | agrees with the table: the name of tool k maps to k's command; a name no tool has maps to "" |
| `AiTools.HasOverride` | src/ai_tools.rs:92-93 | a variable counts as an override only when it is set and its value is non-empty; unset or empty means no override |
| `AiTools.Selectable` | src/ai_tools.rs:92-104 | a tool with an override can always be chosen; without one, it can be chosen exactly when its default command is available |
| `AiTools.Candidate` | src/ai_tools.rs:89-104 | one tool is examined. It yields a result iff it has a non-empty override or an available command. A non-empty override wins over availability and replaces only the command, so name, args and variable stay as configured. With no override the result is the configuration itself |
| `AiTools.FirstAvailable` | src/ai_tools.rs:72-107 | the search yields nothing exactly when no tool in the list is selectable |
| `AiTools.FindAvailableTool` | src/ai_tools.rs:80-108 | the loop with early return over OpenCode, Qwen Code, Claude returns exactly the first candidate of the priority list |
| `AiTools.FirstSelectableWins` | src/ai_tools.rs:88-105 | if tool i is selectable and no earlier tool is, the search returns tool i's candidate |
| `AiTools.ChosenNoLaterThan` | src/ai_tools.rs:88-105 | whenever tool i is selectable, the result is the candidate of some selectable tool at or before i |
| `AiTools.EarlierToolWins` | src/ai_tools.rs:72-86 | in the priority order, a selectable tool always beats every later tool: the result never carries a later tool's name |
| `AiTools.EmptyValueIsUnset` | src/ai_tools.rs:92-93 | setting any variable to "" gives the same selection as leaving it unset |
| `AiTools.NoneFoundIff` | src/ai_tools.rs:72-107 | None is returned iff no tool kind has a non-empty override or an available default command |
| `AiTools.OpenCodePreferred` | tests/ai_tools_test.rs:119-149 | with `opencode` available and no OpenCode override, OpenCode is chosen as configured |
| `AiTools.QwenFallback` | tests/ai_tools_test.rs:151-183 | with OpenCode neither overridden nor available and `qwen` available, Qwen Code is chosen |
| `AiTools.OpenCodeOverride` | tests/ai_tools_test.rs:185-219 | a non-empty XLAUDE_OPENCODE_CMD is used as OpenCode's command, whatever is available |
| `AiTools.LaunchArgs` | src/ai_tools.rs:114-119 | the default arguments exactly when `command == ToolTypeToDefaultCmd(name)`, otherwise none. Stated through the table: for a table name, the defaults iff the command is that tool's command. For any other name, the defaults only when the command is "" |
| `AiTools.DefaultCommandGetsDefaultArgs` | src/ai_tools.rs:114-119 | a tool run with its configured command gets exactly its default arguments |
| `AiTools.CandidateArgs` | src/ai_tools.rs:114-119 | a selected tool gets its default arguments iff its command equals the configured one, and no arguments otherwise |
| `AiTools.OverriddenClaudeArgs` | src/ai_tools.rs:114-119 | an overridden Claude command gets no `--dangerously-skip-permissions` unless the override is literally "claude" |
| `AiTools.LaunchOutcome` | src/ai_tools.rs:134-141 | a launch succeeds iff the process started and exited successfully. A failure names the tool and tells a failed start apart from an unsuccessful exit |
| `AiTools.LaunchAiTool` | src/ai_tools.rs:110-142 | the built command runs the tool's command with exactly the launch arguments and the inherited environment. Stdin is null for `Null` and left inherited for `Inherit`. The result is the launch outcome |
| `Open.ClaudeCmdIsTrue` | src/commands/open.rs:20 | true only when XLAUDE_CLAUDE_CMD is set to exactly "true", which also makes it a non-empty Claude override |
| `Open.UsesCurrentWorktree` | src/commands/open.rs:17-21 | the current worktree is used only when no name is given and the directory is a worktree not on a base branch. Piped input disables it unless XLAUDE_CLAUDE_CMD is "true"; otherwise, with those conditions met, it is used |
| `Open.CurrentKey` | src/commands/open.rs:24-32 | the lookup key is `make_key` of the repository name and the sanitized current branch, that is, of the record's own repository and name |
| `Open.CurrentRecord` | src/commands/open.rs:73-81 | the inserted record has the sanitized branch as name, the raw current branch as branch, the current directory as path, the repository name, and the given time as creation time |
| `Open.StdinModeFor` | src/commands/open.rs:162-168 | the stdin mode is `Null` exactly when input is piped |
| `Open.LaunchIn` | src/commands/open.rs:170-176 | "No AI coding tools found" happens iff no tool is selectable. Otherwise the first tool in priority order is run in the given directory, with its launch arguments and the piped-input stdin mode. The command succeeds iff that tool exits successfully. A failure carries the launch error that names the tool and tells a failed start from an unsuccessful exit |
| `Open.LaunchFirstTool` | src/commands/open.rs:170-176 | finding a tool and launching it behaves as `LaunchIn` specifies |
| `Open.FindByName` | src/commands/open.rs:122-129 | a found entry is in the registry and its `name` field is the target. Nothing is found iff no listed entry has that name |
| `Open.FindByNameTakesFirstMatch` | src/commands/open.rs:124-128 | among several entries with the name, the first in iteration order is the one chosen |
| `Open.NameLookupFailsIff` | src/commands/open.rs:122-129 | over the whole registry, lookup fails iff no worktree of any repository has the name |
| `Open.WorktreeList` | src/commands/open.rs:132-136 | the list follows the iteration order, and each element pairs a key with that key's record |
| `Open.WorktreeListIsRegistry` | src/commands/open.rs:132-147 | the selection list has as many elements as the registry, contains every (key, record) entry and nothing else |
| `Open.EnumeratedCount` | src/commands/open.rs:132-136 | an iteration order that lists every key once has as many elements as the registry has keys |
| `Open.HandleOpen` | src/commands/open.rs:11-179 | see the list below this table |

`Open.HandleOpen`'s contract states each of these:

- On the current-worktree path, a registered key leaves the registry and the
  state file unchanged and launches in the current directory.
- An unregistered key that the user declines ends with `Declined` and nothing
  changed.
- An unregistered key that the user confirms inserts exactly the current
  record under the current key, then saves, then launches.
- Off that path, the registry is never changed.
- Off that path, an empty registry gives "No worktrees found", whatever name
  was given.
- A name that no entry has gives "Worktree 'n' not found". A name that an
  entry has launches in that entry's path.
- An index selects that element of the selection list. No index gives the
  non-interactive error.

## Left out

- `is_command_available` shells out to `which`/`where`. It is the set `available` of commands found on the search path.
- `env::var` is the map `vars`. A variable whose value is not valid Unicode cannot occur in the model. `env::var` treats such a variable as unset, but `cmd.envs(env::vars())` panics on it and aborts the launch; that panic is not modelled either.
- Process spawning is reduced to an `ExitStatus` input. Running the child, its output and signals are not modelled.
- `launch_ai_tool_with_path`, which `open` calls, is not part of this model. The launch it performs is modelled as `LaunchAiTool`, with the target directory recorded in the `Launch` value.
- `XlaudeState::load` and `XlaudeState::save` do file I/O and are not part of this model. The state object is built from an already loaded map, and `Save` records what is written. Load and save failures are not modelled.
- `sanitize_branch_name`, `XlaudeState::make_key` and `get_command_arg` are not part of this model. They are uninterpreted function parameters, so the key format is not fixed here.
- The git helpers (`is_in_worktree`, `is_base_branch`, `get_current_branch`) and `std::env::current_dir` are given as plain answers. Their own failures (`?` on those calls) are not modelled. `get_repo_name` failing is modelled as the "Not in a git repository" error.
- The terminal interactions `smart_confirm`, `smart_select`, `is_piped_input` and `drain_stdin` are given as answers, and their I/O failures are not modelled. Neither is the failure of `get_command_arg` while it reads a piped name. Draining the pipe is not modelled.
- `std::env::set_current_dir` is not modelled, and neither is its failure. The directory appears only as the launch directory.
- `Utc::now()` is the `now` input.
- Coloured and emoji output is not modelled.
- `Open.HandleOpen`: an interactive index outside the list is indexing out of bounds in the source, which panics. The model reports it as the `SelectionOutOfRange` error instead of aborting the process.
