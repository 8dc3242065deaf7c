/**
  The registry of managed worktrees as `handle_open` sees it: a map from the
  key "<repository>/<worktree name>" to the worktree's record, held by a state
  object that can write itself back to the state file.
*/
module State {

  /** One managed worktree; `createdAt` is a timestamp supplied by the caller. */
  datatype WorktreeInfo = WorktreeInfo(name: string, branch: string, path: string, repoName: string, createdAt: int)

  class XlaudeState {
    var worktrees: map<string, WorktreeInfo>
    /** What the state file held after the last write. */
    var saved: map<string, WorktreeInfo>

    /** The state as loaded from a state file holding `persisted`. */
    constructor (persisted: map<string, WorktreeInfo>)
      ensures worktrees == persisted && saved == persisted
    {
      worktrees := persisted;
      saved := persisted;
    }

    /** Writes the registry back to the state file. */
    method Save()
      modifies this
      ensures saved == worktrees
      ensures worktrees == old(worktrees)
    {
      saved := worktrees;
    }
  }
}
