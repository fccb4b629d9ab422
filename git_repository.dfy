/** The git repository as the session manager and the commit hook see it:
    branches with their histories, the checked-out branch, the working tree
    and the staging area, and the tags. Each git command the original code
    runs is a method of `Repository`; what a successful command does to the
    repository is a function on `RepoState`. */
module Git {
  import opened Wrappers
  import opened Text

  type Branch = string
  type Path = string

  /** A commit records the staged paths; `id` stands for its hash. */
  datatype Commit = Commit(id: nat, message: string, files: set<Path>)

  datatype RepoState = RepoState(
    history: map<Branch, seq<Commit>>,  // every branch with its commits, oldest first
    head: Branch,                       // the checked-out branch
    worktree: set<Path>,                // changes `git status --porcelain` lists that are not staged
    vanishing: set<Path>,               // those of them that stage to nothing (normalised away)
    staged: set<Path>,                  // paths whose staged content differs from HEAD
    tags: set<string>,
    nextId: nat)

  /** The repository invariant: HEAD names a branch, and every branch has a commit. */
  predicate WellFormed(s: RepoState) {
    s.head in s.history
    && (forall b :: b in s.history ==> s.history[b] != [])
    && s.vanishing <= s.worktree
  }

  /** `git status --porcelain` prints something. */
  predicate Dirty(s: RepoState) {
    s.worktree != {} || s.staged != {}
  }

  /** `git rev-parse --verify <name>` finds a branch or a tag of that name. */
  predicate Resolves(s: RepoState, name: string) {
    name in s.history || name in s.tags
  }

  function HeadCommit(s: RepoState): Commit
    requires WellFormed(s)
  {
    var h := s.history[s.head];
    h[|h| - 1]
  }

  predicate ForbiddenRefChar(c: char) {
    c < ' ' || c == '\U{7F}' || c == ' ' || c == '~' || c == '^' || c == ':'
    || c == '?' || c == '*' || c == '[' || c == '\\'
  }

  /** The rules of `git check-ref-format` that git applies to a new branch or tag name. */
  predicate WellFormedRefName(name: string) {
    name != "" && name != "@"
    && !Contains(name, "..") && !Contains(name, "@{") && !Contains(name, "//") && !Contains(name, "/.")
    && !StartsWith(name, ".") && !StartsWith(name, "-") && !StartsWith(name, "/")
    && !EndsWith(name, ".") && !EndsWith(name, "/") && !EndsWith(name, ".lock")
    && forall i :: 0 <= i < |name| ==> !ForbiddenRefChar(name[i])
  }

  /** `git checkout -b <name>`: a new branch at HEAD's commit becomes HEAD;
      the working tree and the staging area come along. */
  function CreateBranch(s: RepoState, name: Branch): (t: RepoState)
    requires WellFormed(s) && name !in s.history
    ensures WellFormed(t) && t.head == name && HeadCommit(t) == HeadCommit(s)
    ensures t.history.Keys == s.history.Keys + {name}
    ensures forall b :: b in s.history ==> t.history[b] == s.history[b]
  {
    s.(history := s.history[name := s.history[s.head]], head := name)
  }

  /** `git checkout <name>` of an existing branch. */
  function SwitchTo(s: RepoState, name: Branch): (t: RepoState)
    requires WellFormed(s) && name in s.history
    ensures WellFormed(t) && t.head == name && t.history == s.history
    ensures Dirty(t) == Dirty(s)
  {
    s.(head := name)
  }

  /** `git add -A`: every listed change is staged; changes that normalise
      away leave nothing behind. */
  function StageAll(s: RepoState): (t: RepoState)
    requires WellFormed(s)
    ensures WellFormed(t) && t.head == s.head && t.history == s.history
    ensures t.worktree == {} && s.staged <= t.staged
    ensures Dirty(t) <==> t.staged != {}
  {
    s.(staged := s.staged + (s.worktree - s.vanishing), worktree := {}, vanishing := {})
  }

  /** `git reset HEAD <path>`: the path's change goes back to the working tree. */
  function Unstage(s: RepoState, p: Path): (t: RepoState)
    requires WellFormed(s)
    ensures WellFormed(t) && t.head == s.head && t.history == s.history && t.tags == s.tags
    ensures t.staged == s.staged - {p}
    ensures Dirty(t) == Dirty(s)
  {
    if p in s.staged then s.(staged := s.staged - {p}, worktree := s.worktree + {p}) else s
  }

  /** `git reset HEAD` of each path of `ps`: the staged ones leave the index
      and their changes are back in the working tree. */
  function UnstageAll(s: RepoState, ps: set<Path>): (t: RepoState)
    requires WellFormed(s)
    ensures WellFormed(t) && t.head == s.head && t.history == s.history && t.tags == s.tags
    ensures t.staged == s.staged - ps && t.worktree == s.worktree + (s.staged * ps)
  {
    s.(staged := s.staged - ps, worktree := s.worktree + (s.staged * ps))
  }

  /** Resetting no path changes nothing. */
  lemma UnstageNothing(s: RepoState)
    requires WellFormed(s)
    ensures UnstageAll(s, {}) == s
  {
    assert s.staged * {} == {};
  }

  /** Resetting one more path extends the set of reset paths. */
  lemma UnstageStep(s: RepoState, ps: set<Path>, p: Path)
    requires WellFormed(s)
    ensures Unstage(UnstageAll(s, ps), p) == UnstageAll(s, ps + {p})
  {
    var t := UnstageAll(s, ps);
    if p in t.staged {
      assert s.staged * (ps + {p}) == s.staged * ps + {p};
    } else {
      assert s.staged * (ps + {p}) == s.staged * ps;
    }
  }

  /** Writing a file in the working tree (not a git command): the file now
      has a change that `git add -A` will stage. */
  function Write(s: RepoState, p: Path): (t: RepoState)
    requires WellFormed(s)
    ensures WellFormed(t) && t.head == s.head && t.history == s.history && t.tags == s.tags
    ensures t.staged == s.staged && Dirty(t)
    ensures t.worktree - {p} == s.worktree - {p} && t.vanishing - {p} == s.vanishing - {p}
  {
    s.(worktree := s.worktree + {p}, vanishing := s.vanishing - {p})
  }

  /** A written file is among what the next `git add -A` stages. */
  lemma WrittenIsStaged(s: RepoState, p: Path)
    requires WellFormed(s)
    ensures p in StageAll(Write(s, p)).staged
  {
  }

  /** `git commit`: one commit recording the staged paths is added to HEAD's
      branch, and nothing stays staged. */
  function CommitStaged(s: RepoState, message: string): (t: RepoState)
    requires WellFormed(s)
    ensures WellFormed(t) && t.head == s.head && t.staged == {} && t.worktree == s.worktree && t.tags == s.tags
    ensures t.history == s.history[s.head := s.history[s.head] + [HeadCommit(t)]]
    ensures HeadCommit(t) == Commit(s.nextId, message, s.staged)
  {
    var c := Commit(s.nextId, message, s.staged);
    s.(history := s.history[s.head := s.history[s.head] + [c]], staged := {}, nextId := s.nextId + 1)
  }

  /** `git tag -a <name>`. */
  function AddTag(s: RepoState, name: string): (t: RepoState)
    requires WellFormed(s)
    ensures WellFormed(t) && name in t.tags && t.tags - {name} == s.tags - {name}
    ensures t.(tags := s.tags) == s
  {
    s.(tags := s.tags + {name})
  }

  datatype GitError =
    | NotARepository   // the configured path is not a git working tree
    | CommandFailed    // a failure outside this model: a lock file, a hook, an I/O error
    | AlreadyExists
    | BadRefName
    | UnknownBranch
    | NothingToCommit

  datatype CommandResult = Succeeded | Failed(error: GitError)

  /** Whether a command fails for a reason this model does not follow. */
  method Interrupted() returns (fails: bool)
  {
    fails :| true;
  }

  class Repository {
    const isRepo: bool
    var state: RepoState

    ghost predicate Valid()
      reads this
    {
      WellFormed(state)
    }

    constructor (isRepo: bool, initial: RepoState)
      requires WellFormed(initial)
      ensures Valid() && this.isRepo == isRepo && state == initial
    {
      this.isRepo := isRepo;
      state := initial;
    }

    /** `git rev-parse --abbrev-ref HEAD` */
    method CurrentBranch() returns (r: Result<Branch, GitError>)
      requires Valid()
      ensures r.Ok? ==> isRepo && r.value == state.head
      ensures !isRepo ==> r == Err(NotARepository)
    {
      if !isRepo { return Err(NotARepository); }
      var fails := Interrupted();
      if fails { return Err(CommandFailed); }
      return Ok(state.head);
    }

    /** `git rev-parse HEAD` */
    method HeadCommitId() returns (r: Result<nat, GitError>)
      requires Valid()
      ensures r.Ok? ==> isRepo && r.value == HeadCommit(state).id
      ensures !isRepo ==> r == Err(NotARepository)
    {
      if !isRepo { return Err(NotARepository); }
      var fails := Interrupted();
      if fails { return Err(CommandFailed); }
      return Ok(HeadCommit(state).id);
    }

    /** `git rev-parse --show-toplevel` */
    method TopLevel() returns (r: CommandResult)
      requires Valid()
      ensures r.Succeeded? ==> isRepo
      ensures !isRepo ==> r == Failed(NotARepository)
    {
      if !isRepo { return Failed(NotARepository); }
      var fails := Interrupted();
      if fails { return Failed(CommandFailed); }
      return Succeeded;
    }

    /** `git status --porcelain`: whether it prints anything. */
    method Status() returns (r: Result<bool, GitError>)
      requires Valid()
      ensures r.Ok? ==> isRepo && (r.value <==> Dirty(state))
      ensures !isRepo ==> r == Err(NotARepository)
    {
      if !isRepo { return Err(NotARepository); }
      var fails := Interrupted();
      if fails { return Err(CommandFailed); }
      return Ok(Dirty(state));
    }

    /** `git diff --cached --quiet`: whether anything is staged. */
    method HasStagedChanges() returns (r: Result<bool, GitError>)
      requires Valid()
      ensures r.Ok? ==> isRepo && (r.value <==> state.staged != {})
      ensures !isRepo ==> r == Err(NotARepository)
    {
      if !isRepo { return Err(NotARepository); }
      var fails := Interrupted();
      if fails { return Err(CommandFailed); }
      return Ok(state.staged != {});
    }

    /** `git diff --staged --name-only`: each staged path once (git's sorted
        order is not modelled). */
    method StagedNames() returns (r: Result<seq<Path>, GitError>)
      requires Valid()
      ensures r.Ok? ==> isRepo && (forall p :: p in r.value <==> p in state.staged)
      ensures r.Ok? ==> forall i, j :: 0 <= i < j < |r.value| ==> r.value[i] != r.value[j]
      ensures !isRepo ==> r == Err(NotARepository)
    {
      if !isRepo { return Err(NotARepository); }
      var fails := Interrupted();
      if fails { return Err(CommandFailed); }
      var names: seq<Path> := [];
      var rest := state.staged;
      while rest != {}
        invariant rest <= state.staged
        invariant forall p :: p in state.staged <==> p in rest || p in names
        invariant forall p :: p in names ==> p !in rest
        invariant forall i, j :: 0 <= i < j < |names| ==> names[i] != names[j]
        decreases rest
      {
        var p :| p in rest;
        names := names + [p];
        rest := rest - {p};
      }
      return Ok(names);
    }

    /** `git rev-parse --verify <name>` */
    method VerifyRef(name: string) returns (r: CommandResult)
      requires Valid()
      ensures r.Succeeded? ==> isRepo && Resolves(state, name)
      ensures isRepo && !Resolves(state, name) ==> r == Failed(UnknownBranch)
      ensures !isRepo ==> r == Failed(NotARepository)
    {
      if !isRepo { return Failed(NotARepository); }
      if !Resolves(state, name) { return Failed(UnknownBranch); }
      var fails := Interrupted();
      if fails { return Failed(CommandFailed); }
      return Succeeded;
    }

    /** `git checkout -b <name>` */
    method CheckoutNewBranch(name: Branch) returns (r: CommandResult)
      requires Valid()
      modifies this
      ensures Valid()
      ensures r.Succeeded? ==> isRepo && name !in old(state.history) && WellFormedRefName(name)
                               && state == CreateBranch(old(state), name)
      ensures r.Failed? ==> unchanged(this)
      ensures !isRepo || name in old(state.history) || !WellFormedRefName(name) ==> r.Failed?
    {
      if !isRepo { return Failed(NotARepository); }
      if name in state.history { return Failed(AlreadyExists); }
      if !WellFormedRefName(name) { return Failed(BadRefName); }
      var fails := Interrupted();
      if fails { return Failed(CommandFailed); }
      state := CreateBranch(state, name);
      return Succeeded;
    }

    /** `git checkout <name>` */
    method Checkout(name: Branch) returns (r: CommandResult)
      requires Valid()
      modifies this
      ensures Valid()
      ensures r.Succeeded? ==> isRepo && name in old(state.history) && state == SwitchTo(old(state), name)
      ensures r.Failed? ==> unchanged(this)
      ensures !isRepo || name !in old(state.history) ==> r.Failed?
    {
      if !isRepo { return Failed(NotARepository); }
      if name !in state.history { return Failed(UnknownBranch); }
      var fails := Interrupted();
      if fails { return Failed(CommandFailed); }
      state := SwitchTo(state, name);
      return Succeeded;
    }

    /** `git add -A` */
    method AddAll() returns (r: CommandResult)
      requires Valid()
      modifies this
      ensures Valid()
      ensures r.Succeeded? ==> isRepo && state == StageAll(old(state))
      ensures r.Failed? ==> unchanged(this) && (r.error == NotARepository || r.error == CommandFailed)
      ensures !isRepo ==> r.Failed?
    {
      if !isRepo { return Failed(NotARepository); }
      var fails := Interrupted();
      if fails { return Failed(CommandFailed); }
      state := StageAll(state);
      return Succeeded;
    }

    /** `git commit` (with `--allow-empty` when `allowEmpty`) */
    method Commit(message: string, allowEmpty: bool) returns (r: CommandResult)
      requires Valid()
      modifies this
      ensures Valid()
      ensures r.Succeeded? ==> isRepo && (old(state.staged) != {} || allowEmpty)
                               && state == CommitStaged(old(state), message)
      ensures r.Failed? ==> unchanged(this)
      ensures r == Failed(NothingToCommit) <==> isRepo && old(state.staged) == {} && !allowEmpty
      ensures !isRepo ==> r.Failed?
    {
      if !isRepo { return Failed(NotARepository); }
      if state.staged == {} && !allowEmpty { return Failed(NothingToCommit); }
      var fails := Interrupted();
      if fails { return Failed(CommandFailed); }
      state := CommitStaged(state, message);
      return Succeeded;
    }

    /** `git tag -a <name>` (the tag message is not modelled) */
    method Tag(name: string) returns (r: CommandResult)
      requires Valid()
      modifies this
      ensures Valid()
      ensures r.Succeeded? ==> isRepo && name !in old(state.tags) && WellFormedRefName(name)
                               && state == AddTag(old(state), name)
      ensures r.Failed? ==> unchanged(this)
      ensures !isRepo || name in old(state.tags) || !WellFormedRefName(name) ==> r.Failed?
    {
      if !isRepo { return Failed(NotARepository); }
      if name in state.tags { return Failed(AlreadyExists); }
      if !WellFormedRefName(name) { return Failed(BadRefName); }
      var fails := Interrupted();
      if fails { return Failed(CommandFailed); }
      state := AddTag(state, name);
      return Succeeded;
    }

    /** `git reset HEAD <path>` */
    method Reset(p: Path) returns (r: CommandResult)
      requires Valid()
      modifies this
      ensures Valid()
      ensures r.Succeeded? ==> isRepo && state == Unstage(old(state), p)
      ensures r.Failed? ==> unchanged(this)
      ensures !isRepo ==> r.Failed?
    {
      if !isRepo { return Failed(NotARepository); }
      var fails := Interrupted();
      if fails { return Failed(CommandFailed); }
      state := Unstage(state, p);
      return Succeeded;
    }

    /** Writing file `p` in the working tree; this cannot fail here, a
        caller models a failing write by not calling it. */
    method WriteFile(p: Path)
      requires Valid()
      modifies this
      ensures Valid() && state == Write(old(state), p)
    {
      state := Write(state, p);
    }
  }
}
