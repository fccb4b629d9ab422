/** The session manager hardware component (git_session_manager_hw.py): its
    settings become fields, its operations methods that run git commands on
    a `Repository`. An operation either completes or raises; a raised
    `ValueError` and a git command that fails with `check=True` are both
    `Raised`. */
module SessionManager {
  import opened Wrappers
  import opened Text
  import opened SessionNaming
  import opened Git

  datatype SessionError =
    | SessionAlreadyActive              // start while a session is active
    | BranchAlreadyExists(name: string) // the generated branch name resolves already
    | NoActiveSession                   // end or commit without an active session
    | NoParentBranch                    // return before any session was started
    | UncommittedChanges                // return while the tree is known to be dirty
    | GitCommandFailed(cause: GitError)

  datatype Outcome = Completed | Raised(error: SessionError)

  /** The renderings of the current time one operation uses: `%y%m%d-%H%M%S`
      for a default session name, `%Y%m%d-%H%M%S` for the start tag and
      `%Y-%m-%d %H:%M:%S` for commit messages. */
  datatype Clock = Clock(branchStamp: string, tagStamp: string, display: string)

  /** The `except CalledProcessError` around the commit calls: a failure
      that says there was nothing to commit is not an error. */
  function Handled(c: CommandResult): (out: Outcome)
    ensures out.Completed? <==> c.Succeeded? || c.error == NothingToCommit
    ensures out.Raised? ==> out.error == GitCommandFailed(c.error)
  {
    if c.Succeeded? || c.error == NothingToCommit then Completed else Raised(GitCommandFailed(c.error))
  }

  /** What `commit_initial_session_state` may leave behind in `s`: on a tree
      reported clean, an empty-allowed commit with the start message; on a
      dirty tree, everything staged and committed with the initial-state
      message, or only staged when nothing stayed to commit (or the second
      status query printed nothing). */
  ghost predicate InitialCommitMade(s: RepoState, t: RepoState, sessionName: string, branch: string, stamp: string)
    requires WellFormed(s)
  {
    t == CommitStaged(s, StartMessage(sessionName, branch, stamp))
    || (Dirty(s) && (t == StageAll(s)
                     || (Dirty(StageAll(s)) && t == CommitStaged(StageAll(s), InitialStateMessage(sessionName, branch, stamp)))))
  }

  /** The repository after a completed `start_experimental_session`: the
      branch was created from HEAD, the initial commit made on it, and the
      start tag added unless tagging failed. */
  ghost predicate SessionStarted(before: RepoState, after: RepoState, sessionName: string, branch: string, clock: Clock)
    requires WellFormed(before) && branch !in before.history
  {
    SetUpFrom(CreateBranch(before, branch), after, sessionName, branch, clock)
  }

  /** The initial commit was made on `created` and the start tag added unless
      tagging failed. */
  ghost predicate SetUpFrom(created: RepoState, after: RepoState, sessionName: string, branch: string, clock: Clock)
    requires WellFormed(created)
  {
    var tag := SessionTagName(sessionName, clock.tagStamp);
    InitialCommitMade(created, after.(tags := created.tags), sessionName, branch, clock.display)
    && (after.tags == created.tags || (tag !in created.tags && after.tags == created.tags + {tag}))
  }

  /** A completed start leaves every existing branch as it was, checks out the
      new branch, and extends the parent's history by at most one commit. On
      a clean tree that commit is the empty start commit and the tree stays clean. */
  lemma SessionStartedShape(before: RepoState, after: RepoState, sessionName: string, branch: string, clock: Clock)
    requires WellFormed(before) && branch !in before.history
    requires SessionStarted(before, after, sessionName, branch, clock)
    ensures WellFormed(after) && after.head == branch
    ensures after.history.Keys == before.history.Keys + {branch}
    ensures forall b :: b in before.history ==> after.history[b] == before.history[b]
    ensures var parent := before.history[before.head];
      |parent| <= |after.history[branch]| <= |parent| + 1 && after.history[branch][..|parent|] == parent
    ensures !Dirty(before) ==>
      after.history[branch] == before.history[before.head] + [Commit(before.nextId, StartMessage(sessionName, branch, clock.display), {})]
      && !Dirty(after)
  {
    var created := CreateBranch(before, branch);
    var mid := after.(tags := created.tags);
    var parent := before.history[before.head];
    assert WellFormed(mid);
    assert after == mid.(tags := after.tags);
    assert mid.history[branch][..|parent|] == parent;
  }

  /** The repository after a completed session commit: everything staged,
      then committed with `message` unless nothing was left to commit. */
  ghost predicate SessionCommitMade(s: RepoState, t: RepoState, message: string)
    requires WellFormed(s)
  {
    t == CommitStaged(StageAll(s), message) || (StageAll(s).staged == {} && t == StageAll(s))
  }

  /** After a completed session commit the tree is clean, and every change
      that was listed and did not normalise away is in the branch's last commit. */
  lemma SessionCommitMadeCleans(s: RepoState, t: RepoState, message: string)
    requires WellFormed(s) && SessionCommitMade(s, t, message)
    ensures WellFormed(t) && !Dirty(t) && t.head == s.head
    ensures forall b :: b in s.history && b != s.head ==> t.history[b] == s.history[b]
    ensures s.staged + (s.worktree - s.vanishing) != {} ==>
      |t.history[s.head]| == |s.history[s.head]| + 1
      && HeadCommit(t) == Commit(s.nextId, message, s.staged + (s.worktree - s.vanishing))
  {
  }

  class GitSessionManager {
    var sessionName: string
    var sessionPrefix: string
    var currentBranch: string
    var currentCommit: Option<nat>      // `current_commit_hash`; None while it is ""
    var sessionActive: bool
    var sessionBranch: string
    var parentBranch: string
    var hasUncommittedChanges: bool
    var sessionEnded: bool
    const repo: Repository              // the repository at `repo_path`

    ghost predicate Valid()
      reads this, repo
    {
      repo.Valid()
    }

    /** `setup`: every setting at its initial value. */
    constructor (repo: Repository)
      requires repo.Valid()
      ensures Valid() && this.repo == repo
      ensures sessionName == "" && sessionPrefix == "exp"
      ensures currentBranch == "" && currentCommit == None && !hasUncommittedChanges
      ensures !sessionActive && sessionBranch == "" && parentBranch == "" && !sessionEnded
    {
      this.repo := repo;
      sessionName := "";
      sessionPrefix := "exp";
      currentBranch := "";
      currentCommit := None;
      sessionActive := false;
      sessionBranch := "";
      parentBranch := "";
      hasUncommittedChanges := false;
      sessionEnded := false;
    }

    /** The status settings agree with the repository, as a refresh in which
        every query succeeds leaves them. */
    ghost predicate InSync()
      reads this, repo
      requires Valid()
    {
      var onSession := IsSessionBranch(sessionPrefix, repo.state.head);
      currentBranch == repo.state.head
      && currentCommit == Some(HeadCommit(repo.state).id)
      && hasUncommittedChanges == Dirty(repo.state)
      && sessionActive == (onSession && !sessionEnded)
      && sessionBranch == (if onSession then currentBranch else "")
      && (!onSession ==> !sessionEnded)
    }

    /** The branch `generate_session_branch_name` produces from the settings. */
    function PendingBranch(clock: Clock): string
      reads this
    {
      SessionBranchName(sessionPrefix, sessionName, clock.branchStamp)
    }

    /** `refresh_git_status`. The three queries run in order and the first
        failure ends the refresh (it is logged, never raised): either all
        settings are in sync with the repository, or the session settings are
        untouched and each status setting holds its old or its new value. */
    method Refresh()
      requires Valid()
      modifies this
      ensures Valid()
      ensures unchanged(this`sessionName, this`sessionPrefix, this`parentBranch)
      ensures !repo.isRepo ==> unchanged(this)
      ensures (InSync() && sessionEnded == (old(sessionEnded) && IsSessionBranch(sessionPrefix, repo.state.head)))
           || (unchanged(this`sessionActive, this`sessionBranch, this`sessionEnded)
               && (currentBranch == old(currentBranch) || currentBranch == repo.state.head)
               && (currentCommit == old(currentCommit) || currentCommit == Some(HeadCommit(repo.state).id))
               && hasUncommittedChanges == old(hasUncommittedChanges))
    {
      var branch := repo.CurrentBranch();
      if branch.Err? { return; }
      currentBranch := branch.value;
      var commit := repo.HeadCommitId();
      if commit.Err? { return; }
      currentCommit := Some(commit.value);
      var status := repo.Status();
      if status.Err? { return; }
      hasUncommittedChanges := status.value;
      var onSession := IsSessionBranch(sessionPrefix, currentBranch);
      sessionActive := onSession && !sessionEnded;
      if onSession {
        sessionBranch := currentBranch;
      } else {
        sessionBranch := "";
        sessionEnded := false;
      }
    }

    /** `commit_initial_session_state` */
    method CommitInitialState(branch: string, stamp: string) returns (out: Outcome)
      requires Valid()
      modifies repo
      ensures Valid()
      ensures repo.state.head == old(repo.state.head) && repo.state.tags == old(repo.state.tags)
      ensures out.Completed? ==> InitialCommitMade(old(repo.state), repo.state, sessionName, branch, stamp)
      ensures out.Raised? ==>
        out.error.GitCommandFailed? && (repo.state == old(repo.state) || repo.state == StageAll(old(repo.state)))
    {
      var status := repo.Status();
      // run with check=False: a failed query prints nothing
      var listed := status.Ok? && status.value;
      if !listed {
        var committed := repo.Commit(StartMessage(sessionName, branch, stamp), true);
        return Handled(committed);
      }
      var added := repo.AddAll();
      if added.Failed? {
        return Handled(added);
      }
      // `git diff --cached --quiet` runs too; its result is not consulted
      var _ := repo.HasStagedChanges();
      var recheck := repo.Status();
      if !(recheck.Ok? && recheck.value) {
        return Completed;
      }
      var committed := repo.Commit(InitialStateMessage(sessionName, branch, stamp), false);
      return Handled(committed);
    }

    /** `create_session_tag`: a failure is logged and swallowed. */
    method CreateSessionTag(tagStamp: string)
      requires Valid()
      modifies repo
      ensures Valid()
      ensures repo.state == old(repo.state)
           || (SessionTagName(sessionName, tagStamp) !in old(repo.state.tags)
               && repo.state == AddTag(old(repo.state), SessionTagName(sessionName, tagStamp)))
    {
      var _ := repo.Tag(SessionTagName(sessionName, tagStamp));
    }

    /** What `start_experimental_session` does once the new branch is checked
        out: clear the ended flag, make the initial commit, tag the start and
        refresh. */
    method SetUpSession(branch: string, clock: Clock) returns (out: Outcome)
      requires Valid() && repo.state.head == branch && IsSessionBranch(sessionPrefix, branch)
      modifies this, repo
      ensures Valid()
      ensures unchanged(this`sessionName, this`sessionPrefix, this`parentBranch)
      ensures repo.state.head == branch && !sessionEnded
      ensures out.Raised? ==>
        out.error.GitCommandFailed?
        && unchanged(this`currentBranch, this`currentCommit, this`sessionActive, this`sessionBranch, this`hasUncommittedChanges)
      ensures out.Completed? ==> SetUpFrom(old(repo.state), repo.state, sessionName, branch, clock)
      ensures out.Completed? && InSync() ==> sessionActive && currentBranch == branch && sessionBranch == branch
    {
      sessionEnded := false;
      ghost var created := repo.state;
      out := CommitInitialState(branch, clock.display);
      if out.Raised? {
        return;
      }
      ghost var committed := repo.state;
      CreateSessionTag(clock.tagStamp);
      assert repo.state.(tags := created.tags) == committed;
      Refresh();
    }

    /** `start_experimental_session` */
    method StartSession(clock: Clock) returns (out: Outcome)
      requires Valid()
      modifies this, repo
      ensures Valid()
      ensures unchanged(this`sessionName, this`sessionPrefix)
      ensures old(sessionActive) ==> out == Raised(SessionAlreadyActive) && unchanged(this) && unchanged(repo)
      ensures !old(sessionActive) ==> parentBranch == old(currentBranch)
      ensures !old(sessionActive) && PendingBranch(clock) in old(repo.state.history) ==> out.Raised? && unchanged(repo)
      ensures out.Raised? && out.error.BranchAlreadyExists? ==>
        out.error.name == PendingBranch(clock) && Resolves(old(repo.state), out.error.name)
      ensures out.Raised? ==>
        unchanged(this`currentBranch, this`currentCommit, this`sessionActive, this`sessionBranch, this`hasUncommittedChanges)
        && (repo.state == old(repo.state)
            || (PendingBranch(clock) !in old(repo.state.history) && repo.state.head == PendingBranch(clock) && !sessionEnded))
      ensures out.Completed? ==>
        !old(sessionActive) && PendingBranch(clock) !in old(repo.state.history) && !sessionEnded
        && SessionStarted(old(repo.state), repo.state, sessionName, PendingBranch(clock), clock)
      ensures out.Completed? && InSync() ==>
        sessionActive && currentBranch == PendingBranch(clock) && sessionBranch == PendingBranch(clock)
    {
      if sessionActive {
        return Raised(SessionAlreadyActive);
      }
      parentBranch := currentBranch;
      var name := PendingBranch(clock);
      var probe := repo.VerifyRef(name);
      if probe.Succeeded? {
        return Raised(BranchAlreadyExists(name));
      }
      var created := repo.CheckoutNewBranch(name);
      if created.Failed? {
        return Raised(GitCommandFailed(created.error));
      }
      SessionBranchNameShape(sessionPrefix, sessionName, clock.branchStamp);
      out := SetUpSession(name, clock);
    }

    /** `commit_session_changes`: nothing happens unless the tree is known to
        be dirty; then everything is staged and committed with a Final or a
        Progress message naming the session branch. */
    method CommitSessionChanges(final: bool, clock: Clock) returns (out: Outcome)
      requires Valid()
      modifies this, repo
      ensures Valid()
      ensures unchanged(this`sessionName, this`sessionPrefix, this`parentBranch)
      ensures repo.state.head == old(repo.state.head)
      ensures !old(sessionActive) ==> out == Raised(NoActiveSession) && unchanged(this) && unchanged(repo)
      ensures old(sessionActive) && !old(hasUncommittedChanges) ==> out == Completed && unchanged(this) && unchanged(repo)
      ensures out.Completed? && old(hasUncommittedChanges) ==>
        SessionCommitMade(old(repo.state), repo.state, SessionCommitMessage(final, sessionName, old(sessionBranch), clock.display))
      ensures out.Raised? ==> unchanged(this) && (repo.state == old(repo.state) || repo.state == StageAll(old(repo.state)))
      ensures out.Completed? && InSync() ==> !hasUncommittedChanges
    {
      if !sessionActive {
        return Raised(NoActiveSession);
      }
      if !hasUncommittedChanges {
        return Completed;
      }
      var added := repo.AddAll();
      if added.Failed? {
        return Handled(added);
      }
      var message := SessionCommitMessage(final, sessionName, sessionBranch, clock.display);
      var committed := repo.Commit(message, false);
      if committed.Failed? {
        return Handled(committed);
      }
      Refresh();
      return Completed;
    }

    /** `end_experimental_session`: commit what is left, mark the session
        ended and stay on its branch. */
    method EndSession(clock: Clock) returns (out: Outcome)
      requires Valid()
      modifies this, repo
      ensures Valid()
      ensures unchanged(this`sessionName, this`sessionPrefix, this`parentBranch)
      ensures repo.state.head == old(repo.state.head)
      ensures !old(sessionActive) ==> out == Raised(NoActiveSession) && unchanged(this) && unchanged(repo)
      ensures old(sessionActive) && !old(hasUncommittedChanges) ==> out == Completed && repo.state == old(repo.state)
      ensures out.Completed? && old(hasUncommittedChanges) ==>
        SessionCommitMade(old(repo.state), repo.state, SessionCommitMessage(true, sessionName, old(sessionBranch), clock.display))
      ensures out.Raised? ==> sessionEnded == old(sessionEnded)
      ensures out.Raised? ==> repo.state == old(repo.state) || repo.state == StageAll(old(repo.state))
      ensures out.Completed? ==> sessionEnded || !sessionActive
      ensures out.Completed? && InSync() ==> !sessionActive
      ensures out.Completed? && old(hasUncommittedChanges) && InSync() ==> !hasUncommittedChanges
    {
      if !sessionActive {
        return Raised(NoActiveSession);
      }
      if hasUncommittedChanges {
        ghost var before := repo.state;
        out := CommitSessionChanges(true, clock);
        if out.Raised? {
          return;
        }
        SessionCommitMadeCleans(before, repo.state, SessionCommitMessage(true, sessionName, old(sessionBranch), clock.display));
      }
      sessionEnded := true;
      Refresh();
      return Completed;
    }

    /** `return_to_parent_branch`: refused without a recorded parent or while
        the tree is known to be dirty. */
    method ReturnToParent() returns (out: Outcome)
      requires Valid()
      modifies this, repo
      ensures Valid()
      ensures unchanged(this`sessionName, this`sessionPrefix, this`parentBranch)
      ensures old(parentBranch) == "" ==> out == Raised(NoParentBranch)
      ensures old(parentBranch) != "" && old(hasUncommittedChanges) ==> out == Raised(UncommittedChanges)
      ensures parentBranch !in old(repo.state.history) ==> out.Raised?
      ensures out.Raised? ==> unchanged(this) && unchanged(repo)
      ensures out.Completed? ==> parentBranch in old(repo.state.history) && repo.state == SwitchTo(old(repo.state), parentBranch)
      ensures out.Completed? && InSync() ==> currentBranch == parentBranch
    {
      if parentBranch == "" {
        return Raised(NoParentBranch);
      }
      if hasUncommittedChanges {
        return Raised(UncommittedChanges);
      }
      var switched := repo.Checkout(parentBranch);
      if switched.Failed? {
        return Raised(GitCommandFailed(switched.error));
      }
      Refresh();
      return Completed;
    }
  }
}
