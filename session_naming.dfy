/** Names and messages the session manager derives from its settings:
    the session branch name, the start tag name, the session-branch test
    and the commit messages (git_session_manager_hw.py). */
module SessionNaming {
  import opened Text

  /** `c.isalnum()`, restricted to ASCII letters and digits. */
  predicate IsAlnum(c: char) {
    'a' <= c <= 'z' || 'A' <= c <= 'Z' || '0' <= c <= '9'
  }

  /** The characters a cleaned session name may keep. */
  predicate BranchSafe(c: char) {
    IsAlnum(c) || c == '-' || c == '.'
  }

  /** `.replace(" ", "-").replace("_", "-")`, one character at a time. */
  function Fold(c: char): char {
    if c == ' ' || c == '_' then '-' else c
  }

  /** The cleaning of a session name: spaces and underscores become `-`,
      then every character that is not alphanumeric, `-` or `.` is removed. */
  function CleanName(name: string): (clean: string)
    ensures |clean| <= |name|
    ensures forall i :: 0 <= i < |clean| ==> BranchSafe(clean[i])
  {
    if name == [] then []
    else (if BranchSafe(Fold(name[0])) then [Fold(name[0])] else []) + CleanName(name[1..])
  }

  /** Cleaning works character by character, so it distributes over concatenation. */
  lemma {:induction false} CleanNameAppend(a: string, b: string)
    ensures CleanName(a + b) == CleanName(a) + CleanName(b)
  {
    if a == [] {
      assert a + b == b;
    } else {
      assert (a + b)[1..] == a[1..] + b;
      CleanNameAppend(a[1..], b);
    }
  }

  /** A name made only of alphanumerics, `-` and `.` comes out of cleaning unchanged. */
  lemma {:induction false} CleanNameKeepsSafeNames(name: string)
    requires forall i :: 0 <= i < |name| ==> BranchSafe(name[i])
    ensures CleanName(name) == name
  {
    if name != [] {
      CleanNameKeepsSafeNames(name[1..]);
    }
  }

  /** Cleaning twice is cleaning once. */
  lemma CleanNameIdempotent(name: string)
    ensures CleanName(CleanName(name)) == CleanName(name)
  {
    CleanNameKeepsSafeNames(CleanName(name));
  }

  /** Spaces and underscores are not dropped: every space, underscore and
      hyphen of the name becomes one hyphen of the cleaned name. */
  lemma {:induction false} CleanNameHyphens(name: string)
    ensures Occurrences(CleanName(name), '-')
         == Occurrences(name, ' ') + Occurrences(name, '_') + Occurrences(name, '-')
  {
    if name != [] {
      CleanNameHyphens(name[1..]);
      var head := if BranchSafe(Fold(name[0])) then [Fold(name[0])] else [];
      OccurrencesAppend(head, CleanName(name[1..]), '-');
    }
  }

  /** Every other kept character occurs exactly as often as in the name,
      and a character outside the kept set never survives. */
  lemma {:induction false} CleanNameOtherChars(name: string, c: char)
    requires c != '-'
    ensures Occurrences(CleanName(name), c) == if BranchSafe(c) then Occurrences(name, c) else 0
  {
    if name != [] {
      CleanNameOtherChars(name[1..], c);
      var head := if BranchSafe(Fold(name[0])) then [Fold(name[0])] else [];
      OccurrencesAppend(head, CleanName(name[1..]), c);
    }
  }

  /** The session name that is cleaned: the setting, or `session-<stamp>` when it is empty. */
  function EffectiveSessionName(sessionName: string, stamp: string): string {
    if sessionName == "" then "session-" + stamp else sessionName
  }

  /** `generate_session_branch_name`: `<prefix>-<cleaned session name>`. */
  function SessionBranchName(prefix: string, sessionName: string, stamp: string): string {
    prefix + "-" + CleanName(EffectiveSessionName(sessionName, stamp))
  }

  /** The test `refresh_git_status` applies to the current branch. */
  predicate IsSessionBranch(prefix: string, branch: string) {
    StartsWith(branch, prefix + "-")
  }

  /** A generated branch name is a session branch, and what follows
      `<prefix>-` holds only alphanumerics, `-` and `.`. */
  lemma SessionBranchNameShape(prefix: string, sessionName: string, stamp: string)
    ensures var b := SessionBranchName(prefix, sessionName, stamp);
      IsSessionBranch(prefix, b)
      && forall i :: |prefix| + 1 <= i < |b| ==> BranchSafe(b[i])
  {
    var b := SessionBranchName(prefix, sessionName, stamp);
    var clean := CleanName(EffectiveSessionName(sessionName, stamp));
    assert b[..|prefix| + 1] == prefix + "-";
    forall i | |prefix| + 1 <= i < |b| ensures BranchSafe(b[i]) {
      assert b[i] == clean[i - |prefix| - 1];
    }
  }

  /** With an empty session name and a timestamp of digits and hyphens (the
      `%y%m%d-%H%M%S` rendering), the branch is `<prefix>-session-<stamp>`. */
  lemma EmptySessionNameUsesStamp(prefix: string, stamp: string)
    requires forall i :: 0 <= i < |stamp| ==> '0' <= stamp[i] <= '9' || stamp[i] == '-'
    ensures SessionBranchName(prefix, "", stamp) == prefix + "-" + ("session-" + stamp)
  {
    var word := "session-";
    assert forall i :: 0 <= i < |word| ==> BranchSafe(word[i]);
    CleanNameKeepsSafeNames(word);
    CleanNameKeepsSafeNames(stamp);
    CleanNameAppend(word, stamp);
  }

  /** A non-empty session name is used as given, cleaned: the timestamp
      plays no part in the branch name. */
  lemma NamedSessionBranch(prefix: string, sessionName: string, stamp: string, otherStamp: string)
    requires sessionName != ""
    ensures SessionBranchName(prefix, sessionName, stamp) == prefix + "-" + CleanName(sessionName)
    ensures SessionBranchName(prefix, sessionName, stamp) == SessionBranchName(prefix, sessionName, otherStamp)
  {
  }

  /** `create_session_tag`: `session-start-<cleaned name>-<stamp>`, the name
      falling back to `session`. */
  function SessionTagName(sessionName: string, tagStamp: string): string {
    "session-start-" + CleanName(if sessionName == "" then "session" else sessionName) + "-" + tagStamp
  }

  lemma SessionTagNameShape(sessionName: string, tagStamp: string)
    ensures var t := SessionTagName(sessionName, tagStamp);
      StartsWith(t, "session-start-") && EndsWith(t, "-" + tagStamp)
      && (sessionName == "" ==> t == "session-start-session-" + tagStamp)
  {
    if sessionName == "" {
      EmptySessionTagName(tagStamp);
    }
    var t := SessionTagName(sessionName, tagStamp);
    assert t[|t| - |"-" + tagStamp|..] == "-" + tagStamp;
  }

  lemma EmptySessionTagName(tagStamp: string)
    ensures SessionTagName("", tagStamp) == "session-start-session-" + tagStamp
  {
    CleanNameKeepsSafeNames("session");
    assert "session-start-" + "session" + "-" == "session-start-session-";
  }

  const Signature := "ScopeFoundry Git Session Manager"

  /** How the initial commit messages name the session. */
  function InitialLabel(sessionName: string): string {
    if sessionName == "" then "unnamed session" else sessionName
  }

  function SessionDetails(shown: string, branch: string, stamp: string): string {
    "\n\nSession Details:\n- Session name: " + shown + "\n- Branch: " + branch
    + "\n- Started: " + stamp + "\n- " + Signature + "\n\nGenerated with " + Signature
  }

  /** Message of the empty commit that marks the start of a session on a clean tree. */
  function StartMessage(sessionName: string, branch: string, stamp: string): string {
    "Start experimental session: " + InitialLabel(sessionName)
    + SessionDetails(InitialLabel(sessionName), branch, stamp)
  }

  /** Message of the commit that records a dirty tree when a session starts. */
  function InitialStateMessage(sessionName: string, branch: string, stamp: string): string {
    "Initial state for experimental session: " + InitialLabel(sessionName)
    + SessionDetails(InitialLabel(sessionName), branch, stamp)
  }

  /** The word that opens a session commit message. */
  function CommitKind(final: bool): string {
    if final then "Final" else "Progress"
  }

  /** Message of `commit_session_changes`: a Final or a Progress commit. */
  function SessionCommitMessage(final: bool, sessionName: string, sessionBranch: string, stamp: string): string {
    var shown := if sessionName == "" then "experimental session" else sessionName;
    var when := if final then "Session completed at: " else "Updated at: ";
    (CommitKind(final) + " commit") + (" for experimental session: " + shown + "\n\n" + when + stamp
      + "\nBranch: " + sessionBranch + "\n\nGenerated with " + Signature)
  }

  /** The first word of a session commit says which kind it is. */
  lemma SessionCommitMessageKind(final: bool, sessionName: string, sessionBranch: string, stamp: string)
    ensures var m := SessionCommitMessage(final, sessionName, sessionBranch, stamp);
      (StartsWith(m, "Final commit") <==> final) && (StartsWith(m, "Progress commit") <==> !final)
  {
    var m := SessionCommitMessage(final, sessionName, sessionBranch, stamp);
    var head := CommitKind(final) + " commit";
    assert m[..|head|] == head;
    if final {
      assert m[0] == 'F';
    } else {
      assert m[0] == 'P';
    }
  }
}
