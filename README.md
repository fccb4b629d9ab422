# Git session manager, commit hook and transcript converter: a Dafny model

This project models three parts of a ScopeFoundry tool for tracking lab
experiments with git, and proves properties about them:

* **The session manager hardware component** (`GitSessionManagerHW`). It opens an
  experimental session on a new branch `<prefix>-<cleaned session name>`. It
  records the branch it came from and commits the initial state of the working
  tree. It tags the session start, commits progress, marks the session ended and
  returns to the parent branch. Its settings are the fields of the class
  `SessionManager.GitSessionManager`. Each git command it runs is a method of
  `Git.Repository`. That class holds an abstract repository: its branches with
  their commit histories, HEAD, a working tree, a staging area and tags.
* **The LLM commit hook.** It picks the last user prompt from a JSONL
  transcript, and the first text reply timestamped after it. It copies the
  transcript and appends the interaction to a conversation file under
  `llm-sessions/<branch>/`. On a `session-…` branch it then commits the working
  tree with a message quoting both. Files over 10 MiB are unstaged and listed in
  a footer.
* **The transcript converter.** It drops noise records and extracts and formats
  message text. It filters, stable-sorts by timestamp and formats a transcript
  into a Markdown document. It also folds a transcript into the counters of the
  session summary.

Modules: `Wrappers` (Option, Result), `Text` (string helpers, Python's string
order), `SeqUtil` (filter), `StableSort` (Python's stable `list.sort` by key),
`Json` (decoded JSON values, `dict.get`, truthiness, `str`),
`SessionNaming`, `Git`, `SessionManager`, `CommitHook`, `ChatLogs`.

Each loop of the source is a method. It is proved equal to a recursive
specification function, or to the repository transition it performs. The
properties are lemmas about those functions.

Behaviour of the code worth knowing:

* A session branch is `<prefix>-<cleaned name>`. The timestamp appears only
  when the name is empty, and `start` raises when the branch already exists.
* Starting while a session is active raises.
* `return_to_parent_branch` refuses when the tree is known to be dirty, and
  leaves an active session as it is.
* The start tag is `session-start-<cleaned name>-<timestamp>`.
* Only spaces and underscores become hyphens. Other whitespace is removed.

## Model

| member | source | states |
|---|---|---|
| SessionNaming.CleanName | git_session_manager_hw.py:189-191 | the cleaned name is no longer than the name and holds only ASCII letters, digits, `-` and `.` |
| SessionNaming.CleanNameAppend | git_session_manager_hw.py:190-191 | cleaning works character by character: it distributes over concatenation |
| SessionNaming.CleanNameKeepsSafeNames | git_session_manager_hw.py:191 | a name made only of kept characters is unchanged by cleaning |
| SessionNaming.CleanNameIdempotent | git_session_manager_hw.py:190-191 | cleaning twice equals cleaning once |
| SessionNaming.CleanNameHyphens | git_session_manager_hw.py:190 | spaces and underscores are not dropped: the hyphens of the result number the spaces, underscores and hyphens of the name |
| SessionNaming.CleanNameOtherChars | git_session_manager_hw.py:191 | every other kept character keeps its count; a character outside the kept set never survives |
| SessionNaming.SessionBranchNameShape | git_session_manager_hw.py:179-194 | the generated name starts with `<prefix>-` and holds only kept characters after it |
| SessionNaming.EmptySessionNameUsesStamp | git_session_manager_hw.py:184-187 | an empty session name gives `<prefix>-session-<timestamp>` |
| SessionNaming.NamedSessionBranch | git_session_manager_hw.py:189-193 | a non-empty session name gives `<prefix>-<cleaned name>`, whatever the timestamp |
| SessionNaming.SessionTagNameShape | git_session_manager_hw.py:314-321 | the tag is `session-start-…-<timestamp>`, and `session-start-session-<timestamp>` for an empty name |
| SessionNaming.EmptySessionTagName | git_session_manager_hw.py:314-321 | an empty session name gives the tag `session-start-session-<timestamp>` |
| SessionNaming.SessionCommitMessageKind | git_session_manager_hw.py:408-421 | a session commit message starts with `Final commit` exactly when final, else with `Progress commit` |
| Git.CreateBranch | git_session_manager_hw.py:218 | `checkout -b` adds exactly the new branch, at HEAD's commit, and checks it out; other branches are unchanged |
| Git.SwitchTo | git_session_manager_hw.py:380 | `checkout` moves HEAD and keeps histories and the dirty state |
| Git.StageAll | git_session_manager_hw.py:266 | `add -A` empties the working tree into the staging area; the tree stays dirty exactly when something is staged |
| Git.Unstage | llm_git_commit_hook.py:162 | `reset HEAD <path>` removes one path from the staging area and moves its change back to the working tree; branches, HEAD and tags are unchanged |
| Git.UnstageAll | llm_git_commit_hook.py:159-162 | resetting a set of paths removes them from the staging area and moves the staged ones' changes back to the working tree |
| Git.UnstageStep | llm_git_commit_hook.py:159-162 | resetting one more path is resetting the set extended by that path |
| Git.UnstageNothing | llm_git_commit_hook.py:159-162 | resetting no path changes nothing |
| Git.Write | llm_git_commit_hook.py:230-249 | writing a file leaves branches, HEAD and the staging area as they were and makes the tree dirty with that file's change |
| Git.WrittenIsStaged | llm_git_commit_hook.py:230-249 | a file just written is staged by the next `add -A` |
| Git.CommitStaged | git_session_manager_hw.py:423 | a commit appends one commit holding exactly the staged files to the current branch, empties the staging area and keeps the working tree and the tags |
| Git.AddTag | git_session_manager_hw.py:335 | tagging adds the tag and changes nothing else |
| Git.Repository.CurrentBranch | git_session_manager_hw.py:141-144 | `rev-parse --abbrev-ref HEAD` returns HEAD's branch; it fails outside a repository |
| Git.Repository.HeadCommitId | git_session_manager_hw.py:147-150 | `rev-parse HEAD` returns the id of HEAD's last commit |
| Git.Repository.TopLevel | llm_git_commit_hook.py:101-107 | `rev-parse --show-toplevel` succeeds only inside a repository |
| Git.Repository.Status | git_session_manager_hw.py:153-156 | `status --porcelain` is non-empty exactly when the tree is dirty |
| Git.Repository.HasStagedChanges | llm_git_commit_hook.py:113-120 | `diff --cached --quiet` reports changes exactly when something is staged |
| Git.Repository.StagedNames | llm_git_commit_hook.py:136-143 | `diff --staged --name-only` lists every staged path exactly once |
| Git.Repository.VerifyRef | git_session_manager_hw.py:210-215 | `rev-parse --verify` succeeds only for a name that resolves, and fails for a name that does not |
| Git.Repository.CheckoutNewBranch | git_session_manager_hw.py:218 | succeeds only for a new, well-formed name and then performs CreateBranch; a failure changes nothing |
| Git.Repository.Checkout | git_session_manager_hw.py:380 | succeeds only for an existing branch and then performs SwitchTo; a failure changes nothing |
| Git.Repository.AddAll | git_session_manager_hw.py:266 | success performs StageAll; a failure changes nothing |
| Git.Repository.Commit | git_session_manager_hw.py:262 | fails with nothing-to-commit exactly when nothing is staged and empty commits are not allowed; success performs CommitStaged |
| Git.Repository.Tag | git_session_manager_hw.py:335 | succeeds only for a new well-formed tag and then performs AddTag |
| Git.Repository.Reset | llm_git_commit_hook.py:162 | success performs Unstage; a failure changes nothing |
| Git.Repository.WriteFile | llm_git_commit_hook.py:243-249 | writing a file performs Write |
| SessionManager.Handled | git_session_manager_hw.py:301-309 | a commit failure is swallowed exactly when it is nothing-to-commit; any other failure is raised with its cause |
| SessionManager.SessionStartedShape | git_session_manager_hw.py:218-299 | a completed start adds only the session branch, leaves the other branches alone and extends the parent's history by at most one commit; on a clean tree that commit is the empty start commit |
| SessionManager.SessionCommitMadeCleans | git_session_manager_hw.py:401-423 | a completed session commit leaves the tree clean and puts every pending change in one new commit on the current branch |
| SessionManager.GitSessionManager.constructor | git_session_manager_hw.py:19-100 | every setting starts at its initial value; the prefix is `exp` |
| SessionManager.GitSessionManager.Refresh | git_session_manager_hw.py:137-177 | on success the settings agree with the repository: `session_active` iff on `<prefix>-…` and not ended, `session_branch` is the branch or `""`, the dirty flag follows status, and `session_ended` is cleared off a session branch; a failing query is swallowed and leaves the session settings alone |
| SessionManager.GitSessionManager.CommitInitialState | git_session_manager_hw.py:238-309 | the empty start commit on a clean tree; on a dirty tree, stage everything and commit only if status is still non-empty; a raised error leaves the repository as it was or only staged |
| SessionManager.GitSessionManager.CreateSessionTag | git_session_manager_hw.py:311-341 | adds the `session-start-…` tag or nothing; it never raises and never touches branches or commits |
| SessionManager.GitSessionManager.SetUpSession | git_session_manager_hw.py:220-230 | after the branch switch: clears `session_ended`, makes the initial commit and the tag; in sync it leaves the session active on the new branch |
| SessionManager.GitSessionManager.StartSession | git_session_manager_hw.py:196-236 | raises with no change while active; otherwise records the parent first, raises with no repository change when the name exists, and on success creates and checks out the branch as SessionStarted describes |
| SessionManager.GitSessionManager.CommitSessionChanges | git_session_manager_hw.py:391-438 | raises when inactive; a no-op when the tree is clean; otherwise stage everything and commit with the Final or Progress message; HEAD never moves |
| SessionManager.GitSessionManager.EndSession | git_session_manager_hw.py:343-365 | raises when inactive; a final commit only when dirty; HEAD never moves; afterwards the session is inactive because `session_ended` is set |
| SessionManager.GitSessionManager.ReturnToParent | git_session_manager_hw.py:367-389 | raises with no checkout when no parent is recorded or the tree is dirty; otherwise checks out the parent, and in sync `current_branch` is the parent |
| CommitHook.GarbledLineFails | llm_git_commit_hook.py:16-22 | one line that is not JSON makes the whole transcript unreadable |
| CommitHook.FirstTextBlockSelects | llm_git_commit_hook.py:66-72 | the response is the `text` of the first text block, or `""` when there is none; reading fails exactly when a non-object block comes before it |
| CommitHook.FirstTextBlockDefined | llm_git_commit_hook.py:66-72 | the loop over the content blocks finishes exactly when every block before the first text block is an object |
| CommitHook.FirstTextBlockValue | llm_git_commit_hook.py:66-72 | a finished loop yields the `text` of the first text block, or `""` when no block is a text block |
| CommitHook.NoUserEventNoInteraction | llm_git_commit_hook.py:28-39 | without a user message the result is `(None, None)` |
| CommitHook.PromptIsLastUserContent | llm_git_commit_hook.py:41-58 | the prompt is the content of the last user message in file order |
| CommitHook.ResponseFollowsLastUser | llm_git_commit_hook.py:42-72 | the response comes from the first assistant message timestamped strictly after the last user message, or is `""` when there is none |
| CommitHook.InteractionFound | llm_git_commit_hook.py:11-78 | an interaction is found, with the last user message's content as prompt, when the lines parse, that message has a parsable timestamp and a content, and the first later assistant message, if any, yields a response |
| CommitHook.ReplyResponse | llm_git_commit_hook.py:42-72 | given the last user message, the response comes from the first assistant message timestamped after it, or is `""` |
| CommitHook.ReplyFound | llm_git_commit_hook.py:42-74 | for a known last user message with a parsable timestamp and a content, a reply exists when the first later assistant message, if any, yields a response |
| CommitHook.ParseEvents | llm_git_commit_hook.py:22 | decodes the non-blank lines in order, failing on the first undecodable one |
| CommitHook.UserMessages | llm_git_commit_hook.py:28-36 | the user messages are the events with a user-role message, in order; events that raise are skipped |
| CommitHook.AssistantMessages | llm_git_commit_hook.py:45-54 | the assistant messages are those timestamped strictly after the prompt, in order |
| CommitHook.FirstResponse | llm_git_commit_hook.py:65-72 | the loop over the first assistant message's content blocks selects the first text block |
| CommitHook.GetLastInteraction | llm_git_commit_hook.py:11-78 | the loops compute exactly the selected prompt and response, and `(None, None)` after any exception |
| CommitHook.InteractionIn | llm_git_commit_hook.py:26-74 | once the lines are parsed, the loops compute exactly the selected prompt and response |
| CommitHook.ReplyTo | llm_git_commit_hook.py:41-74 | once the last user message is known, the code computes exactly the selected prompt and response |
| CommitHook.Preview | llm_git_commit_hook.py:123-124 | a falsy value gives its placeholder; a string gives its first 500 characters, or all of it when shorter; a list gives the repr of its first 500 items, or of all of them when shorter; any other truthy value fails |
| CommitHook.LargeFilesAreTheLargeNames | llm_git_commit_hook.py:145-157 | the large files are exactly the non-empty, existing staged names over 10 MiB, in staged order, with their sizes and hashes |
| CommitHook.LargeFileMembership | llm_git_commit_hook.py:145-157 | a path is listed as large exactly when it is staged and over the threshold |
| CommitHook.FileLinesCount | llm_git_commit_hook.py:164-167 | the footer has one line per large file |
| CommitHook.FileLineTextIsOneLine | llm_git_commit_hook.py:166-167 | a large-file line holds no line break of its own when its path, size and hash hold none |
| CommitHook.FindLargeFiles | llm_git_commit_hook.py:145-157 | the loop builds exactly the large-file list |
| CommitHook.UnstageLarge | llm_git_commit_hook.py:159-162 | every listed path whose reset succeeded leaves the staging area and returns to the working tree; the paths whose reset failed (`failed`) stay staged; nothing else changes |
| CommitHook.AppendFooter | llm_git_commit_hook.py:164-167 | the message gains the count line and one line per large file |
| CommitHook.AppendFileLines | llm_git_commit_hook.py:165-167 | the loop appends exactly one line per large file, in order |
| CommitHook.CreateCommit | llm_git_commit_hook.py:96-176 | no commit leaves the tree as it was, or as `add -A` left it with some large files reset; a commit on HEAD's branch holds exactly what `add -A` staged minus the large files whose reset succeeded, which stay as working-tree changes, with the preview message and the footer listing every large staged file; the staging area is then empty, tags are unchanged, and errors are never raised |
| CommitHook.HookCommitExcludesLarge | llm_git_commit_hook.py:152-167 | a hook commit holds a file exactly when `add -A` staged it and, if it is larger than 10 MiB, resetting it failed |
| CommitHook.CommitWithoutLargeFiles | llm_git_commit_hook.py:136-170 | once something is staged: the commit holds exactly the staged files minus the large ones whose reset succeeded, its message is the given one plus the footer for the staged names, and the new state is that commit on top of the resets; without a commit, the state is the old one with some large files reset |
| CommitHook.Sanitize | llm_git_commit_hook.py:228 | replacing `/` and space leaves neither in the branch and keeps its length |
| CommitHook.AppendFailsOnSlash | llm_git_commit_hook.py:243-249 | opening the conversation file fails exactly when the branch name holds a `/` |
| CommitHook.ConversationFileNameAsWritten | llm_git_commit_hook.py:225-253 | as written, branch `session-a/b` is used unchanged, passes the session gate and its append fails; `session/x` fails the gate and its append fails |
| CommitHook.HookBranchIsPlain | llm_git_commit_hook.py:225-253 | with the replacement kept, the file name holds no `/`, so the append never fails, and the session gate is `session-…` or `session/…` of the raw branch |
| CommitHook.BaseName | llm_git_commit_hook.py:238-239 | `Path(p).name` is a suffix of `p` holding no `/` |
| CommitHook.TranscriptPath | llm_git_commit_hook.py:210-213 | a usable transcript path is a non-empty string from a JSON object |
| CommitHook.HookWritesAreStaged | llm_git_commit_hook.py:230-253 | the transcript copy, and the conversation file unless its append failed, are staged by `create_commit`'s `add -A`, so on a session branch the commit is never skipped for lack of changes |
| CommitHook.HookOnBranch | llm_git_commit_hook.py:230-253 | a failed copy exits 1 with nothing changed; otherwise the copy and the append are written, the status is 1 exactly when the append fails, and the `finally` commit on a `session-` branch is `create_commit` applied to the written tree with the last interaction's prompt and response (`None` without one); off such a branch only the two files change |
| CommitHook.RunHook | llm_git_commit_hook.py:206-261 | as written: exits 1 with nothing changed when the input has no usable transcript path or git fails; otherwise HookOnBranch's outcome on the raw, unsanitized branch, so `session-a/b` commits and exits 1 and `session/x` does not commit and exits 1 |
| CommitHook.RunHookIntended | llm_git_commit_hook.py:206-261 | with the replacement kept: HookOnBranch's outcome on the sanitized branch, and a status other than 0 always means that nothing changed |
| ChatLogs.TextsInBlockOrder | convert_chat_logs.py:30-53 | the texts are those of the text, `tool_use` and `tool_result` blocks, in block order; the join fails exactly when a text block's `text` is not a string |
| ChatLogs.ExtractMessageContent | convert_chat_logs.py:19-56 | the loop computes exactly the extracted content: string content unchanged, list content joined, `str(message)` without content |
| ChatLogs.NoiseExactly | convert_chat_logs.py:58-74 | a record is noise exactly when its type is `file-history-snapshot` or `system` or `isMeta` is truthy; `local-command-stdout` changes nothing |
| ChatLogs.AssistantHeadingTokens | convert_chat_logs.py:104-110 | the assistant header shows a token count exactly when `output_tokens` is not `N/A` |
| ChatLogs.FormatMessageClassifies | convert_chat_logs.py:76-116 | an entry is skipped exactly when its cleaned content is blank; otherwise it gets the User, Tool Use or Assistant header by type and content |
| ChatLogs.EntryHeaders | convert_chat_logs.py:97-116 | the header follows the type: User for a `user` entry with string content, Tool Use for another `user` entry, Assistant for an `assistant` entry; every entry starts with `### ` |
| ChatLogs.FormattedEntriesAreHeadings | convert_chat_logs.py:76-116 | every entry `format_message` returns starts with `### ` |
| ChatLogs.KeptMessages | convert_chat_logs.py:130-143 | every kept message is a JSON object |
| ChatLogs.KeptMessagesAreSignal | convert_chat_logs.py:130-143 | the kept messages are exactly the parsed non-noise records, in file order |
| ChatLogs.KeptMessagesStaysErr | convert_chat_logs.py:137-143 | an error raised on a record ends the conversion |
| ChatLogs.SortedMessages | convert_chat_logs.py:148 | sorting keeps the messages, orders them by timestamp and keeps file order among equal timestamps |
| ChatLogs.SortedHeadIsObject | convert_chat_logs.py:158-159 | sorting keeps the count, so the first sorted message is a record |
| ChatLogs.ConversationAlternates | convert_chat_logs.py:171-176 | for any formatter, each formatted entry is followed by exactly one `---`, in message order, and skipped entries leave nothing |
| ChatLogs.ConversationLinesStaysErr | convert_chat_logs.py:171-176 | an error from formatting ends the conversion |
| ChatLogs.ConversationHasNoMetadata | convert_chat_logs.py:171-176 | every conversation line is a separator or starts with `### `, so none is the session-information heading |
| ChatLogs.ConversationLinesAreHeadings | convert_chat_logs.py:171-176 | when every entry starts with `### `, every conversation line is a separator or such an entry |
| ChatLogs.DocumentMetadata | convert_chat_logs.py:153-169 | the session information is present exactly when there are messages and it is asked for, and then it counts them |
| ChatLogs.MetadataWhenMessages | convert_chat_logs.py:158-166 | in the converted document the session information appears exactly when a message was kept and metadata is on, with the kept count |
| ChatLogs.ReadMessages | convert_chat_logs.py:130-143 | the reading loop computes exactly the kept messages |
| ChatLogs.FormatConversation | convert_chat_logs.py:171-176 | the message loop computes exactly the conversation lines |
| ChatLogs.ConvertToMarkdown | convert_chat_logs.py:118-179 | the conversion computes exactly the document of the read, sorted and formatted messages |
| ChatLogs.AssembleDocument | convert_chat_logs.py:150-169 | the appends build exactly the title, the conversion time, the session information when asked for and there are messages, and the conversation heading |
| ChatLogs.Counted | convert_chat_logs.py:228-235 | the summary counts only JSON objects |
| ChatLogs.FoldCounts | convert_chat_logs.py:223-240 | the count is the number of non-noise records; first and last are the first and last truthy timestamps in file order, `None` without one |
| ChatLogs.FoldBranch | convert_chat_logs.py:226-242 | the branch is the first non-null `gitBranch` in file order |
| ChatLogs.SummarizeFile | convert_chat_logs.py:221-244 | the counting loop computes exactly the fold over the counted records |
| StableSort.InsertPermutes | convert_chat_logs.py:148 | insertion adds exactly the inserted element |
| StableSort.InsertSorted | convert_chat_logs.py:148 | insertion into a sorted list keeps it sorted |
| StableSort.InsertStable | convert_chat_logs.py:148 | insertion places an element after those with the same key |
| StableSort.SortByPermutes | convert_chat_logs.py:148 | the sort is a permutation |
| StableSort.SortBySorted | convert_chat_logs.py:148 | the result is ordered by key |
| StableSort.SortByStable | convert_chat_logs.py:148 | elements with equal keys keep their relative order |

## Left out

- Running git: the repository is an abstract value. A command that could succeed may still fail, for reasons outside the model such as locks, hooks or I/O. Only the exit status and "nothing to commit" are modelled.
- SessionManager.Handled: follows the documented intent, that nothing to commit is not an error. The source looks for "nothing to commit" in `e.stderr`, but git prints that message on standard output, so the test never matches and the source re-raises.
- Unborn repositories and a detached HEAD: every branch has at least one commit.
- The ScopeFoundry settings framework, `add_operation`, `connect`/`disconnect`, logging and all printing.
- Wall-clock time: each operation receives its timestamp renderings as a `Clock` value. The hook and the converter receive timestamp parsing and rendering as functions.
- SessionNaming.IsAlnum: `str.isalnum` is modelled for ASCII letters and digits only; other Unicode letters and digits are removed by the model.
- Python `repr` of lists and dicts, `clean_ansi_codes`, SHA-256 and the `.2f` megabyte rendering are functions supplied by the caller.
- File I/O: reading the transcript and the JSONL files, `write_text`, the content written by `write_to_conversation_file`, `mkdir`, the `convert_folder` and `create_summary` globbing and path sorting. The hook's two writes are modelled by their effect on the working tree (Git.Write).
- CommitHook.RunHook: whether `shutil.copy2` succeeds is the parameter `copied`. Of the conversation file's failures only the missing directory of a branch with `/` is modelled; other append failures, and a failing `mkdir`, are not.
- Git.Write: writing a file whose content does not change still counts as a change, so copying an unchanged transcript is taken to dirty the tree. `.gitignore` is not modelled: an ignored `llm-sessions/` would leave the hook's files unstaged, which CommitHook.HookWritesAreStaged does not allow for.
- CommitHook.BaseName: takes what follows the last `/`; `pathlib`'s normalisation of trailing slashes and `.` parts is not modelled.
- File sizes and existence: the hook receives a map from staged paths to sizes; a path that is not in the map does not exist.
- JSON numbers are integers; floats are not modelled.
- ChatLogs.SortKey: a `timestamp` that is not a string sorts as `""`, where Python would compare it or raise `TypeError`.
- CommitHook.ParseTime: timestamps parse to integers. The `TypeError` Python raises when comparing naive and aware datetimes is not modelled.
- The summary's rendering (`create_summary` lines 246-268) and its file header are not modelled; only the per-file counting loop is.
- convert_chat_logs.py lines 54-55 are unreachable: a dict with `content` takes the earlier branch. The model has no counterpart for them.

## Findings

| source | as written | input that shows it | evidently intended | confidence | as-written member | corrected member |
|---|---|---|---|---|---|---|
| llm_git_commit_hook.py:228 | `branch.replace('/', '-').replace(' ', '_')` discards its result, so the branch is used unchanged in `llm-sessions/<branch>/` and in `conversation-<branch>.md` | branch `session-a/b`: the conversation file `llm-sessions/session-a/b/conversation-session-a/b.md` lies in a directory the hook never creates, so appending to it fails; the `finally` still commits and the hook exits with status 1. Branch `session/x`: the append fails, no commit is made, status 1 | assign the replaced string to `branch`, so the file name holds no `/`; the session gate then also admits `session/…` branches, which become `session-…` | not executed | CommitHook.RunHook, CommitHook.ConversationFileNameAsWritten | CommitHook.RunHookIntended, CommitHook.HookBranchIsPlain |
