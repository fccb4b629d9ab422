/** The stop hook that records an LLM interaction (llm_git_commit_hook.py):
    it selects the last prompt and the reply to it from a JSONL transcript,
    and on a session branch commits the working tree with a message quoting
    both, keeping files over 10 MiB out of the commit. */
module CommitHook {
  import opened Wrappers
  import opened Text
  import opened SeqUtil
  import opened Json
  import opened Git

  /** `datetime.fromisoformat`: a parsed timestamp is a number ordered as the
      instants are; None when the string does not parse. */
  type ParseTime = string -> Option<int>

  /** What `get_last_interaction` returns when it does not fail. */
  datatype Interaction = Interaction(prompt: Json, response: Json)

  // ---------------------------------------------------------------------
  // Selection of the last interaction
  // ---------------------------------------------------------------------

  /** The decoded non-blank lines of a transcript; None when one of them is
      not JSON (`json.loads` raises). */
  function Events(lines: seq<JsonLine>): Option<seq<Json>>
  {
    if lines == [] then Some([])
    else
      match Events(lines[..|lines| - 1])
      case None => None
      case Some(prefix) =>
        match lines[|lines| - 1]
        case BlankLine => Some(prefix)
        case Garbled => None
        case Record(e) => Some(prefix + [e])
  }

  /** A single line that is not JSON spoils the whole transcript. */
  lemma {:induction false} GarbledLineFails(lines: seq<JsonLine>, i: nat)
    requires i < |lines| && lines[i].Garbled?
    ensures Events(lines) == None
  {
    var n := |lines| - 1;
    if i < n {
      assert lines[..n][i] == lines[i];
      GarbledLineFails(lines[..n], i);
    }
  }

  /** `e['message'].get('role') == 'user'` evaluates without raising and holds. */
  predicate IsUserEvent(e: Json) {
    e.JObj? && "message" in e.fields && e.fields["message"].JObj?
    && HasString(e.fields["message"], "role", "user")
  }

  /** `datetime.fromisoformat(e.get('timestamp', 0))`; None where it raises. */
  function EventTime(e: Json, parse: ParseTime): Option<int>
    requires e.JObj?
  {
    if "timestamp" in e.fields && e.fields["timestamp"].JStr? then parse(e.fields["timestamp"].s) else None
  }

  /** An event the assistant loop keeps: an assistant message whose timestamp
      parses and is strictly later than `after`. */
  predicate IsAssistantAfter(e: Json, after: int, parse: ParseTime) {
    e.JObj? && "message" in e.fields && e.fields["message"].JObj?
    && HasString(e.fields["message"], "role", "assistant")
    && EventTime(e, parse).Some? && EventTime(e, parse).value > after
  }

  function AssistantAfter(after: int, parse: ParseTime): Json -> bool {
    e => IsAssistantAfter(e, after, parse)
  }

  predicate IsTextBlock(b: Json) {
    b.JObj? && HasString(b, "type", "text")
  }

  /** The loop over a content list: the `text` of the first text block ("" when
      it has none); None when a block before it is not an object, whose
      `.get` raises. */
  function FirstTextBlock(blocks: seq<Json>): Option<Json>
  {
    if blocks == [] then Some(JStr(""))
    else if !blocks[0].JObj? then None
    else if HasString(blocks[0], "type", "text") then Some(GetOr(blocks[0], "text", JStr("")))
    else FirstTextBlock(blocks[1..])
  }

  /** The first text block is the one selected, and it is selected only when
      every block before it is an object. */
  lemma FirstTextBlockSelects(blocks: seq<Json>)
    ensures FirstTextBlock(blocks).Some? <==>
      forall k :: 0 <= k < |blocks| && !blocks[k].JObj? ==> exists j :: 0 <= j < k && IsTextBlock(blocks[j])
    ensures FirstTextBlock(blocks).Some? ==>
      (exists k :: 0 <= k < |blocks| && IsTextBlock(blocks[k]) && (forall j :: 0 <= j < k ==> !IsTextBlock(blocks[j]))
                   && FirstTextBlock(blocks).value == GetOr(blocks[k], "text", JStr("")))
      || ((forall j :: 0 <= j < |blocks| ==> !IsTextBlock(blocks[j])) && FirstTextBlock(blocks).value == JStr(""))
  {
    FirstTextBlockDefined(blocks);
    if FirstTextBlock(blocks).Some? {
      FirstTextBlockValue(blocks);
      var i := FirstTextIndex(blocks);
      if i < |blocks| {
        assert IsTextBlock(blocks[i]) && forall j :: 0 <= j < i ==> !IsTextBlock(blocks[j]);
      }
    }
  }

  /** The loop finishes exactly when no block before the first text block
      fails to be an object. */
  lemma {:induction false} FirstTextBlockDefined(blocks: seq<Json>)
    ensures FirstTextBlock(blocks).Some? <==>
      forall k :: 0 <= k < |blocks| && !blocks[k].JObj? ==> exists j :: 0 <= j < k && IsTextBlock(blocks[j])
  {
    if blocks != [] {
      var rest := blocks[1..];
      FirstTextBlockDefined(rest);
      if blocks[0].JObj? && !IsTextBlock(blocks[0]) {
        assert FirstTextBlock(blocks) == FirstTextBlock(rest);
        if FirstTextBlock(rest).Some? {
          forall k | 0 <= k < |blocks| && !blocks[k].JObj?
            ensures exists j :: 0 <= j < k && IsTextBlock(blocks[j])
          {
            assert !rest[k - 1].JObj?;
            var j :| 0 <= j < k - 1 && IsTextBlock(rest[j]);
            assert IsTextBlock(blocks[j + 1]);
          }
        } else {
          var k :| 0 <= k < |rest| && !rest[k].JObj? && !exists j :: 0 <= j < k && IsTextBlock(rest[j]);
          assert !blocks[k + 1].JObj?;
          forall j | 0 <= j < k + 1 ensures !IsTextBlock(blocks[j]) {
            if j > 0 {
              assert blocks[j] == rest[j - 1];
            }
          }
        }
      } else if blocks[0].JObj? {
        assert IsTextBlock(blocks[0]);
      }
    }
  }

  /** The index of the first text block, or `|blocks|` when there is none. */
  function FirstTextIndex(blocks: seq<Json>): (i: nat)
    ensures i <= |blocks|
    ensures i < |blocks| ==> IsTextBlock(blocks[i])
    ensures forall j :: 0 <= j < i ==> !IsTextBlock(blocks[j])
  {
    if blocks == [] then 0
    else if IsTextBlock(blocks[0]) then 0
    else 1 + FirstTextIndex(blocks[1..])
  }

  /** When the loop finishes it returns the `text` of the first text block,
      or "" when there is none. */
  lemma {:induction false} FirstTextBlockValue(blocks: seq<Json>)
    requires FirstTextBlock(blocks).Some?
    ensures var i := FirstTextIndex(blocks);
      FirstTextBlock(blocks).value == (if i < |blocks| then GetOr(blocks[i], "text", JStr("")) else JStr(""))
  {
    if blocks != [] && !IsTextBlock(blocks[0]) {
      FirstTextBlockValue(blocks[1..]);
    }
  }

  /** The response taken from the first assistant message after the prompt:
      "" when its content is falsy; the first text block of a content list;
      None when the content is truthy but not a list (iterating it yields
      strings or raises), or a block before the text block is not an object. */
  function ResponseOf(message: Json): Option<Json>
    requires message.JObj?
  {
    var content := GetOr(message, "content", JNull);
    if !Truthy(content) then Some(JStr(""))
    else if content.JArr? then FirstTextBlock(content.items)
    else None
  }

  /** `get_last_interaction`; None stands for the `(None, None)` it returns
      after an exception or when no user message exists. */
  function LastInteraction(lines: seq<JsonLine>, parse: ParseTime): Option<Interaction>
  {
    match Events(lines)
    case None => None
    case Some(events) => InteractionOf(events, parse)
  }

  /** `get_last_interaction` once every line has parsed. */
  function InteractionOf(events: seq<Json>, parse: ParseTime): Option<Interaction>
  {
    var users := Filter(events, IsUserEvent);
    if users == [] then None else Reply(events, users[|users| - 1], parse)
  }

  /** The rest of `get_last_interaction` once the last user message is known:
      the assistant messages after its timestamp and the pair it returns. */
  function Reply(events: seq<Json>, lastUser: Json, parse: ParseTime): Option<Interaction>
    requires IsUserEvent(lastUser)
  {
    var message := lastUser.fields["message"];
    match EventTime(lastUser, parse)
    case None => None
    case Some(userTime) =>
      var assistants := Filter(events, AssistantAfter(userTime, parse));
      if "content" !in message.fields then None
      else if assistants == [] then Some(Interaction(message.fields["content"], JStr("")))
      else
        match ResponseOf(assistants[0].fields["message"])
        case None => None
        case Some(response) => Some(Interaction(message.fields["content"], response))
  }

  /** Without a user message there is no interaction. */
  lemma NoUserEventNoInteraction(lines: seq<JsonLine>, parse: ParseTime, events: seq<Json>)
    requires Events(lines) == Some(events)
    requires forall i :: 0 <= i < |events| ==> !IsUserEvent(events[i])
    ensures LastInteraction(lines, parse) == None
  {
    FilterEmpty(events, IsUserEvent);
  }

  /** The prompt is the content of the last user message in file order. */
  lemma PromptIsLastUserContent(lines: seq<JsonLine>, parse: ParseTime, x: Interaction)
    requires LastInteraction(lines, parse) == Some(x)
    ensures Events(lines).Some?
    ensures var events := Events(lines).value;
      exists k :: 0 <= k < |events| && IsUserEvent(events[k])
        && (forall j :: k < j < |events| ==> !IsUserEvent(events[j]))
        && "content" in events[k].fields["message"].fields
        && x.prompt == events[k].fields["message"].fields["content"]
  {
    var events := Events(lines).value;
    FilterLast(events, IsUserEvent);
  }

  /** The response is selected from the first assistant message timestamped
      strictly after the last user message (`k`), or is "" when there is none. */
  lemma ResponseFollowsLastUser(lines: seq<JsonLine>, parse: ParseTime, x: Interaction, events: seq<Json>, k: nat)
    requires LastInteraction(lines, parse) == Some(x) && Events(lines) == Some(events)
    requires k < |events| && IsUserEvent(events[k]) && forall j :: k < j < |events| ==> !IsUserEvent(events[j])
    ensures EventTime(events[k], parse).Some?
    ensures var after := EventTime(events[k], parse).value;
      ((forall j :: 0 <= j < |events| ==> !IsAssistantAfter(events[j], after, parse)) && x.response == JStr(""))
      || (exists a :: 0 <= a < |events| && IsAssistantAfter(events[a], after, parse)
            && (forall j :: 0 <= j < a ==> !IsAssistantAfter(events[j], after, parse))
            && ResponseOf(events[a].fields["message"]) == Some(x.response))
  {
    FilterLastAt(events, IsUserEvent, k);
    ReplyResponse(events, events[k], parse, x);
  }

  /** Conversely, an interaction is found when the lines parse, the last user
      message (`k`) has a parsable timestamp and a `content`, and the first
      assistant message after it, if any, yields a response. */
  lemma InteractionFound(lines: seq<JsonLine>, parse: ParseTime, events: seq<Json>, k: nat)
    requires Events(lines) == Some(events)
    requires k < |events| && IsUserEvent(events[k]) && forall j :: k < j < |events| ==> !IsUserEvent(events[j])
    requires EventTime(events[k], parse).Some? && "content" in events[k].fields["message"].fields
    requires var after := EventTime(events[k], parse).value;
      forall a :: 0 <= a < |events| && IsAssistantAfter(events[a], after, parse)
        && (forall j :: 0 <= j < a ==> !IsAssistantAfter(events[j], after, parse))
        ==> ResponseOf(events[a].fields["message"]).Some?
    ensures LastInteraction(lines, parse).Some?
    ensures LastInteraction(lines, parse).value.prompt == events[k].fields["message"].fields["content"]
  {
    FilterLastAt(events, IsUserEvent, k);
    assert LastInteraction(lines, parse) == Reply(events, events[k], parse);
    ReplyFound(events, events[k], parse);
  }

  /** The reply part of `InteractionFound`, for a given user message. */
  lemma ReplyFound(events: seq<Json>, user: Json, parse: ParseTime)
    requires IsUserEvent(user) && EventTime(user, parse).Some? && "content" in user.fields["message"].fields
    requires var after := EventTime(user, parse).value;
      forall a :: 0 <= a < |events| && IsAssistantAfter(events[a], after, parse)
        && (forall j :: 0 <= j < a ==> !IsAssistantAfter(events[j], after, parse))
        ==> ResponseOf(events[a].fields["message"]).Some?
    ensures Reply(events, user, parse).Some?
    ensures Reply(events, user, parse).value.prompt == user.fields["message"].fields["content"]
  {
    var keep := AssistantAfter(EventTime(user, parse).value, parse);
    if Filter(events, keep) != [] {
      FilterFirst(events, keep);
    }
  }

  /** The response part of `ResponseFollowsLastUser`, for a given user message. */
  lemma ReplyResponse(events: seq<Json>, user: Json, parse: ParseTime, x: Interaction)
    requires IsUserEvent(user) && Reply(events, user, parse) == Some(x)
    ensures EventTime(user, parse).Some?
    ensures var after := EventTime(user, parse).value;
      ((forall j :: 0 <= j < |events| ==> !IsAssistantAfter(events[j], after, parse)) && x.response == JStr(""))
      || (exists a :: 0 <= a < |events| && IsAssistantAfter(events[a], after, parse)
            && (forall j :: 0 <= j < a ==> !IsAssistantAfter(events[j], after, parse))
            && ResponseOf(events[a].fields["message"]) == Some(x.response))
  {
    var after := EventTime(user, parse).value;
    var keep := AssistantAfter(after, parse);
    FilterEmpty(events, keep);
    if Filter(events, keep) != [] {
      FilterFirst(events, keep);
    }
  }

  /** Building `events`, one line at a time. */
  method ParseEvents(lines: seq<JsonLine>) returns (r: Option<seq<Json>>)
    ensures r == Events(lines)
  {
    var events: seq<Json> := [];
    var i := 0;
    while i < |lines|
      invariant 0 <= i <= |lines|
      invariant Events(lines[..i]) == Some(events)
    {
      assert lines[..i + 1][..i] == lines[..i];
      if lines[i].Garbled? {
        GarbledLineFails(lines, i);
        return None;
      }
      if lines[i].Record? {
        events := events + [lines[i].value];
      }
      i := i + 1;
    }
    assert lines[..i] == lines;
    return Some(events);
  }

  /** The loop that appends to `user_messages` (a raising event is skipped). */
  method UserMessages(events: seq<Json>) returns (users: seq<Json>)
    ensures users == Filter(events, IsUserEvent)
  {
    users := [];
    for i := 0 to |events|
      invariant users == Filter(events[..i], IsUserEvent)
    {
      assert events[..i + 1] == events[..i] + [events[i]];
      FilterSnoc(events[..i], events[i], IsUserEvent);
      if IsUserEvent(events[i]) {
        users := users + [events[i]];
      }
    }
    assert events[..|events|] == events;
  }

  /** The loop that appends to `assistant_messages`. */
  method AssistantMessages(events: seq<Json>, after: int, parse: ParseTime) returns (assistants: seq<Json>)
    ensures assistants == Filter(events, AssistantAfter(after, parse))
  {
    var keep := AssistantAfter(after, parse);
    assistants := [];
    for i := 0 to |events|
      invariant assistants == Filter(events[..i], keep)
    {
      assert events[..i + 1] == events[..i] + [events[i]];
      FilterSnoc(events[..i], events[i], keep);
      if IsAssistantAfter(events[i], after, parse) {
        assistants := assistants + [events[i]];
      }
    }
    assert events[..|events|] == events;
  }

  /** The loop over the first assistant message's content. */
  method FirstResponse(message: Json) returns (r: Option<Json>)
    requires message.JObj?
    ensures r == ResponseOf(message)
  {
    var content := GetOr(message, "content", JNull);
    if !Truthy(content) {
      return Some(JStr(""));
    }
    if !content.JArr? {
      return None;
    }
    var blocks := content.items;
    var i := 0;
    while i < |blocks|
      invariant 0 <= i <= |blocks|
      invariant FirstTextBlock(blocks[i..]) == FirstTextBlock(blocks)
    {
      assert blocks[i..][1..] == blocks[i + 1..];
      if !blocks[i].JObj? {
        return None;
      }
      if HasString(blocks[i], "type", "text") {
        return Some(GetOr(blocks[i], "text", JStr("")));
      }
      i := i + 1;
    }
    return Some(JStr(""));
  }

  /** `get_last_interaction` over the lines of the transcript. */
  method GetLastInteraction(lines: seq<JsonLine>, parse: ParseTime) returns (r: Option<Interaction>)
    ensures r == LastInteraction(lines, parse)
  {
    var parsed := ParseEvents(lines);
    if parsed.None? {
      return None;
    }
    r := InteractionIn(parsed.value, parse);
  }

  /** The part of `get_last_interaction` after the lines are parsed. */
  method InteractionIn(events: seq<Json>, parse: ParseTime) returns (r: Option<Interaction>)
    ensures r == InteractionOf(events, parse)
  {
    var users := UserMessages(events);
    if users == [] {
      return None;
    }
    var lastUser := users[|users| - 1];
    assert IsUserEvent(lastUser);
    r := ReplyTo(events, lastUser, parse);
  }

  /** The part of `get_last_interaction` after the last user message is found. */
  method ReplyTo(events: seq<Json>, lastUser: Json, parse: ParseTime) returns (r: Option<Interaction>)
    requires IsUserEvent(lastUser)
    ensures r == Reply(events, lastUser, parse)
  {
    var userTime := EventTime(lastUser, parse);
    if userTime.None? {
      return None;
    }
    var assistants := AssistantMessages(events, userTime.value, parse);
    var message := lastUser.fields["message"];
    if "content" !in message.fields {
      return None;
    }
    var response := JStr("");
    if assistants != [] {
      var found := FirstResponse(assistants[0].fields["message"]);
      if found.None? {
        return None;
      }
      response := found.value;
    }
    return Some(Interaction(message.fields["content"], response));
  }

  // ---------------------------------------------------------------------
  // The commit
  // ---------------------------------------------------------------------

  const MaxFileSize: nat := 10 * 1024 * 1024

  /** The host functions the hook calls: the SHA-256 of a file, the
      `size / (1024 * 1024):.2f` rendering and `repr`. */
  datatype Host = Host(sha256: Path -> string, megabytes: nat -> string, repr: Json -> string)

  /** `value[:500] if value else placeholder`, as the f-string prints it;
      None where slicing raises (a truthy value that is neither a string nor
      a list). */
  function Preview(value: Json, placeholder: string, repr: Json -> string): (r: Option<string>)
    ensures !Truthy(value) ==> r == Some(placeholder)
    ensures value.JStr? && Truthy(value) ==>
      r.Some? && |r.value| == (if |value.s| <= 500 then |value.s| else 500) && r.value == value.s[..|r.value|]
    ensures value.JArr? && Truthy(value) ==>
      var kept := if |value.items| <= 500 then value.items else value.items[..500];
      r == Some(repr(JArr(kept)))
    ensures r.None? <==> Truthy(value) && !value.JStr? && !value.JArr?
  {
    if !Truthy(value) then Some(placeholder)
    else match value
      case JStr(s) => Some(Take(s, 500))
      case JArr(items) => Some(repr(JArr(Take(items, 500))))
      case _ => None
  }

  function InteractionMessage(promptPreview: string, responsePreview: string): string {
    "LLM Code Interaction\n\nPrompt: " + promptPreview + "\n\nResponse: " + responsePreview
  }

  /** A staged file over the size limit, as recorded in `large_files`. */
  datatype LargeFile = LargeFile(path: Path, size: nat, sha: string)

  /** A staged-name entry that is kept out of the commit: not empty, present
      in the working tree, and over 10 MiB. */
  predicate IsLarge(p: Path, sizes: map<Path, nat>) {
    p != "" && p in sizes && sizes[p] > MaxFileSize
  }

  function LargeIn(sizes: map<Path, nat>): Path -> bool {
    p => IsLarge(p, sizes)
  }

  /** `large_files`, built over the staged names in order. */
  function LargeFiles(names: seq<Path>, sizes: map<Path, nat>, sha: Path -> string): seq<LargeFile>
  {
    if names == [] then []
    else
      var p := names[|names| - 1];
      LargeFiles(names[..|names| - 1], sizes, sha) + (if IsLarge(p, sizes) then [LargeFile(p, sizes[p], sha(p))] else [])
  }

  function PathsOf(files: seq<LargeFile>): (r: seq<Path>)
    ensures |r| == |files| && forall i :: 0 <= i < |files| ==> r[i] == files[i].path
  {
    if files == [] then [] else PathsOf(files[..|files| - 1]) + [files[|files| - 1].path]
  }

  /** The recorded files are exactly the large staged names, in staged order,
      each with its size and hash. */
  lemma {:induction false} LargeFilesAreTheLargeNames(names: seq<Path>, sizes: map<Path, nat>, sha: Path -> string)
    ensures PathsOf(LargeFiles(names, sizes, sha)) == Filter(names, LargeIn(sizes))
    ensures forall f :: f in LargeFiles(names, sizes, sha) ==> f.path in sizes && f.size == sizes[f.path] && f.sha == sha(f.path)
  {
    if names != [] {
      var n := |names| - 1;
      LargeFilesAreTheLargeNames(names[..n], sizes, sha);
      assert names == names[..n] + [names[n]];
      FilterSnoc(names[..n], names[n], LargeIn(sizes));
      var files := LargeFiles(names, sizes, sha);
      if IsLarge(names[n], sizes) {
        assert files[..|files| - 1] == LargeFiles(names[..n], sizes, sha);
      }
    }
  }

  /** A staged name is recorded as large exactly when it is large. */
  lemma LargeFileMembership(names: seq<Path>, sizes: map<Path, nat>, sha: Path -> string, p: Path)
    ensures p in PathsOf(LargeFiles(names, sizes, sha)) <==> p in names && IsLarge(p, sizes)
  {
    LargeFilesAreTheLargeNames(names, sizes, sha);
    FilterMembership(names, LargeIn(sizes), p);
  }

  /** One line of the footer, without its line break. */
  function FileLineText(f: LargeFile, megabytes: nat -> string): string {
    "  - " + f.path + " (" + megabytes(f.size) + " MB) SHA256: " + f.sha
  }

  function FileLine(f: LargeFile, megabytes: nat -> string): string {
    FileLineText(f, megabytes) + "\n"
  }

  function FileLines(files: seq<LargeFile>, megabytes: nat -> string): string {
    if files == [] then "" else FileLines(files[..|files| - 1], megabytes) + FileLine(files[|files| - 1], megabytes)
  }

  function FooterHead(count: nat): string {
    "\nPrevented commit of " + NatToString(count) + " large file(s) (>10MB):\n"
  }

  /** What is appended to the message when large files were found. */
  function Footer(files: seq<LargeFile>, megabytes: nat -> string): string {
    if files == [] then "" else FooterHead(|files|) + FileLines(files, megabytes)
  }

  /** A string without line breaks. */
  predicate OneLine(s: string) {
    forall i :: 0 <= i < |s| ==> s[i] != '\n'
  }

  lemma OneLineAppend(a: string, b: string)
    requires OneLine(a) && OneLine(b)
    ensures OneLine(a + b)
  {
    forall i | 0 <= i < |a + b| ensures (a + b)[i] != '\n' {
      if i >= |a| {
        assert (a + b)[i] == b[i - |a|];
      }
    }
  }

  lemma {:induction false} OneLineCount(s: string)
    requires OneLine(s)
    ensures Occurrences(s, '\n') == 0
  {
    if s != [] {
      OneLineCount(s[1..]);
    }
  }

  /** When no path, size rendering or hash holds a line break, the footer
      lists exactly one line per large file. */
  lemma FileLineTextIsOneLine(f: LargeFile, megabytes: nat -> string)
    requires OneLine(f.path) && OneLine(megabytes(f.size)) && OneLine(f.sha)
    ensures OneLine(FileLineText(f, megabytes))
  {
    OneLineAppend("  - ", f.path);
    OneLineAppend("  - " + f.path, " (");
    OneLineAppend("  - " + f.path + " (", megabytes(f.size));
    OneLineAppend("  - " + f.path + " (" + megabytes(f.size), " MB) SHA256: ");
    OneLineAppend("  - " + f.path + " (" + megabytes(f.size) + " MB) SHA256: ", f.sha);
  }

  lemma {:induction false} FileLinesCount(files: seq<LargeFile>, megabytes: nat -> string)
    requires forall i :: 0 <= i < |files| ==>
      OneLine(files[i].path) && OneLine(megabytes(files[i].size)) && OneLine(files[i].sha)
    ensures Occurrences(FileLines(files, megabytes), '\n') == |files|
  {
    if files != [] {
      var n := |files| - 1;
      var f := files[n];
      FileLinesCount(files[..n], megabytes);
      var text := FileLineText(f, megabytes);
      FileLineTextIsOneLine(f, megabytes);
      OneLineCount(text);
      OccurrencesAppend(text, "\n", '\n');
      OccurrencesAppend(FileLines(files[..n], megabytes), FileLine(f, megabytes), '\n');
    }
  }

  /** `names` lists each path of `paths` once. */
  ghost predicate ListsOnce(names: seq<Path>, paths: set<Path>) {
    (forall p :: p in names <==> p in paths)
    && forall i, j :: 0 <= i < j < |names| ==> names[i] != names[j]
  }

  /** The large paths among `staged`. */
  function LargeSet(staged: set<Path>, sizes: map<Path, nat>): set<Path> {
    set p | p in staged && IsLarge(p, sizes)
  }

  /** The loop that builds `large_files`. */
  method FindLargeFiles(names: seq<Path>, sizes: map<Path, nat>, sha: Path -> string) returns (large: seq<LargeFile>)
    ensures large == LargeFiles(names, sizes, sha)
  {
    large := [];
    for i := 0 to |names|
      invariant large == LargeFiles(names[..i], sizes, sha)
    {
      assert names[..i + 1][..i] == names[..i];
      var p := names[i];
      if p != "" && p in sizes && sizes[p] > MaxFileSize {
        large := large + [LargeFile(p, sizes[p], sha(p))];
      }
    }
    assert names[..|names|] == names;
  }

  /** The paths of `files`, as a set. */
  function PathSet(files: seq<LargeFile>): set<Path> {
    set p | p in PathsOf(files)
  }

  /** The `git reset HEAD <path>` loop. A failing reset is ignored: `failed`
      holds the paths none of whose resets succeeded, and every other listed
      path is back in the working tree. */
  method UnstageLarge(repo: Repository, large: seq<LargeFile>) returns (ghost failed: set<Path>)
    requires repo.Valid()
    modifies repo
    ensures repo.Valid() && failed <= PathSet(large)
    ensures repo.state == UnstageAll(old(repo.state), PathSet(large) - failed)
  {
    ghost var before := repo.state;
    ghost var moved: set<Path> := {};
    for i := 0 to |large|
      invariant repo.Valid() && moved <= PathSet(large)
      invariant repo.state == UnstageAll(before, moved)
    {
      var p := large[i].path;
      assert p == PathsOf(large)[i];
      var r := repo.Reset(p);
      if r.Succeeded? {
        UnstageStep(before, moved, p);
        moved := moved + {p};
      }
    }
    failed := PathSet(large) - moved;
    assert PathSet(large) - failed == moved;
  }

  /** The footer loop, growing the message with `+=`. */
  method AppendFooter(message: string, large: seq<LargeFile>, megabytes: nat -> string) returns (m: string)
    requires large != []
    ensures m == message + Footer(large, megabytes)
  {
    var head := FooterHead(|large|);
    m := AppendFileLines(message + head, large, megabytes);
    ConcatAssociative(message, head, FileLines(large, megabytes));
  }

  /** The loop that appends one line per large file. */
  method AppendFileLines(head: string, large: seq<LargeFile>, megabytes: nat -> string) returns (m: string)
    ensures m == head + FileLines(large, megabytes)
  {
    m := head;
    for i := 0 to |large|
      invariant m == head + FileLines(large[..i], megabytes)
    {
      assert large[..i + 1][..i] == large[..i];
      assert FileLines(large[..i + 1], megabytes) == FileLines(large[..i], megabytes) + FileLine(large[i], megabytes);
      m := m + FileLine(large[i], megabytes);
    }
    assert large[..|large|] == large;
  }

  /** The message of a hook commit whose previews could be built. */
  function HookMessage(prompt: Json, response: Json, names: seq<Path>, sizes: map<Path, nat>, host: Host): string
    requires Preview(prompt, "(no prompt)", host.repr).Some? && Preview(response, "(no response)", host.repr).Some?
  {
    InteractionMessage(Preview(prompt, "(no prompt)", host.repr).value, Preview(response, "(no response)", host.repr).value)
    + Footer(LargeFiles(names, sizes, host.sha256), host.megabytes)
  }

  /** What a successful `create_commit` did, seen from the state before its
      `git add -A`: one commit on HEAD's branch holding every file `git add -A`
      staged except the large ones whose `git reset` succeeded (`failed` are
      the large ones whose reset failed), with the interaction message and a
      footer listing the large files. The reset large files are left as
      changes in the working tree; tags do not change. */
  ghost predicate HookCommitted(before: RepoState, after: RepoState, prompt: Json, response: Json,
                                sizes: map<Path, nat>, host: Host, failed: set<Path>)
  {
    WellFormed(before) && WellFormed(after) && after.head == before.head
    && (var staged := StageAll(before).staged;
        var c := HeadCommit(after);
        after.history == before.history[after.head := before.history[after.head] + [c]]
        && c.files != {} && failed <= LargeSet(staged, sizes)
        && c.files == staged - (LargeSet(staged, sizes) - failed)
        && after == CommitStaged(UnstageAll(StageAll(before), LargeSet(staged, sizes) - failed), c.message)
        && Preview(prompt, "(no prompt)", host.repr).Some? && Preview(response, "(no response)", host.repr).Some?
        && exists names :: ListsOnce(names, staged) && c.message == HookMessage(prompt, response, names, sizes, host))
  }

  /** A hook commit holds every small file `git add -A` staged, and a large
      file only when resetting it failed. */
  lemma HookCommitExcludesLarge(before: RepoState, after: RepoState, prompt: Json, response: Json,
                                sizes: map<Path, nat>, host: Host, failed: set<Path>, p: Path)
    requires HookCommitted(before, after, prompt, response, sizes, host, failed)
    ensures p in HeadCommit(after).files <==> p in StageAll(before).staged && (IsLarge(p, sizes) ==> p in failed)
  {
  }

  /** What `create_commit` leaves when it makes no commit: nothing changed,
      or `git add -A` ran and some of the large files were reset. */
  ghost predicate NoHookCommit(before: RepoState, after: RepoState, sizes: map<Path, nat>)
  {
    WellFormed(before)
    && (after == before
        || exists moved :: moved <= LargeSet(StageAll(before).staged, sizes) && after == UnstageAll(StageAll(before), moved))
  }

  /** `create_commit`: stage everything, stop when nothing is staged, unstage
      the large files (a failing `git reset` is ignored), and commit with the
      interaction message and the footer. Every error is printed, never
      raised. */
  method CreateCommit(repo: Repository, prompt: Json, response: Json, sizes: map<Path, nat>, host: Host)
    returns (committed: bool, ghost failed: set<Path>)
    requires repo.Valid()
    modifies repo
    ensures repo.Valid() && repo.state.head == old(repo.state.head)
    ensures !repo.isRepo ==> !committed && unchanged(repo)
    ensures !committed ==> repo.state.history == old(repo.state.history)
    ensures committed ==> HookCommitted(old(repo.state), repo.state, prompt, response, sizes, host, failed)
    ensures !committed ==> NoHookCommit(old(repo.state), repo.state, sizes)
  {
    failed := {};
    var top := repo.TopLevel();
    if top.Failed? {
      return false, {};
    }
    var added := repo.AddAll();
    if added.Failed? {
      return false, {};
    }
    UnstageNothing(repo.state);
    var anyStaged := repo.HasStagedChanges();
    if anyStaged == Ok(false) {
      return false, {};
    }
    var promptPreview := Preview(prompt, "(no prompt)", host.repr);
    var responsePreview := Preview(response, "(no response)", host.repr);
    if promptPreview.None? || responsePreview.None? {
      return false, {};
    }
    var message := InteractionMessage(promptPreview.value, responsePreview.value);
    committed, failed := CommitWithoutLargeFiles(repo, message, sizes, host);
  }

  /** The rest of `create_commit` once something is staged: list the staged
      names, unstage the large files, add the footer and commit. */
  method CommitWithoutLargeFiles(repo: Repository, message: string, sizes: map<Path, nat>, host: Host)
    returns (committed: bool, ghost failed: set<Path>)
    requires repo.Valid()
    modifies repo
    ensures repo.Valid() && repo.state.head == old(repo.state.head)
    ensures !committed ==> repo.state.history == old(repo.state.history)
    ensures committed ==>
      var staged := old(repo.state.staged);
      var c := HeadCommit(repo.state);
      repo.state.history == old(repo.state.history)[repo.state.head := old(repo.state.history)[repo.state.head] + [c]]
      && c.files != {} && failed <= LargeSet(staged, sizes)
      && c.files == staged - (LargeSet(staged, sizes) - failed)
      && exists names :: ListsOnce(names, staged)
           && c.message == message + Footer(LargeFiles(names, sizes, host.sha256), host.megabytes)
    ensures committed ==>
      repo.state == CommitStaged(UnstageAll(old(repo.state), LargeSet(old(repo.state.staged), sizes) - failed),
                                 HeadCommit(repo.state).message)
    ensures !committed ==>
      exists moved :: moved <= LargeSet(old(repo.state.staged), sizes) && repo.state == UnstageAll(old(repo.state), moved)
  {
    failed := {};
    ghost var before := repo.state;
    ghost var staged := repo.state.staged;
    UnstageNothing(before);
    var listed := repo.StagedNames();
    if listed.Err? {
      assert repo.state == UnstageAll(before, {});
      return false, {};
    }
    var names := listed.value;
    var large := FindLargeFiles(names, sizes, host.sha256);
    forall p ensures p in PathSet(large) <==> p in LargeSet(staged, sizes) {
      LargeFileMembership(names, sizes, host.sha256, p);
    }
    assert PathSet(large) == LargeSet(staged, sizes);
    var m := message;
    if large != [] {
      failed := UnstageLarge(repo, large);
      m := AppendFooter(message, large, host.megabytes);
    } else {
      assert m == message + Footer(large, host.megabytes);
    }
    ghost var moved := LargeSet(staged, sizes) - failed;
    assert repo.state == UnstageAll(before, moved);
    var result := repo.Commit(m, false);
    committed := result.Succeeded?;
    if committed {
      assert ListsOnce(names, staged);
    }
  }

  // ---------------------------------------------------------------------
  // The hook's entry point
  // ---------------------------------------------------------------------

  /** The branch `main` computes as written: the output of
      `git rev-parse --abbrev-ref HEAD`, or `detached-HEAD` when it is empty.
      The `replace` that follows discards its result. */
  function HookBranchAsWritten(out: string): string {
    if out == "" then "detached-HEAD" else out
  }

  /** `branch.replace('/', '-').replace(' ', '_')` */
  function Sanitize(branch: string): (r: string)
    ensures |r| == |branch|
    ensures forall i :: 0 <= i < |r| ==> r[i] != '/' && r[i] != ' '
  {
    if branch == [] then []
    else [if branch[0] == '/' then '-' else if branch[0] == ' ' then '_' else branch[0]] + Sanitize(branch[1..])
  }

  /** The branch with the replacement kept, as evidently intended. */
  function HookBranch(out: string): string {
    Sanitize(HookBranchAsWritten(out))
  }

  /** The commit is attempted only on a branch named `session-…`. */
  predicate InSession(branch: string) {
    StartsWith(branch, "session-")
  }

  /** `conversation-<branch>.md`, the file name in `llm-sessions/<branch>/`. */
  function ConversationFileName(branch: string): string {
    "conversation-" + branch + ".md"
  }

  /** `llm-sessions/<branch>`, the directory `main` creates with its parents. */
  function SessionDir(branch: string): Path {
    "llm-sessions/" + branch
  }

  /** Where the transcript is copied: `claude_transcript/<name>` in the
      session directory, a directory `main` also creates. */
  function TranscriptCopy(branch: string, name: string): Path {
    SessionDir(branch) + "/claude_transcript/" + name
  }

  /** The conversation file `main` appends to. */
  function ConversationFile(branch: string): Path {
    SessionDir(branch) + "/" + ConversationFileName(branch)
  }

  /** Opening the conversation file for appending fails when its name holds a
      `/`: the name then runs through a directory inside the session
      directory that nothing creates. */
  predicate AppendFails(branch: string) {
    '/' in ConversationFileName(branch)
  }

  /** A branch name with a `/` is exactly one whose conversation file cannot
      be opened. */
  lemma AppendFailsOnSlash(branch: string)
    ensures AppendFails(branch) <==> '/' in branch
  {
    var name := ConversationFileName(branch);
    if '/' in branch {
      var i :| 0 <= i < |branch| && branch[i] == '/';
      assert name[13 + i] == branch[i];
    }
    if AppendFails(branch) {
      var j :| 0 <= j < |name| && name[j] == '/';
      assert 13 <= j < 13 + |branch|;
      assert branch[j - 13] == name[j];
    }
  }

  /** As written, the gate and the file name use the raw branch: on
      `session-a/b` the append fails and the commit is still attempted; on
      `session/x` the append fails and no commit is attempted. */
  lemma ConversationFileNameAsWritten()
    ensures HookBranchAsWritten("session-a/b") == "session-a/b"
    ensures InSession("session-a/b") && AppendFails("session-a/b")
    ensures !InSession("session/x") && AppendFails("session/x")
  {
    assert "session-a/b"[..8] == "session-";
    assert "session/x"[7] == '/';
    assert "session/x"[..8] != "session-";
    AppendFailsOnSlash("session-a/b");
    AppendFailsOnSlash("session/x");
    assert "session-a/b"[9] == '/';
  }

  /** With the replacement kept, the file name never holds a `/`. The session
      gate decides as before except on a branch named `session/…`, which
      sanitizes to `session-…`. */
  lemma HookBranchIsPlain(out: string)
    ensures forall i :: 0 <= i < |ConversationFileName(HookBranch(out))| ==> ConversationFileName(HookBranch(out))[i] != '/'
    ensures !AppendFails(HookBranch(out))
    ensures InSession(HookBranch(out)) <==>
      InSession(HookBranchAsWritten(out)) || StartsWith(HookBranchAsWritten(out), "session/")
  {
    var b := HookBranchAsWritten(out);
    var name := ConversationFileName(HookBranch(out));
    forall i | 0 <= i < |name| ensures name[i] != '/' {
      if 13 <= i < 13 + |b| {
        assert name[i] == HookBranch(out)[i - 13];
      }
    }
    if |b| >= 8 {
      forall i | 0 <= i < 8
        ensures Sanitize(b)[i] == if b[i] == '/' then '-' else if b[i] == ' ' then '_' else b[i]
      {
        SanitizeAt(b, i);
      }
      if InSession(Sanitize(b)) {
        assert forall i :: 0 <= i < 8 ==> Sanitize(b)[i] == "session-"[i];
        assert b[..7] == "session";
        assert b[..8] == "session-" || b[..8] == "session/";
      }
      if InSession(b) || StartsWith(b, "session/") {
        assert forall i :: 0 <= i < 8 ==> Sanitize(b)[i] == "session-"[i];
        assert Sanitize(b)[..8] == "session-";
      }
    }
  }

  /** Sanitizing maps each character on its own. */
  lemma {:induction false} SanitizeAt(s: string, i: nat)
    requires i < |s|
    ensures Sanitize(s)[i] == if s[i] == '/' then '-' else if s[i] == ' ' then '_' else s[i]
  {
    if i > 0 {
      SanitizeAt(s[1..], i - 1);
    }
  }

  /** `Path(p).name`: what follows the last `/`. */
  function BaseName(p: string): (r: string)
    ensures |r| <= |p| && p[|p| - |r|..] == r
    ensures forall i :: 0 <= i < |r| ==> r[i] != '/'
  {
    if p == [] || p[|p| - 1] == '/' then [] else BaseName(p[..|p| - 1]) + [p[|p| - 1]]
  }

  /** The transcript path `main` can use; `None` where it exits with status 1
      before anything changes: input that is not a JSON object, a falsy
      `transcript_path`, or one that `Path` rejects for not being a string. */
  function TranscriptPath(input: Option<Json>): (r: Option<string>)
    ensures r.Some? ==> r.value != ""
  {
    if input.None? || !input.value.JObj? then None
    else
      var p := GetOr(input.value, "transcript_path", JNull);
      if p.JStr? && p.s != "" then Some(p.s) else None
  }

  /** The prompt `main` hands on: that of the last interaction, `None`
      without one. */
  function HookPrompt(transcript: seq<JsonLine>, parse: ParseTime): Json {
    match LastInteraction(transcript, parse)
    case None => JNull
    case Some(x) => x.prompt
  }

  /** The response `main` hands on. */
  function HookResponse(transcript: seq<JsonLine>, parse: ParseTime): Json {
    match LastInteraction(transcript, parse)
    case None => JNull
    case Some(x) => x.response
  }

  /** The working tree after the transcript copy and, unless it fails, the
      append to the conversation file. */
  function HookWritten(s: RepoState, branch: string, name: string): (t: RepoState)
    requires WellFormed(s)
    ensures WellFormed(t) && t.head == s.head && t.history == s.history && t.staged == s.staged
  {
    var copied := Write(s, TranscriptCopy(branch, name));
    if AppendFails(branch) then copied else Write(copied, ConversationFile(branch))
  }

  /** The files the hook writes are among what `create_commit`'s `git add -A`
      stages, so the commit is never skipped for having nothing staged. */
  lemma HookWritesAreStaged(s: RepoState, branch: string, name: string)
    requires WellFormed(s)
    ensures var staged := StageAll(HookWritten(s, branch, name)).staged;
      TranscriptCopy(branch, name) in staged
      && (!AppendFails(branch) ==> ConversationFile(branch) in staged)
  {
    var copy := TranscriptCopy(branch, name);
    var copied := Write(s, copy);
    assert copy in copied.worktree && copy !in copied.vanishing;
    if !AppendFails(branch) {
      var t := Write(copied, ConversationFile(branch));
      assert copy in t.worktree - t.vanishing;
    }
  }

  /** What `main` does once it knows the branch and the transcript's name:
      with `copied` false the copy raised and nothing changed; otherwise the
      files were written, the status is 1 exactly when the append raised, a
      commit on a `session-` branch is what `create_commit` makes of the
      written tree with the last interaction, and off such a branch only the
      files changed. */
  ghost predicate HookOutcome(before: RepoState, after: RepoState, branch: string, name: string, copied: bool,
                              status: nat, committed: bool, failed: set<Path>,
                              prompt: Json, response: Json, sizes: map<Path, nat>, host: Host)
    requires WellFormed(before)
  {
    if !copied then status == 1 && !committed && after == before
    else
      var written := HookWritten(before, branch, name);
      status == (if AppendFails(branch) then 1 else 0)
      && (committed ==> InSession(branch) && HookCommitted(written, after, prompt, response, sizes, host, failed))
      && (!committed ==> after.head == before.head && after.history == before.history
                         && NoHookCommit(written, after, sizes))
      && (!InSession(branch) ==> after == written)
  }

  /** The copy, the interaction, the append and, in the `finally`, the
      commit on a `session-` branch; `copied` says whether `shutil.copy2`
      succeeded. */
  method HookOnBranch(repo: Repository, branch: string, name: string, copied: bool,
                      transcript: seq<JsonLine>, parse: ParseTime, sizes: map<Path, nat>, host: Host)
    returns (status: nat, ghost committed: bool, ghost failed: set<Path>)
    requires repo.Valid()
    modifies repo
    ensures repo.Valid()
    ensures HookOutcome(old(repo.state), repo.state, branch, name, copied, status, committed, failed,
                        HookPrompt(transcript, parse), HookResponse(transcript, parse), sizes, host)
  {
    committed, failed := false, {};
    if !copied {
      return 1, false, {};
    }
    repo.WriteFile(TranscriptCopy(branch, name));
    var interaction := GetLastInteraction(transcript, parse);
    var prompt, response := JNull, JNull;
    if interaction.Some? {
      prompt, response := interaction.value.prompt, interaction.value.response;
    }
    var appendFails := AppendFails(branch);
    if !appendFails {
      repo.WriteFile(ConversationFile(branch));
    }
    status := if appendFails then 1 else 0;
    if InSession(branch) {
      committed, failed := CreateCommit(repo, prompt, response, sizes, host);
    }
  }

  /** `main` as written: read the hook input, find the branch (the
      replacement's result discarded), copy the transcript, append the
      interaction to the conversation file and, on a `session-` branch,
      create the commit. Returns the exit status; a git failure in
      `git rev-parse` gives status 1 with nothing changed. */
  method RunHook(repo: Repository, input: Option<Json>, transcript: seq<JsonLine>, copied: bool,
                 parse: ParseTime, sizes: map<Path, nat>, host: Host)
    returns (status: nat, ghost committed: bool, ghost failed: set<Path>)
    requires repo.Valid()
    modifies repo
    ensures repo.Valid()
    ensures TranscriptPath(input).None? || !repo.isRepo ==> status == 1 && !committed && unchanged(repo)
    ensures (status == 1 && !committed && unchanged(repo))
      || (TranscriptPath(input).Some? && repo.isRepo
          && HookOutcome(old(repo.state), repo.state, HookBranchAsWritten(old(repo.state.head)),
                         BaseName(TranscriptPath(input).value), copied, status, committed, failed,
                         HookPrompt(transcript, parse), HookResponse(transcript, parse), sizes, host))
  {
    committed, failed := false, {};
    if input.None? || !input.value.JObj? {
      return 1, false, {};
    }
    var path := GetOr(input.value, "transcript_path", JNull);
    if !Truthy(path) {
      return 1, false, {};
    }
    var out := repo.CurrentBranch();
    if out.Err? {
      return 1, false, {};
    }
    var branch := HookBranchAsWritten(out.value);
    if !path.JStr? {
      return 1, false, {};
    }
    status, committed, failed := HookOnBranch(repo, branch, BaseName(path.s), copied, transcript, parse, sizes, host);
  }

  /** `main` with the replacement kept: the same steps on the sanitized
      branch, so the append never fails and status 1 always means that
      nothing changed. */
  method RunHookIntended(repo: Repository, input: Option<Json>, transcript: seq<JsonLine>, copied: bool,
                         parse: ParseTime, sizes: map<Path, nat>, host: Host)
    returns (status: nat, ghost committed: bool, ghost failed: set<Path>)
    requires repo.Valid()
    modifies repo
    ensures repo.Valid()
    ensures TranscriptPath(input).None? || !repo.isRepo ==> status == 1 && !committed && unchanged(repo)
    ensures status != 0 ==> status == 1 && !committed && repo.state == old(repo.state)
    ensures (status == 1 && !committed && unchanged(repo))
      || (TranscriptPath(input).Some? && repo.isRepo
          && HookOutcome(old(repo.state), repo.state, HookBranch(old(repo.state.head)),
                         BaseName(TranscriptPath(input).value), copied, status, committed, failed,
                         HookPrompt(transcript, parse), HookResponse(transcript, parse), sizes, host))
  {
    committed, failed := false, {};
    if input.None? || !input.value.JObj? {
      return 1, false, {};
    }
    var path := GetOr(input.value, "transcript_path", JNull);
    if !Truthy(path) {
      return 1, false, {};
    }
    var out := repo.CurrentBranch();
    if out.Err? {
      return 1, false, {};
    }
    var branch := HookBranch(out.value);
    if !path.JStr? {
      return 1, false, {};
    }
    status, committed, failed := HookOnBranch(repo, branch, BaseName(path.s), copied, transcript, parse, sizes, host);
    if copied {
      HookBranchIsPlain(out.value);
      assert status == 0;
    }
  }
}
