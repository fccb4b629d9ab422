/** The transcript-to-Markdown converter (convert_chat_logs.py): which
    records are noise, how a message's text is extracted and formatted, the
    filter, sort and format pipeline that builds the Markdown document, and
    the per-file counts of the summary. */
module ChatLogs {
  import opened Wrappers
  import opened Text
  import opened SeqUtil
  import opened Json
  import opened StableSort

  /** The exceptions a record can raise in these transforms. */
  datatype PyError = TypeError | AttributeError

  /** Functions of the host this model does not interpret: `repr` (how `str`
      prints a list or a dict), `clean_ansi_codes`, and the rendering
      `parse_timestamp` gives a string (its own argument when it does not parse). */
  datatype Host = Host(repr: Json -> string, cleanAnsi: string -> string, readableTime: string -> string)

  // ---------------------------------------------------------------------
  // extract_message_content
  // ---------------------------------------------------------------------

  /** What one content block adds to `texts`: nothing, a string, or a
      non-string `text` value on which the final join raises. */
  datatype Contribution = Dropped | Kept(text: string) | NotAString

  function Fenced(block: Json, repr: Json -> string): string {
    "```\n" + repr(block) + "\n```"
  }

  function BlockContribution(block: Json, repr: Json -> string): Contribution {
    if !block.JObj? then Dropped
    else if HasString(block, "type", "text") then
      (var t := GetOr(block, "text", JStr("")); if t.JStr? then Kept(t.s) else NotAString)
    else if HasString(block, "type", "tool_use") || HasString(block, "type", "tool_result") then
      Kept(Fenced(block, repr))
    else Dropped
  }

  /** `texts` after the loop over the blocks; None when the join would raise. */
  function Texts(blocks: seq<Json>, repr: Json -> string): Option<seq<string>>
  {
    if blocks == [] then Some([])
    else
      match Texts(blocks[..|blocks| - 1], repr)
      case None => None
      case Some(texts) =>
        match BlockContribution(blocks[|blocks| - 1], repr)
        case Dropped => Some(texts)
        case Kept(t) => Some(texts + [t])
        case NotAString => None
  }

  predicate Contributes(block: Json, repr: Json -> string) {
    BlockContribution(block, repr).Kept?
  }

  function ContributesWith(repr: Json -> string): Json -> bool {
    b => Contributes(b, repr)
  }

  /** The texts are those of the text, `tool_use` and `tool_result` blocks, in
      block order; the join raises exactly when a text block's `text` is not
      a string. */
  lemma {:induction false} TextsInBlockOrder(blocks: seq<Json>, repr: Json -> string)
    ensures Texts(blocks, repr).None? <==> exists i :: 0 <= i < |blocks| && BlockContribution(blocks[i], repr).NotAString?
    ensures Texts(blocks, repr).Some? ==>
      var kept := Filter(blocks, ContributesWith(repr));
      |Texts(blocks, repr).value| == |kept|
      && forall k :: 0 <= k < |kept| ==> BlockContribution(kept[k], repr) == Kept(Texts(blocks, repr).value[k])
  {
    if blocks != [] {
      var n := |blocks| - 1;
      TextsInBlockOrder(blocks[..n], repr);
      assert blocks == blocks[..n] + [blocks[n]];
      FilterSnoc(blocks[..n], blocks[n], ContributesWith(repr));
      assert forall i :: 0 <= i < n ==> blocks[..n][i] == blocks[i];
    }
  }

  /** `extract_message_content`: a string content as it is, the newline-join
      of the texts of a content list, nothing for a dict content (iterating
      it yields only its keys), and `str(message)` for a message that is not
      a dict or has no `content`. */
  function MessageContent(message: Json, repr: Json -> string): Result<string, PyError> {
    if message.JObj? && "content" in message.fields then
      match message.fields["content"]
      case JStr(s) => Ok(s)
      case JArr(blocks) =>
        (match Texts(blocks, repr)
         case None => Err(TypeError)
         case Some(texts) => Ok(Join("\n", texts)))
      case JObj(_) => Ok("")
      case _ => Err(TypeError)
    else Ok(PyStr(message, repr))
  }

  /** The loop of `extract_message_content`. */
  method ExtractMessageContent(message: Json, repr: Json -> string) returns (r: Result<string, PyError>)
    ensures r == MessageContent(message, repr)
  {
    if !(message.JObj? && "content" in message.fields) {
      return Ok(PyStr(message, repr));
    }
    var content := message.fields["content"];
    if content.JStr? {
      return Ok(content.s);
    }
    if content.JObj? {
      return Ok("");
    }
    if !content.JArr? {
      return Err(TypeError);
    }
    var blocks := content.items;
    var texts: seq<string> := [];
    var broken := false;
    for i := 0 to |blocks|
      invariant broken ==> Texts(blocks[..i], repr).None?
      invariant !broken ==> Texts(blocks[..i], repr) == Some(texts)
    {
      assert blocks[..i + 1][..i] == blocks[..i];
      var block := blocks[i];
      if block.JObj? && HasString(block, "type", "text") {
        var t := GetOr(block, "text", JStr(""));
        if t.JStr? {
          texts := texts + [t.s];
        } else {
          broken := true;
        }
      } else if block.JObj? && HasString(block, "type", "tool_use") {
        texts := texts + [Fenced(block, repr)];
      } else if block.JObj? && HasString(block, "type", "tool_result") {
        texts := texts + [Fenced(block, repr)];
      }
    }
    assert blocks[..|blocks|] == blocks;
    if broken {
      return Err(TypeError);
    }
    return Ok(Join("\n", texts));
  }

  // ---------------------------------------------------------------------
  // is_noise_message
  // ---------------------------------------------------------------------

  predicate NoiseType(entry: Json)
    requires entry.JObj?
  {
    HasString(entry, "type", "file-history-snapshot") || HasString(entry, "type", "system")
  }

  predicate IsMeta(entry: Json)
    requires entry.JObj?
  {
    Truthy(GetOr(entry, "isMeta", JBool(false)))
  }

  /** `is_noise_message`. A record that is not a dict raises; a `user` record
      has its content extracted (which may raise) for the
      `local-command-stdout` test, whose outcome is `False` either way. */
  function IsNoise(entry: Json, repr: Json -> string): Result<bool, PyError> {
    if !entry.JObj? then Err(AttributeError)
    else if NoiseType(entry) then Ok(true)
    else if IsMeta(entry) then Ok(true)
    else if HasString(entry, "type", "user") && MessageContent(GetOr(entry, "message", JObj(map[])), repr).Err? then
      Err(MessageContent(GetOr(entry, "message", JObj(map[])), repr).error)
    else Ok(false)
  }

  /** A record is noise exactly when its type is `file-history-snapshot` or
      `system` or its `isMeta` is truthy; it raises only when it is not a
      dict, or is a `user` record whose content cannot be extracted. */
  lemma NoiseExactly(entry: Json, repr: Json -> string)
    ensures IsNoise(entry, repr).Ok? ==> entry.JObj? && (IsNoise(entry, repr).value <==> NoiseType(entry) || IsMeta(entry))
    ensures IsNoise(entry, repr).Err? <==>
      !entry.JObj?
      || (!NoiseType(entry) && !IsMeta(entry) && HasString(entry, "type", "user")
          && MessageContent(GetOr(entry, "message", JObj(map[])), repr).Err?)
  {
  }

  /** The records the pipeline keeps. */
  function Signal(repr: Json -> string): Json -> bool {
    e => IsNoise(e, repr) == Ok(false)
  }

  // ---------------------------------------------------------------------
  // format_message
  // ---------------------------------------------------------------------

  const UserHeader := "### \U{1F464} User - "
  const ToolUseHeader := "### \U{1F916} Tool Use "
  const AssistantHeader := "### \U{1F916} Assistant ("

  /** `parse_timestamp(entry.get('timestamp', ''))` as an f-string prints it:
      a value that is not a string comes back unchanged. */
  function TimestampText(entry: Json, host: Host): string
    requires entry.JObj?
  {
    var ts := GetOr(entry, "timestamp", JStr(""));
    if ts.JStr? then host.readableTime(ts.s) else PyStr(ts, host.repr)
  }

  /** The assistant header, with ` · N tokens` unless `output_tokens` is `N/A`. */
  function AssistantHeading(model: string, timestamp: string, uid: string, tokens: Json, repr: Json -> string): string {
    AssistantHeader + model + ") - " + timestamp + " [" + uid + "]"
    + (if tokens != JStr("N/A") then " \U{B7} " + PyStr(tokens, repr) + " tokens" else "")
  }

  /** The token count is shown exactly when `output_tokens` is not `N/A`
      (a missing count defaults to `N/A`). */
  lemma AssistantHeadingTokens(model: string, timestamp: string, uid: string, tokens: Json, repr: Json -> string)
    ensures var h := AssistantHeading(model, timestamp, uid, tokens, repr);
      StartsWith(h, AssistantHeader) && (EndsWith(h, " tokens") <==> tokens != JStr("N/A"))
  {
    var h := AssistantHeading(model, timestamp, uid, tokens, repr);
    var base := AssistantHeader + model + ") - " + timestamp + " [" + uid + "]";
    assert h[..|AssistantHeader|] == AssistantHeader;
    if tokens == JStr("N/A") {
      assert h == base && h[|h| - 1] == ']';
    } else {
      var tail := " \U{B7} " + PyStr(tokens, repr) + " tokens";
      assert h == base + tail;
      assert h[|h| - |" tokens"|..] == tail[|tail| - |" tokens"|..];
    }
  }

  /** `format_message`: Ok(None) for an entry whose cleaned content is empty
      or whitespace. */
  function FormatMessage(entry: Json, host: Host): Result<Option<string>, PyError> {
    if !entry.JObj? then Err(AttributeError)
    else
      var message := GetOr(entry, "message", JObj(map[]));
      if GetOr(entry, "type", JStr("unknown")) == JStr("user") && !message.JObj? then Err(AttributeError)
      else
        match MessageContent(message, host.repr)
        case Err(e) => Err(e)
        case Ok(raw) =>
          var content := host.cleanAnsi(raw);
          if IsBlank(content) then Ok(None)
          else
            match Entry(entry, content, host)
            case Err(e) => Err(e)
            case Ok(f) => Ok(Some(f))
  }

  /** The text `format_message` builds around content that is not blank: a
      header chosen by the entry's type, then the content. */
  function Entry(entry: Json, content: string, host: Host): Result<string, PyError>
    requires entry.JObj?
  {
    var msgType := GetOr(entry, "type", JStr("unknown"));
    var timestamp := TimestampText(entry, host);
    var message := GetOr(entry, "message", JObj(map[]));
    var uid := PyStr(GetOr(entry, "uuid", JNull), host.repr);
    if msgType == JStr("user") && message.JObj? && GetOr(message, "content", JNull).JStr? then
      Ok(UserHeader + (timestamp + " [" + uid + "]\n\n" + content + "\n"))
    else if msgType == JStr("user") then Ok(ToolUseHeader + (timestamp + " [" + uid + "]\n\n" + content))
    else if msgType == JStr("assistant") then
      if !message.JObj? then Err(AttributeError)
      else
        var usage := GetOr(message, "usage", JObj(map[]));
        if !usage.JObj? then Err(AttributeError)
        else
          var model := PyStr(GetOr(message, "model", JStr("unknown")), host.repr);
          var tokens := GetOr(usage, "output_tokens", JStr("N/A"));
          Ok(AssistantHeading(model, timestamp, uid, tokens, host.repr) + ("\n\n" + content + "\n"))
    else Ok("### " + (timestamp + " [" + uid + "]\n\n" + PyStr(message, host.repr)))
  }

  /** The header of a formatted entry says which kind of entry it is. */
  lemma EntryHeaders(entry: Json, content: string, host: Host)
    requires entry.JObj? && Entry(entry, content, host).Ok?
    ensures var f := Entry(entry, content, host).value;
      var message := GetOr(entry, "message", JObj(map[]));
      StartsWith(f, "### ")
      && (HasString(entry, "type", "user") && message.JObj? && GetOr(message, "content", JNull).JStr?
          ==> StartsWith(f, UserHeader))
      && (HasString(entry, "type", "user") && message.JObj? && !GetOr(message, "content", JNull).JStr?
          ==> StartsWith(f, ToolUseHeader))
      && (HasString(entry, "type", "assistant") ==> StartsWith(f, AssistantHeader))
  {
    var f := Entry(entry, content, host).value;
    var msgType := GetOr(entry, "type", JStr("unknown"));
    var timestamp := TimestampText(entry, host);
    var message := GetOr(entry, "message", JObj(map[]));
    var uid := PyStr(GetOr(entry, "uuid", JNull), host.repr);
    if msgType == JStr("user") {
      if message.JObj? && GetOr(message, "content", JNull).JStr? {
        StartsWithConcat(UserHeader, timestamp + " [" + uid + "]\n\n" + content + "\n");
        assert UserHeader[..4] == "### ";
        StartsWithTransitive(f, UserHeader, "### ");
      } else {
        StartsWithConcat(ToolUseHeader, timestamp + " [" + uid + "]\n\n" + content);
        assert ToolUseHeader[..4] == "### ";
        StartsWithTransitive(f, ToolUseHeader, "### ");
      }
    } else if msgType == JStr("assistant") {
      var usage := GetOr(message, "usage", JObj(map[]));
      var heading := AssistantHeading(PyStr(GetOr(message, "model", JStr("unknown")), host.repr), timestamp, uid,
                                      GetOr(usage, "output_tokens", JStr("N/A")), host.repr);
      AssistantHeadingTokens(PyStr(GetOr(message, "model", JStr("unknown")), host.repr), timestamp, uid,
                             GetOr(usage, "output_tokens", JStr("N/A")), host.repr);
      StartsWithConcat(heading, "\n\n" + content + "\n");
      StartsWithTransitive(f, heading, AssistantHeader);
      assert AssistantHeader[..4] == "### ";
      StartsWithTransitive(f, AssistantHeader, "### ");
    } else {
      StartsWithConcat("### ", timestamp + " [" + uid + "]\n\n" + PyStr(message, host.repr));
    }
  }

  /** An entry is skipped exactly when its cleaned content is blank; otherwise
      the header says which kind of entry it is: a `user` entry with string
      content is the user's, a `user` entry with other content is tool use,
      an `assistant` entry names the model; every formatted entry starts
      with `### `. */
  lemma FormatMessageClassifies(entry: Json, host: Host)
    requires FormatMessage(entry, host).Ok?
    ensures entry.JObj?
    ensures var message := GetOr(entry, "message", JObj(map[]));
      MessageContent(message, host.repr).Ok?
      && (FormatMessage(entry, host).value.None? <==> IsBlank(host.cleanAnsi(MessageContent(message, host.repr).value)))
    ensures FormatMessage(entry, host).value.Some? ==>
      var f := FormatMessage(entry, host).value.value;
      var message := GetOr(entry, "message", JObj(map[]));
      StartsWith(f, "### ")
      && (HasString(entry, "type", "user") && GetOr(message, "content", JNull).JStr? ==> StartsWith(f, UserHeader))
      && (HasString(entry, "type", "user") && !GetOr(message, "content", JNull).JStr? ==> StartsWith(f, ToolUseHeader))
      && (HasString(entry, "type", "assistant") ==> StartsWith(f, AssistantHeader))
  {
    var message := GetOr(entry, "message", JObj(map[]));
    var content := host.cleanAnsi(MessageContent(message, host.repr).value);
    if !IsBlank(content) {
      assert FormatMessage(entry, host) == Ok(Some(Entry(entry, content, host).value));
      EntryHeaders(entry, content, host);
    }
  }

  /** Every formatted entry starts with `### `. */
  lemma FormattedEntriesAreHeadings(host: Host)
    ensures forall e :: FormatMessage(e, host).Ok? && FormatMessage(e, host).value.Some? ==>
      StartsWith(FormatMessage(e, host).value.value, "### ")
  {
    forall e | FormatMessage(e, host).Ok? && FormatMessage(e, host).value.Some?
      ensures StartsWith(FormatMessage(e, host).value.value, "### ")
    {
      FormatMessageClassifies(e, host);
    }
  }

  // ---------------------------------------------------------------------
  // convert_jsonl_to_markdown
  // ---------------------------------------------------------------------

  /** The reading loop: blank and unparseable lines are skipped, noise is
      dropped, and an exception of `is_noise_message` ends the conversion. */
  function KeptMessages(lines: seq<JsonLine>, repr: Json -> string): (r: Result<seq<Json>, PyError>)
    ensures r.Ok? ==> forall i :: 0 <= i < |r.value| ==> r.value[i].JObj?
  {
    if lines == [] then Ok([])
    else
      match KeptMessages(lines[..|lines| - 1], repr)
      case Err(e) => Err(e)
      case Ok(kept) =>
        match lines[|lines| - 1]
        case Record(e) =>
          (match IsNoise(e, repr)
           case Err(x) => Err(x)
           case Ok(noise) => if noise then Ok(kept) else Ok(kept + [e]))
        case _ => Ok(kept)
  }

  /** The values of the lines that parse, in file order. */
  function Records(lines: seq<JsonLine>): seq<Json> {
    if lines == [] then []
    else Records(lines[..|lines| - 1]) + (if lines[|lines| - 1].Record? then [lines[|lines| - 1].value] else [])
  }

  /** The kept messages are exactly the parsed records that are not noise, in
      file order. */
  lemma {:induction false} KeptMessagesAreSignal(lines: seq<JsonLine>, repr: Json -> string)
    requires KeptMessages(lines, repr).Ok?
    ensures KeptMessages(lines, repr).value == Filter(Records(lines), Signal(repr))
  {
    if lines != [] {
      var n := |lines| - 1;
      var init := lines[..n];
      assert KeptMessages(init, repr).Ok?;
      KeptMessagesAreSignal(init, repr);
      if lines[n].Record? {
        var e := lines[n].value;
        assert Records(lines) == Records(init) + [e];
        FilterSnoc(Records(init), e, Signal(repr));
        assert Signal(repr)(e) <==> IsNoise(e, repr) == Ok(false);
      } else {
        assert Records(lines) == Records(init);
      }
    }
  }

  /** Once an exception is raised the rest of the file does not matter. */
  lemma {:induction false} KeptMessagesStaysErr(lines: seq<JsonLine>, repr: Json -> string, n: nat)
    requires n <= |lines| && KeptMessages(lines[..n], repr).Err?
    ensures KeptMessages(lines, repr) == KeptMessages(lines[..n], repr)
  {
    if n < |lines| {
      var m := |lines| - 1;
      assert lines[..m][..n] == lines[..n];
      KeptMessagesStaysErr(lines[..m], repr, n);
    } else {
      assert lines[..n] == lines;
    }
  }

  /** The sort key `x.get('timestamp', '')`. */
  function SortKey(e: Json): string {
    if e.JObj? && "timestamp" in e.fields && e.fields["timestamp"].JStr? then e.fields["timestamp"].s else ""
  }

  /** The session information block, taken from the earliest message. */
  function MetadataLines(first: Json, count: nat, repr: Json -> string): seq<string>
    requires first.JObj?
  {
    ["## Session Information\n",
     "- **Session ID**: `" + PyStr(GetOr(first, "sessionId", JStr("Unknown")), repr) + "`",
     "- **Git Branch**: `" + PyStr(GetOr(first, "gitBranch", JStr("Unknown")), repr) + "`",
     "- **Total Messages**: " + NatToString(count) + "\n"]
  }

  /** The formatter the conversion applies to each message. */
  function Formatter(host: Host): Json -> Result<Option<string>, PyError> {
    e => FormatMessage(e, host)
  }

  /** The message loop: every formatted entry followed by one separator. */
  function ConversationLines(messages: seq<Json>, format: Json -> Result<Option<string>, PyError>)
    : Result<seq<string>, PyError>
  {
    if messages == [] then Ok([])
    else
      match ConversationLines(messages[..|messages| - 1], format)
      case Err(e) => Err(e)
      case Ok(lines) =>
        match format(messages[|messages| - 1])
        case Err(e) => Err(e)
        case Ok(None) => Ok(lines)
        case Ok(Some(f)) => Ok(lines + [f, "---\n"])
  }

  /** The messages that produce an entry. */
  function Formats(format: Json -> Result<Option<string>, PyError>): Json -> bool {
    e => format(e).Ok? && format(e).value.Some?
  }

  /** The lines alternate between the entries of `shown`, formatted, and `---`. */
  predicate Alternates(lines: seq<string>, shown: seq<Json>, format: Json -> Result<Option<string>, PyError>) {
    |lines| == 2 * |shown|
    && forall k :: 0 <= k < |shown| ==> lines[2 * k + 1] == "---\n" && format(shown[k]) == Ok(Some(lines[2 * k]))
  }

  lemma AlternatesSnoc(lines: seq<string>, shown: seq<Json>, format: Json -> Result<Option<string>, PyError>,
                       x: Json, f: string)
    requires Alternates(lines, shown, format) && format(x) == Ok(Some(f))
    ensures Alternates(lines + [f, "---\n"], shown + [x], format)
  {
    var lines' := lines + [f, "---\n"];
    var shown' := shown + [x];
    forall k | 0 <= k < |shown'|
      ensures lines'[2 * k + 1] == "---\n" && format(shown'[k]) == Ok(Some(lines'[2 * k]))
    {
      if k < |shown| {
        assert lines'[2 * k] == lines[2 * k] && lines'[2 * k + 1] == lines[2 * k + 1];
      }
    }
  }

  /** Each formatted entry is followed by exactly one separator: the lines
      alternate between a formatted entry (in message order) and `---`. */
  lemma {:induction false} ConversationAlternates(messages: seq<Json>, format: Json -> Result<Option<string>, PyError>)
    requires ConversationLines(messages, format).Ok?
    ensures Alternates(ConversationLines(messages, format).value, Filter(messages, Formats(format)), format)
  {
    if messages != [] {
      var n := |messages| - 1;
      var init := messages[..n];
      ConversationAlternates(init, format);
      assert messages == init + [messages[n]];
      FilterSnoc(init, messages[n], Formats(format));
      if Formats(format)(messages[n]) {
        AlternatesSnoc(ConversationLines(init, format).value, Filter(init, Formats(format)), format,
                       messages[n], format(messages[n]).value.value);
      }
    }
  }

  lemma {:induction false} ConversationLinesStaysErr(messages: seq<Json>, format: Json -> Result<Option<string>, PyError>,
                                                     n: nat)
    requires n <= |messages| && ConversationLines(messages[..n], format).Err?
    ensures ConversationLines(messages, format) == ConversationLines(messages[..n], format)
  {
    if n < |messages| {
      var m := |messages| - 1;
      assert messages[..m][..n] == messages[..n];
      ConversationLinesStaysErr(messages[..m], format, n);
    } else {
      assert messages[..n] == messages;
    }
  }

  /** With a formatter whose entries start with `### `, every line of the
      conversation is a separator or such an entry. */
  lemma {:induction false} ConversationLinesAreHeadings(messages: seq<Json>,
                                                        format: Json -> Result<Option<string>, PyError>)
    requires ConversationLines(messages, format).Ok?
    requires forall e :: format(e).Ok? && format(e).value.Some? ==> StartsWith(format(e).value.value, "### ")
    ensures var conversation := ConversationLines(messages, format).value;
      forall i :: 0 <= i < |conversation| ==> conversation[i] == "---\n" || StartsWith(conversation[i], "### ")
  {
    if messages != [] {
      ConversationLinesAreHeadings(messages[..|messages| - 1], format);
    }
  }

  /** The document around the formatted conversation: title, conversion
      time, the session information when asked for and there are messages,
      and the conversation heading. */
  function DocumentLines(messages: seq<Json>, conversation: seq<string>, stem: string, converted: string,
                         includeMetadata: bool, repr: Json -> string): seq<string>
  {
    var header := ["# Chat Log: " + stem + "\n", "**Converted**: " + converted + "\n"];
    var metadata :=
      if messages != [] && includeMetadata && messages[0].JObj? then MetadataLines(messages[0], |messages|, repr)
      else [];
    header + metadata + ["---\n", "## Conversation\n"] + conversation
  }

  /** The lines of the Markdown document. */
  function MarkdownLines(lines: seq<JsonLine>, stem: string, converted: string, includeMetadata: bool, host: Host)
    : Result<seq<string>, PyError>
  {
    match KeptMessages(lines, host.repr)
    case Err(e) => Err(e)
    case Ok(kept) =>
      var messages := SortBy(kept, SortKey);
      match ConversationLines(messages, Formatter(host))
      case Err(e) => Err(e)
      case Ok(conversation) => Ok(DocumentLines(messages, conversation, stem, converted, includeMetadata, host.repr))
  }

  /** `convert_jsonl_to_markdown`'s output text. */
  function Markdown(lines: seq<JsonLine>, stem: string, converted: string, includeMetadata: bool, host: Host)
    : Result<string, PyError>
  {
    match MarkdownLines(lines, stem, converted, includeMetadata, host)
    case Err(e) => Err(e)
    case Ok(md) => Ok(Join("\n", md))
  }

  /** The sorted messages are the kept ones, each once, in timestamp order,
      with equal timestamps in file order. */
  lemma SortedMessages(kept: seq<Json>, k: string)
    ensures multiset(SortBy(kept, SortKey)) == multiset(kept)
    ensures SortedBy(SortBy(kept, SortKey), SortKey)
    ensures Filter(SortBy(kept, SortKey), KeyIs(k, SortKey)) == Filter(kept, KeyIs(k, SortKey))
  {
    SortByPermutes(kept, SortKey);
    SortBySorted(kept, SortKey);
    SortByStable(kept, SortKey, k);
  }

  /** Every line of the conversation is a separator or a formatted entry,
      which starts with `### `; so none is the session-information heading. */
  lemma ConversationHasNoMetadata(messages: seq<Json>, host: Host)
    requires ConversationLines(messages, Formatter(host)).Ok?
    ensures var conversation := ConversationLines(messages, Formatter(host)).value;
      forall i :: 0 <= i < |conversation| ==> conversation[i] == "---\n" || StartsWith(conversation[i], "### ")
    ensures "## Session Information\n" !in ConversationLines(messages, Formatter(host)).value
  {
    FormattedEntriesAreHeadings(host);
    ConversationLinesAreHeadings(messages, Formatter(host));
    var conversation := ConversationLines(messages, Formatter(host)).value;
    forall i | 0 <= i < |conversation| ensures conversation[i] != "## Session Information\n" {
      if StartsWith(conversation[i], "### ") {
        assert conversation[i][..4][2] == '#';
      }
    }
  }

  /** Sorting keeps the messages, so the earliest one is a record too. */
  lemma SortedHeadIsObject(kept: seq<Json>)
    requires forall i :: 0 <= i < |kept| ==> kept[i].JObj?
    ensures |SortBy(kept, SortKey)| == |kept|
    ensures SortBy(kept, SortKey) != [] ==> SortBy(kept, SortKey)[0].JObj?
  {
    var messages := SortBy(kept, SortKey);
    SortByPermutes(kept, SortKey);
    assert |messages| == |multiset(messages)| == |multiset(kept)| == |kept|;
    if messages != [] {
      assert messages[0] in multiset(kept);
    }
  }

  /** With a conversation of separators and `### ` entries, the session
      information appears exactly when there are messages and it is asked
      for, and then it counts the messages. */
  lemma DocumentMetadata(messages: seq<Json>, conversation: seq<string>, stem: string, converted: string,
                         includeMetadata: bool, repr: Json -> string)
    requires messages != [] ==> messages[0].JObj?
    requires "## Session Information\n" !in conversation
    ensures var md := DocumentLines(messages, conversation, stem, converted, includeMetadata, repr);
      ("## Session Information\n" in md <==> messages != [] && includeMetadata)
      && (messages != [] && includeMetadata ==> |md| > 5 && md[5] == "- **Total Messages**: " + NatToString(|messages|) + "\n")
  {
    var md := DocumentLines(messages, conversation, stem, converted, includeMetadata, repr);
    var heading := "## Session Information\n";
    var header := ["# Chat Log: " + stem + "\n", "**Converted**: " + converted + "\n"];
    var trailer := ["---\n", "## Conversation\n"];
    assert header[0][1] != heading[1] && header[1][0] != heading[0];
    assert trailer[0][0] != heading[0] && trailer[1][3] != heading[3];
    if messages != [] && includeMetadata {
      var metadata := MetadataLines(messages[0], |messages|, repr);
      assert md == header + metadata + trailer + conversation;
      assert md[2] == heading;
      assert md[5] == metadata[3];
    } else {
      assert md == header + trailer + conversation;
    }
  }

  /** The session information appears exactly when there is a kept message
      and metadata is asked for, and then it counts the kept messages. */
  lemma MetadataWhenMessages(lines: seq<JsonLine>, stem: string, converted: string, includeMetadata: bool, host: Host)
    requires MarkdownLines(lines, stem, converted, includeMetadata, host).Ok?
    ensures KeptMessages(lines, host.repr).Ok?
    ensures var md := MarkdownLines(lines, stem, converted, includeMetadata, host).value;
      var count := |KeptMessages(lines, host.repr).value|;
      ("## Session Information\n" in md <==> count > 0 && includeMetadata)
      && (count > 0 && includeMetadata ==> |md| > 5 && md[5] == "- **Total Messages**: " + NatToString(count) + "\n")
  {
    var kept := KeptMessages(lines, host.repr).value;
    var messages := SortBy(kept, SortKey);
    SortedHeadIsObject(kept);
    var conversation := ConversationLines(messages, Formatter(host)).value;
    ConversationHasNoMetadata(messages, host);
    DocumentMetadata(messages, conversation, stem, converted, includeMetadata, host.repr);
  }

  /** The reading loop of `convert_jsonl_to_markdown`. */
  method ReadMessages(lines: seq<JsonLine>, repr: Json -> string) returns (r: Result<seq<Json>, PyError>)
    ensures r == KeptMessages(lines, repr)
  {
    var messages: seq<Json> := [];
    for i := 0 to |lines|
      invariant KeptMessages(lines[..i], repr) == Ok(messages)
    {
      assert lines[..i + 1][..i] == lines[..i];
      if lines[i].Record? {
        var entry := lines[i].value;
        var noise := IsNoise(entry, repr);
        if noise.Err? {
          KeptMessagesStaysErr(lines, repr, i + 1);
          return Err(noise.error);
        }
        if !noise.value {
          messages := messages + [entry];
        }
      }
    }
    assert lines[..|lines|] == lines;
    return Ok(messages);
  }

  /** The loop of `convert_jsonl_to_markdown` that formats the sorted messages. */
  method FormatConversation(messages: seq<Json>, host: Host) returns (r: Result<seq<string>, PyError>)
    ensures r == ConversationLines(messages, Formatter(host))
  {
    var lines: seq<string> := [];
    for i := 0 to |messages|
      invariant ConversationLines(messages[..i], Formatter(host)) == Ok(lines)
    {
      assert messages[..i + 1][..i] == messages[..i];
      var formatted := FormatMessage(messages[i], host);
      if formatted.Err? {
        ConversationLinesStaysErr(messages, Formatter(host), i + 1);
        return Err(formatted.error);
      }
      if formatted.value.Some? {
        lines := lines + [formatted.value.value, "---\n"];
      }
    }
    assert messages[..|messages|] == messages;
    return Ok(lines);
  }

  /** `convert_jsonl_to_markdown` on the lines of the file: read, sort by
      timestamp, format. */
  method ConvertToMarkdown(lines: seq<JsonLine>, stem: string, converted: string, includeMetadata: bool, host: Host)
    returns (r: Result<string, PyError>)
    ensures r == Markdown(lines, stem, converted, includeMetadata, host)
  {
    var read := ReadMessages(lines, host.repr);
    if read.Err? {
      return Err(read.error);
    }
    var messages := SortBy(read.value, SortKey);
    var conversation := FormatConversation(messages, host);
    if conversation.Err? {
      return Err(conversation.error);
    }
    var md := AssembleDocument(messages, conversation.value, stem, converted, includeMetadata, host.repr);
    return Ok(Join("\n", md));
  }

  /** The lines `convert_jsonl_to_markdown` appends around the conversation. */
  method AssembleDocument(messages: seq<Json>, conversation: seq<string>, stem: string, converted: string,
                          includeMetadata: bool, repr: Json -> string) returns (md: seq<string>)
    ensures md == DocumentLines(messages, conversation, stem, converted, includeMetadata, repr)
  {
    md := ["# Chat Log: " + stem + "\n", "**Converted**: " + converted + "\n"];
    if messages != [] && includeMetadata && messages[0].JObj? {
      md := md + MetadataLines(messages[0], |messages|, repr);
    }
    md := md + ["---\n", "## Conversation\n"] + conversation;
  }

  // ---------------------------------------------------------------------
  // create_summary
  // ---------------------------------------------------------------------

  /** The counters of one file; `JNull` stands for Python's `None`. */
  datatype Summary = Summary(count: nat, first: Json, last: Json, branch: Json)

  /** `entry.get('timestamp')` of a record. */
  function TimestampOf(entry: Json): Json {
    if entry.JObj? then GetOr(entry, "timestamp", JNull) else JNull
  }

  /** `entry.get('gitBranch')` of a record. */
  function BranchOf(entry: Json): Json {
    if entry.JObj? then GetOr(entry, "gitBranch", JNull) else JNull
  }

  /** One counted record's update of the counters. */
  function SummaryStep(s: Summary, entry: Json): Summary
  {
    var ts := TimestampOf(entry);
    Summary(s.count + 1,
            if Truthy(ts) && s.first == JNull then ts else s.first,
            if Truthy(ts) then ts else s.last,
            if s.branch == JNull then BranchOf(entry) else s.branch)
  }

  predicate CountedRecord(line: JsonLine, repr: Json -> string) {
    line.Record? && IsNoise(line.value, repr) == Ok(false)
  }

  /** The records the summary counts: parsed, not noise; a record on which
      `is_noise_message` raises is skipped. */
  function Counted(lines: seq<JsonLine>, repr: Json -> string): (r: seq<Json>)
    ensures forall i :: 0 <= i < |r| ==> r[i].JObj?
  {
    if lines == [] then []
    else
      var last := lines[|lines| - 1];
      Counted(lines[..|lines| - 1], repr) + (if CountedRecord(last, repr) then [last.value] else [])
  }

  /** The counters after a run of counted records. */
  function Fold(entries: seq<Json>): Summary
  {
    if entries == [] then Summary(0, JNull, JNull, JNull)
    else SummaryStep(Fold(entries[..|entries| - 1]), entries[|entries| - 1])
  }

  predicate HasTimestamp(e: Json) {
    Truthy(TimestampOf(e))
  }

  predicate HasBranch(e: Json) {
    BranchOf(e) != JNull
  }

  /** The counters are the number of counted records and the first and the
      last truthy timestamp in file order. */
  lemma {:induction false} FoldCounts(entries: seq<Json>)
    ensures var s := Fold(entries);
      var stamped := Filter(entries, HasTimestamp);
      s.count == |entries|
      && s.first == (if stamped == [] then JNull else TimestampOf(stamped[0]))
      && s.last == (if stamped == [] then JNull else TimestampOf(stamped[|stamped| - 1]))
  {
    if entries != [] {
      var n := |entries| - 1;
      var init := entries[..n];
      FoldCounts(init);
      assert entries == init + [entries[n]];
      FilterSnoc(init, entries[n], HasTimestamp);
      assert Fold(entries) == SummaryStep(Fold(init), entries[n]);
    }
  }

  /** The branch is the first non-null `gitBranch` in file order. */
  lemma {:induction false} FoldBranch(entries: seq<Json>)
    ensures var branched := Filter(entries, HasBranch);
      Fold(entries).branch == (if branched == [] then JNull else BranchOf(branched[0]))
  {
    if entries != [] {
      var n := |entries| - 1;
      var init := entries[..n];
      FoldBranch(init);
      assert entries == init + [entries[n]];
      FilterSnoc(init, entries[n], HasBranch);
      assert Fold(entries) == SummaryStep(Fold(init), entries[n]);
    }
  }

  /** The counting loop of `create_summary` over the lines of one file. */
  method SummarizeFile(lines: seq<JsonLine>, repr: Json -> string) returns (s: Summary)
    ensures s == Fold(Counted(lines, repr))
  {
    s := Summary(0, JNull, JNull, JNull);
    for i := 0 to |lines|
      invariant s == Fold(Counted(lines[..i], repr))
    {
      ghost var before := Counted(lines[..i], repr);
      assert lines[..i + 1][..i] == lines[..i];
      if CountedRecord(lines[i], repr) {
        var entry := lines[i].value;
        assert Counted(lines[..i + 1], repr) == before + [entry];
        assert (before + [entry])[..|before|] == before;
        var msgCount := s.count + 1;
        var first, last, branch := s.first, s.last, s.branch;
        var ts := GetOr(entry, "timestamp", JNull);
        if Truthy(ts) {
          if first == JNull {
            first := ts;
          }
          last := ts;
        }
        if branch == JNull {
          branch := GetOr(entry, "gitBranch", JNull);
        }
        s := Summary(msgCount, first, last, branch);
        assert s == SummaryStep(Fold(before), entry);
      } else {
        assert Counted(lines[..i + 1], repr) == before;
      }
    }
    assert lines[..|lines|] == lines;
  }
}
