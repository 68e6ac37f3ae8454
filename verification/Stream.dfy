/** The success-stream parser of internal/claudeprovider/stream.go: one pass over the lines, one verdict. */
module Stream {
  import opened Wrappers
  import opened Json
  import opened ToolTrace

  // ----- Checks on a single line or block -----

  predicate ToolAllowed(phase: string, name: string) {
    && phase in {"planning", "verification", "build", "review"}
    && (name in {"Read", "Glob", "Grep", "StructuredOutput"}
        || (name in {"Write", "Edit"} && (phase == "build" || phase == "verification")))
  }

  /** Write and Edit attempts in a read-only phase, where the registry itself must answer. */
  predicate ToolRestricted(phase: string, name: string) {
    && !ToolAllowed(phase, name)
    && (phase == "planning" || phase == "review")
    && (name == "Write" || name == "Edit")
  }

  predicate ValidDenial(fields: Fields) {
    forall key :: key in fields ==>
      || key in {"type", "subtype", "uuid", "session_id", "tool_name", "tool_use_id"}
      || (key == "agent_id" && fields[key].Null?)
      || (key == "decision_reason_type"
          && StringField(fields, key) in {"rule", "mode", "safetyCheck", "workingDir", "other"})
      || (key in {"decision_reason", "message"} && fields[key].Str?)
  }

  predicate ValidThinkingTokens(fields: Fields) {
    var total, delta := IntField(fields, "estimated_tokens"), IntField(fields, "estimated_tokens_delta");
    && |fields| == 6 && total.Some? && delta.Some?
    && 0 <= total.value <= 0x10_0000 && 0 <= delta.value <= total.value
  }

  predicate ValidRetry(fields: Fields) {
    var attempt, maximum := IntField(fields, "attempt"), IntField(fields, "max_retries");
    var delay, status := IntField(fields, "retry_delay_ms"), IntField(fields, "error_status");
    && StringField(fields, "subtype") == "api_retry"
    && Category(StringField(fields, "error"))
    && attempt.Some? && maximum.Some? && delay.Some? && status.Some?
    && 1 <= maximum.value <= 15 && 1 <= attempt.value <= maximum.value && 0 <= delay.value <= 60000
    && HttpMatches(StringField(fields, "error"), status.value)
  }

  predicate ValidRateLimit(fields: Fields) {
    var info := ObjectField(fields, "rate_limit_info");
    && |fields| == 4 && info.Some? && |info.value| <= 32
    && StringField(info.value, "status") in {"allowed", "allowed_warning"}
  }

  predicate TextBlock(block: Json) {
    && Object(block).Some?
    && StringField(block.fields, "type") == "text"
    && IsString(block.fields, "text")
  }

  predicate ValidToolResult(content: Json) {
    || content.Str?
    || (content.Arr? && |content.items| <= 128 && forall i :: 0 <= i < |content.items| ==> TextBlock(content.items[i]))
  }

  /** The blocks of an assistant or user message, after its parent, error, role and model checks. */
  function MessageBlocks(model: string, kind: string, fields: Fields): Option<seq<Json>> {
    var message := ObjectField(fields, "message");
    if !IsNull(fields, "parent_tool_use_id") || !AbsentOrNull(fields, "error") then None
    else if message.None? || StringField(message.value, "role") != kind then None
    else if kind == "assistant" && StringField(message.value, "model") != model then None
    else if "content" !in message.value || !message.value["content"].Arr? then None
    else
      var content := message.value["content"].items;
      if 1 <= |content| <= 128 then Some(content) else None
  }

  /** A tool_result block of a user message. */
  function ResultAction(block: Fields): Option<Action> {
    if StringField(block, "type") != "tool_result" then None
    else if "content" !in block || !ValidToolResult(block["content"]) then None
    else if "is_error" in block && !block["is_error"].Bool? then None
    else Some(Answer(StringField(block, "tool_use_id"), BoolField(block, "is_error") == Some(true), block["content"]))
  }

  /** A block of an assistant message: text of some kind, or the use of a tool. */
  function AssistantActions(phase: string, block: Fields): Option<seq<Action>> {
    var kind := StringField(block, "type");
    if kind == "text" then
      if IsString(block, "text") then Some([]) else None
    else if kind == "thinking" then
      if IsString(block, "thinking") && IsString(block, "signature") then Some([]) else None
    else if kind == "redacted_thinking" then
      if IsString(block, "data") then Some([]) else None
    else if kind == "tool_use" then
      var id, name := StringField(block, "id"), StringField(block, "name");
      if !(1 <= |id| <= 256) then None
      else if !ToolAllowed(phase, name) && !ToolRestricted(phase, name) then None
      else if ObjectField(block, "input").None? then None
      else Some([Use(id, name, ToolRestricted(phase, name))])
    else None
  }

  function BlockActions(phase: string, kind: string, block: Json): (r: Option<seq<Action>>)
    ensures r.Some? ==> |r.value| <= 1
  {
    if Object(block).None? then None
    else if kind == "user" then
      match ResultAction(block.fields)
      case None => None
      case Some(a) => Some([a])
    else AssistantActions(phase, block.fields)
  }

  ghost function BlockReader(phase: string, kind: string): Json -> Option<seq<Action>> {
    block => BlockActions(phase, kind, block)
  }

  /** What a line between the first and the last contributes to the history; none when it is malformed. */
  ghost function LineActions(input: PhaseInput, line: Json): Option<seq<Action>> {
    if Object(line).None? then None else
    var fields := line.fields;
    var kind, subtype := StringField(fields, "type"), StringField(fields, "subtype");
    if kind == "system" then
      if subtype == "permission_denied" then
        if !ValidDenial(fields) then None
        else Some([Deny(StringField(fields, "tool_use_id"), StringField(fields, "tool_name"))])
      else if subtype == "thinking_tokens" then
        if ValidThinkingTokens(fields) then Some([]) else None
      else if ValidRetry(fields) then
        Some([Retry(IntField(fields, "attempt").value, IntField(fields, "max_retries").value)])
      else None
    else if kind == "assistant" || kind == "user" then
      match MessageBlocks(input.model, kind, fields)
      case None => None
      case Some(blocks) =>
        match Gather(BlockReader(input.phase, kind), blocks, |blocks|)
        case None => None
        case Some(actions) => Some([if kind == "assistant" then Reply else Feedback] + actions)
    else if kind == "rate_limit_event" then
      if ValidRateLimit(fields) then Some([]) else None
    else None
  }

  predicate IsSuccess(line: Json)
    requires Object(line).Some?
  {
    && StringField(line.fields, "type") == "result"
    && StringField(line.fields, "subtype") == "success"
    && BoolField(line.fields, "is_error") == Some(false)
  }

  // ----- The specification of an accepted stream -----

  ghost function LineReader(input: PhaseInput): Json -> Option<seq<Action>> {
    line => LineActions(input, line)
  }

  /** The history of a stream: everything between its first and its last line. */
  ghost function History(read: Json -> Option<seq<Action>>, lines: seq<Json>): Option<seq<Action>>
    requires |lines| >= 2
  {
    Gather(read, lines[1..], |lines| - 2)
  }

  /** One session whose history is readable, lawful and complete. */
  ghost predicate WholeSession(read: Json -> Option<seq<Action>>, lines: seq<Json>)
    requires |lines| >= 2
  {
    && OneSession(lines)
    && History(read, lines).Some?
    && Lawful(History(read, lines).value)
    && Complete(History(read, lines).value)
  }

  predicate Framed(input: PhaseInput, command: Command) {
    && input.phase in {"planning", "verification", "build", "review"}
    && Envelope(input, command, 0)
    && 2 <= |command.lines| <= 4096
  }

  /** A complete single-session success stream. */
  ghost predicate Accepts(input: PhaseInput, command: Command) {
    && Framed(input, command)
    && WholeSession(LineReader(input), command.lines)
    && IsInit(input.model, command.lines[0])
    && IsSuccess(command.lines[|command.lines| - 1])
  }

  // ----- What single lines contribute -----

  lemma BlocksShaped(phase: string, kind: string)
    ensures ReadsShaped(BlockReader(phase, kind))
  {
  }

  lemma BlockShaped(phase: string, kind: string, block: Json)
    requires BlockActions(phase, kind, block).Some?
    ensures Shaped(BlockActions(phase, kind, block).value)
  {
    BlocksShaped(phase, kind);
    assert BlockReader(phase, kind)(block) == BlockActions(phase, kind, block);
  }

  lemma MessageShaped(input: PhaseInput, line: Json)
    requires LineActions(input, line).Some?
    requires StringField(line.fields, "type") == "assistant" || StringField(line.fields, "type") == "user"
    ensures Shaped(LineActions(input, line).value)
  {
    var kind := StringField(line.fields, "type");
    var blocks := MessageBlocks(input.model, kind, line.fields).value;
    BlocksShaped(input.phase, kind);
    GatherShaped(BlockReader(input.phase, kind), blocks, |blocks|);
  }

  lemma NoticeShaped(input: PhaseInput, line: Json)
    requires LineActions(input, line).Some?
    requires StringField(line.fields, "type") != "assistant" && StringField(line.fields, "type") != "user"
    ensures Shaped(LineActions(input, line).value)
  {
  }

  lemma LinesShaped(input: PhaseInput)
    ensures ReadsShaped(LineReader(input))
  {
    forall line | LineActions(input, line).Some? ensures Shaped(LineActions(input, line).value) {
      if StringField(line.fields, "type") == "assistant" || StringField(line.fields, "type") == "user" {
        MessageShaped(input, line);
      } else {
        NoticeShaped(input, line);
      }
    }
  }

  // ----- The parser -----

  datatype Result = Terminal(line: Json) | Refused

  method EnterOne(a: Action, start: Book, ghost h: seq<Action>) returns (ok: bool, b: Book)
    requires Lawful(h) && Tracks(h, start) && Shaped([a])
    ensures ok <==> Lawful(h + [a])
    ensures ok ==> Tracks(h + [a], b)
  {
    EnterNext(h, start, a);
    var entered := Enter(start, a);
    ok := entered.Some?;
    b := if ok then entered.value else start;
  }

  /** The inner loop over the content blocks of one message. */
  method ReadBlocks(phase: string, kind: string, blocks: seq<Json>, start: Book, ghost h: seq<Action>)
    returns (ok: bool, b: Book)
    requires Lawful(h) && Tracks(h, start)
    ensures ok <==> Continues(BlockReader(phase, kind), blocks, |blocks|, h)
    ensures ok ==> Tracks(h + Gather(BlockReader(phase, kind), blocks, |blocks|).value, b)
  {
    hide Tracks, Lawful, BlockActions, Shaped;
    ghost var read := BlockReader(phase, kind);
    b := start;
    assert h + [] == h;
    for k := 0 to |blocks|
      invariant Continues(read, blocks, k, h)
      invariant Tracks(h + Gather(read, blocks, k).value, b)
    {
      ok := true;
      var actions := BlockActions(phase, kind, blocks[k]);
      if actions.None? {
        ok := false;
      } else {
        GatherNext(read, blocks, k, h);
        ghost var before := h + Gather(read, blocks, k).value;
        if actions.value == [] {
          assert before + [] == before;
        } else {
          assert actions.value == [actions.value[0]];
          BlockShaped(phase, kind, blocks[k]);
          ok, b := EnterOne(actions.value[0], b, before);
        }
      }
      if !ok {
        assert !Continues(read, blocks, k + 1, h);
        if Continues(read, blocks, |blocks|, h) {
          ContinuesPrefix(read, blocks, k + 1, |blocks|, h);
        }
        return;
      }
    }
    ok := true;
  }

  /** A message: its header, then its blocks. */
  method ReadMessage(input: PhaseInput, kind: string, fields: Fields, start: Book, ghost h: seq<Action>)
    returns (ok: bool, b: Book)
    requires Lawful(h) && Tracks(h, start) && StringField(fields, "type") == kind
    requires kind == "assistant" || kind == "user"
    requires |fields| <= 128
    ensures ok <==> LineActions(input, Obj(fields)).Some? && Lawful(h + LineActions(input, Obj(fields)).value)
    ensures ok ==> Tracks(h + LineActions(input, Obj(fields)).value, b)
  {
    hide Tracks, Lawful, MessageBlocks, BlockReader;
    b := start;
    var blocks := MessageBlocks(input.model, kind, fields);
    if blocks.None? {
      return false, b;
    }
    var header := if kind == "assistant" then Reply else Feedback;
    ghost var read := BlockReader(input.phase, kind);
    ghost var actions := Gather(read, blocks.value, |blocks.value|);
    assert actions.Some? ==> h + ([header] + actions.value) == h + [header] + actions.value;
    ok, b := EnterOne(header, start, h);
    if !ok {
      if actions.Some? && Lawful(h + [header] + actions.value) {
        LawfulPrefix(h + [header], actions.value);
      }
      return;
    }
    ok, b := ReadBlocks(input.phase, kind, blocks.value, b, h + [header]);
  }

  /** One line between the first and the last. */
  method ReadLine(input: PhaseInput, line: Json, start: Book, ghost h: seq<Action>) returns (ok: bool, b: Book)
    requires Object(line).Some? && Lawful(h) && Tracks(h, start)
    ensures ok <==> LineActions(input, line).Some? && Lawful(h + LineActions(input, line).value)
    ensures ok ==> Tracks(h + LineActions(input, line).value, b)
  {
    hide Tracks, Lawful;
    b := start;
    var fields := line.fields;
    var kind, subtype := StringField(fields, "type"), StringField(fields, "subtype");
    assert h + [] == h;
    if kind == "system" {
      if subtype == "permission_denied" {
        if !ValidDenial(fields) {
          return false, b;
        }
        ok, b := EnterOne(Deny(StringField(fields, "tool_use_id"), StringField(fields, "tool_name")), start, h);
      } else if subtype == "thinking_tokens" {
        ok := ValidThinkingTokens(fields);
      } else {
        if !ValidRetry(fields) {
          return false, b;
        }
        ok, b := EnterOne(Retry(IntField(fields, "attempt").value, IntField(fields, "max_retries").value), start, h);
      }
    } else if kind == "assistant" || kind == "user" {
      ok, b := ReadMessage(input, kind, fields, start, h);
    } else if kind == "rate_limit_event" {
      ok := ValidRateLimit(fields);
    } else {
      ok := false;
    }
  }

  /** What the loop knows after `index` lines. */
  ghost predicate Progress(read: Json -> Option<seq<Action>>, lines: seq<Json>, index: nat, seen: set<string>,
                           book: Book)
    requires index < |lines|
  {
    && Checked(lines, index) && seen == Ids(lines, index)
    && (index > 0 ==> Object(lines[0]).Some? && Gather(read, lines[1..], index - 1).Some?)
    && Kept(if index > 0 then Gather(read, lines[1..], index - 1).value else [], book)
  }

  /** A lawful history and its exact summary. */
  ghost predicate Kept(h: seq<Action>, book: Book) {
    Lawful(h) && Tracks(h, book)
  }

  lemma IdentityRefused(read: Json -> Option<seq<Action>>, lines: seq<Json>, index: nat)
    requires index < |lines| && |lines| >= 2 && !Checked(lines, index + 1)
    ensures !WholeSession(read, lines)
  {
    hide Checked, SessionUpTo, Lawful, Complete;
    UncheckedStays(lines, index + 1, |lines|);
    CheckedSession(lines, |lines|);
  }

  /** The loop's identity checks, which compare with the first line's session. */
  predicate Passes(lines: seq<Json>, index: nat, seen: set<string>, session: string)
    requires index < |lines|
  {
    Identified(lines[index]) && EventId(lines[index]) !in seen && (index > 0 ==> Session(lines[index]) == session)
  }

  lemma IdentityDecides(read: Json -> Option<seq<Action>>, lines: seq<Json>, index: nat, seen: set<string>, book: Book,
                        session: string)
    requires index < |lines| && Progress(read, lines, index, seen, book)
    requires index > 0 && Object(lines[0]).Some? ==> session == Session(lines[0])
    ensures Passes(lines, index, seen, session) <==> Checked(lines, index + 1)
    ensures index > 0 ==> Object(lines[0]).Some?
  {
    hide ValidId, StringField, Kept, Gather;
  }

  lemma NothingRead(read: Json -> Option<seq<Action>>, lines: seq<Json>)
    requires lines != []
    ensures Progress(read, lines, 0, {}, EMPTY_BOOK)
  {
    NothingTracked();
  }

  lemma FirstLine(read: Json -> Option<seq<Action>>, lines: seq<Json>)
    requires |lines| >= 2 && Identified(lines[0])
    ensures Progress(read, lines, 1, {EventId(lines[0])}, EMPTY_BOOK)
  {
    NothingTracked();
  }

  lemma NextLine(read: Json -> Option<seq<Action>>, lines: seq<Json>, index: nat, seen: set<string>, book: Book,
                 next: Book)
    requires 1 <= index < |lines| - 1 && Progress(read, lines, index, seen, book)
    requires Checked(lines, index + 1) && read(lines[index]).Some?
    requires Lawful(Gather(read, lines[1..], index - 1).value + read(lines[index]).value)
    requires Tracks(Gather(read, lines[1..], index - 1).value + read(lines[index]).value, next)
    ensures Progress(read, lines, index + 1, seen + {EventId(lines[index])}, next)
  {
    var middle := lines[1..];
    assert middle[index - 1] == lines[index];
    assert Gather(read, middle, index).value == Gather(read, middle, index - 1).value + read(middle[index - 1]).value;
  }

  lemma LineRefused(read: Json -> Option<seq<Action>>, lines: seq<Json>, index: nat)
    requires 1 <= index < |lines| - 1 && Gather(read, lines[1..], index - 1).Some?
    requires read(lines[index]).Some? ==> !Lawful(Gather(read, lines[1..], index - 1).value + read(lines[index]).value)
    ensures !WholeSession(read, lines)
  {
    hide OneSession, Complete, Lawful, Gather;
    var middle := lines[1..];
    assert middle[index - 1] == lines[index];
    if History(read, lines).Some? && Lawful(History(read, lines).value) {
      LawfulReading(read, middle, index - 1, |middle| - 1);
    }
  }

  /** At the last line the counters decide. */
  lemma FinalVerdict(read: Json -> Option<seq<Action>>, lines: seq<Json>, seen: set<string>, book: Book)
    requires |lines| >= 2 && Progress(read, lines, |lines| - 1, seen, book)
    requires Checked(lines, |lines|)
    ensures WholeSession(read, lines) <==> |book.tools| == 0 && book.assistants != 0 && book.retryCount == 0
    ensures Object(lines[0]).Some?
  {
    CheckedSession(lines, |lines|);
    TracksComplete(History(read, lines).value, book);
  }

  /** A line that passed the identity checks, between the first and the last. */
  method ReadMiddle(input: PhaseInput, lines: seq<Json>, index: nat, ghost seen: set<string>, book: Book,
                    ghost read: Json -> Option<seq<Action>>)
    returns (ok: bool, next: Book)
    requires 1 <= index < |lines| - 1 && read == LineReader(input)
    requires Progress(read, lines, index, seen, book) && Object(lines[index]).Some? && Checked(lines, index + 1)
    ensures if ok then Progress(read, lines, index + 1, seen + {EventId(lines[index])}, next)
            else !WholeSession(read, lines)
  {
    hide LineActions, WholeSession, Tracks, Lawful, Gather, Progress, Checked, StringField;
    ProgressKept(read, lines, index, seen, book);
    ok, next := ReadLine(input, lines[index], book, Gather(read, lines[1..], index - 1).value);
    if ok {
      NextLine(read, lines, index, seen, book, next);
    } else {
      LineRefused(read, lines, index);
    }
  }

  lemma ProgressKept(read: Json -> Option<seq<Action>>, lines: seq<Json>, index: nat, seen: set<string>, book: Book)
    requires 1 <= index < |lines| && Progress(read, lines, index, seen, book)
    ensures Gather(read, lines[1..], index - 1).Some? && Kept(Gather(read, lines[1..], index - 1).value, book)
  {
    hide Gather, Kept;
  }

  /** The one-pass loop over the lines. */
  method ReadLines(input: PhaseInput, lines: seq<Json>, ghost read: Json -> Option<seq<Action>>) returns (ok: bool)
    requires |lines| >= 2 && read == LineReader(input)
    ensures ok <==> WholeSession(read, lines) && IsInit(input.model, lines[0]) && IsSuccess(lines[|lines| - 1])
  {
    hide IsInit, IsSuccess, WholeSession, ValidId, Gather, Progress, Checked, StringField, LineReader;
    var seen: set<string>, book, session := {}, EMPTY_BOOK, "";
    var index := 0;
    NothingRead(read, lines);
    while true
      invariant 0 <= index < |lines|
      invariant Progress(read, lines, index, seen, book)
      invariant index == 0 ==> seen == {} && book == EMPTY_BOOK
      invariant index > 0 ==> Object(lines[0]).Some? && IsInit(input.model, lines[0]) && session == Session(lines[0])
      decreases |lines| - index
    {
      var line := lines[index];
      IdentityDecides(read, lines, index, seen, book, session);
      if !Passes(lines, index, seen, session) {
        IdentityRefused(read, lines, index);
        return false;
      }
      if index == 0 {
        if !IsInit(input.model, line) {
          return false;
        }
        session := Session(line);
        FirstLine(read, lines);
        assert seen + {EventId(line)} == {EventId(line)};
      } else if index == |lines| - 1 {
        FinalVerdict(read, lines, seen, book);
        return IsSuccess(line) && |book.tools| == 0 && book.assistants != 0 && book.retryCount == 0;
      } else {
        var entered, next := ReadMiddle(input, lines, index, seen, book, read);
        if !entered {
          return false;
        }
        book := next;
      }
      seen := seen + {EventId(line)};
      index := index + 1;
    }
  }

  /** The parser accepts exactly the complete single-session streams, and exposes their last line. */
  method TerminalStreamResult(input: PhaseInput, command: Command) returns (r: Result)
    ensures r.Terminal? <==> Accepts(input, command)
    ensures r.Terminal? ==> r.line == command.lines[|command.lines| - 1]
  {
    hide WholeSession, IsInit, IsSuccess, Envelope, LineReader;
    if !Framed(input, command) {
      return Refused;
    }
    var ok := ReadLines(input, command.lines, LineReader(input));
    r := if ok then Terminal(command.lines[|command.lines| - 1]) else Refused;
  }

  // ----- What acceptance means for a caller -----

  lemma ResultEndsStream(input: PhaseInput, line: Json)
    requires Object(line).Some? && IsSuccess(line)
    ensures LineReader(input)(line).None?
  {
  }

  /** No accepted stream is a proper line-prefix of another, even of one accepted for another phase input: truncation is
      always noticed. */
  lemma AcceptedStreamsAreMaximal(shorter: PhaseInput, a: Command, longer: PhaseInput, b: Command)
    requires Accepts(shorter, a) && Accepts(longer, b)
    requires a.lines <= b.lines
    ensures a.lines == b.lines
  {
    var last := |a.lines| - 1;
    ResultEndsStream(longer, a.lines[last]);
    if |a.lines| < |b.lines| {
      MiddleIsReadable(LineReader(longer), b.lines, last);
    }
  }

  lemma MiddleIsReadable(read: Json -> Option<seq<Action>>, lines: seq<Json>, i: nat)
    requires 1 <= i < |lines| - 1 && History(read, lines).Some?
    ensures read(lines[i]).Some?
  {
    var middle := lines[1..];
    GatherPrefix(read, middle, 0, |middle| - 1);
    assert middle[i - 1] == lines[i];
  }

  /** At most 15 retry notices per assistant message. */
  lemma RetriesAreBounded(input: PhaseInput, command: Command)
    requires Accepts(input, command)
    ensures var h := History(LineReader(input), command.lines).value;
            Count(h, true) <= 15 * Count(h, false)
  {
    LinesShaped(input);
    RetriesInHistory(LineReader(input), command.lines);
  }

  lemma RetriesInHistory(read: Json -> Option<seq<Action>>, lines: seq<Json>)
    requires |lines| >= 2 && WholeSession(read, lines) && ReadsShaped(read)
    ensures Count(History(read, lines).value, true) <= 15 * Count(History(read, lines).value, false)
  {
    GatherShaped(read, lines[1..], |lines| - 2);
    RetriesPaidByReplies(History(read, lines).value);
  }

  /** Every tool use of an accepted stream is answered later and once; a read-only phase's write only by the
      registry. */
  lemma AcceptedToolsAreSettled(input: PhaseInput, command: Command, i: nat)
    requires Accepts(input, command)
    requires var h := History(LineReader(input), command.lines).value; i < |h| && h[i].Use?
    ensures var h := History(LineReader(input), command.lines).value;
            && (exists j :: i < j < |h| && h[j].Answer? && h[j].id == h[i].id && Settles(h[i], h[j]))
            && (forall j, k :: 0 <= j < k < |h| && h[j].Answer? && h[k].Answer? ==> h[j].id != h[k].id)
            && (forall k :: 0 <= k < |h| && k != i && h[k].Use? ==> h[k].id != h[i].id)
  {
    EveryUseAnsweredOnce(History(LineReader(input), command.lines).value, i);
  }
}
