/** The success stream as a language of events: which documents show which event, in the literals of the wire format,
    and the proof that the parser accepts exactly the streams of lawful, complete events
    (internal/claudeprovider/stream.go). */
module StreamGrammar {
  import opened Wrappers
  import opened Json
  import opened ToolTrace
  import opened Stream
  import opened StreamLaws

  datatype Block =
    | Text
    | Thinking
    | Redacted
    | ToolUse(id: string, name: string)
    | ToolResult(id: string, failed: bool, content: Json)

  datatype Event =
    | Denied(id: string, name: string)
    | Estimate(total: int, delta: int)
    | Again(attempt: int, maximum: int, delay: int, category: string, status: int)
    | Message(kind: string, blocks: seq<Block>)
    | RateLimit(state: string)

  // ----- Documents -----

  predicate Phase(phase: string) {
    phase in {"planning", "verification", "build", "review"}
  }

  predicate Counts(fields: Fields, key: string, n: int) {
    key in fields && fields[key] == Int(n)
  }

  /** A document of this type and subtype. */
  predicate Doc(x: Json, kind: string, subtype: string) {
    x.Obj? && |x.fields| <= 128 && Says(x.fields, "type", kind) && Says(x.fields, "subtype", subtype)
  }

  predicate InitDoc(x: Json, model: string) {
    Doc(x, "system", "init") && Says(x.fields, "model", model)
  }

  predicate SuccessDoc(x: Json) {
    Doc(x, "result", "success") && "is_error" in x.fields && x.fields["is_error"] == Bool(false)
  }

  /** The failure categories with the HTTP statuses they may carry. */
  const STATUSES: seq<(string, int, int)> :=
    [("server_error", 500, 599), ("rate_limit", 429, 429), ("authentication_failed", 401, 401),
     ("authentication_failed", 403, 403), ("oauth_org_not_allowed", 403, 403), ("billing_error", 402, 402),
     ("billing_error", 429, 429), ("invalid_request", 400, 400), ("max_output_tokens", 400, 400),
     ("model_not_found", 404, 404)]

  ghost predicate Failure(category: string, status: int) {
    exists k :: 0 <= k < |STATUSES| && STATUSES[k].0 == category && STATUSES[k].1 <= status <= STATUSES[k].2
  }

  lemma FailureStatuses(category: string, status: int)
    ensures Failure(category, status) <==> Category(category) && HttpMatches(category, status)
  {
    assert STATUSES[0].0 == "server_error" && STATUSES[1].0 == "rate_limit" && STATUSES[2].0 == "authentication_failed"
        && STATUSES[3].0 == "authentication_failed" && STATUSES[4].0 == "oauth_org_not_allowed"
        && STATUSES[5].0 == "billing_error" && STATUSES[6].0 == "billing_error" && STATUSES[7].0 == "invalid_request"
        && STATUSES[8].0 == "max_output_tokens" && STATUSES[9].0 == "model_not_found";
  }

  predicate RetryDoc(x: Json, attempt: int, maximum: int, delay: int, category: string, status: int) {
    && Doc(x, "system", "api_retry") && Counts(x.fields, "attempt", attempt) && Counts(x.fields, "max_retries", maximum)
    && Counts(x.fields, "retry_delay_ms", delay) && Says(x.fields, "error", category)
    && Counts(x.fields, "error_status", status)
  }

  predicate Has(fields: Fields, key: string) {
    key in fields && fields[key].Str?
  }

  /** The field is this text; a missing field, or one that is not a text, counts as the empty one. */
  predicate Tells(fields: Fields, key: string, text: string) {
    Says(fields, key, text) || (!Has(fields, key) && text == "")
  }

  predicate Bounded(x: Json) {
    x.Obj? && |x.fields| <= 128
  }

  /** What a tool may return: a text, or up to 128 text blocks. */
  predicate Returnable(content: Json) {
    || content.Str?
    || (content.Arr? && |content.items| <= 128
        && forall i :: 0 <= i < |content.items| ==>
             Bounded(content.items[i]) && Says(content.items[i].fields, "type", "text")
             && Has(content.items[i].fields, "text"))
  }

  predicate ShowsBlock(phase: string, kind: string, x: Json, b: Block) {
    && Bounded(x)
    && match b
       case Text => kind == "assistant" && Says(x.fields, "type", "text") && Has(x.fields, "text")
       case Thinking =>
         && kind == "assistant" && Says(x.fields, "type", "thinking")
         && Has(x.fields, "thinking") && Has(x.fields, "signature")
       case Redacted => kind == "assistant" && Says(x.fields, "type", "redacted_thinking") && Has(x.fields, "data")
       case ToolUse(id, name) =>
         && kind == "assistant" && Says(x.fields, "type", "tool_use")
         && Says(x.fields, "id", id) && 1 <= |id| <= 256
         && Phase(phase) && Says(x.fields, "name", name)
         && name in {"Read", "Glob", "Grep", "StructuredOutput", "Write", "Edit"}
         && "input" in x.fields && Bounded(x.fields["input"])
       case ToolResult(id, failed, content) =>
         && kind == "user" && Says(x.fields, "type", "tool_result") && Tells(x.fields, "tool_use_id", id)
         && "content" in x.fields && x.fields["content"] == content && Returnable(content)
         && (if "is_error" in x.fields then x.fields["is_error"] == Bool(failed) else !failed)
  }

  predicate ShowsDenial(x: Json, id: string, name: string) {
    && Bounded(x) && Says(x.fields, "type", "system") && Says(x.fields, "subtype", "permission_denied")
    && Tells(x.fields, "tool_use_id", id) && Tells(x.fields, "tool_name", name)
    && x.fields.Keys <= {"type", "subtype", "uuid", "session_id", "tool_name", "tool_use_id", "agent_id",
                         "decision_reason_type", "decision_reason", "message"}
    && ("agent_id" in x.fields ==> x.fields["agent_id"] == Null)
    && ("decision_reason" in x.fields ==> Has(x.fields, "decision_reason"))
    && ("message" in x.fields ==> Has(x.fields, "message"))
    && ("decision_reason_type" in x.fields ==>
          x.fields["decision_reason_type"] in
            {Str("rule"), Str("mode"), Str("safetyCheck"), Str("workingDir"), Str("other")})
  }

  predicate ShowsMessage(phase: string, model: string, x: Json, kind: string, blocks: seq<Block>) {
    && Bounded(x) && (kind == "assistant" || kind == "user") && Says(x.fields, "type", kind)
    && "parent_tool_use_id" in x.fields && x.fields["parent_tool_use_id"] == Null
    && ("error" in x.fields ==> x.fields["error"] == Null)
    && "message" in x.fields && Bounded(x.fields["message"])
    && var message := x.fields["message"].fields;
    && Says(message, "role", kind) && (kind == "assistant" ==> Tells(message, "model", model))
    && "content" in message && message["content"].Arr?
    && 1 <= |message["content"].items| == |blocks| <= 128
    && forall i :: 0 <= i < |blocks| ==> ShowsBlock(phase, kind, message["content"].items[i], blocks[i])
  }

  /** The line shows the event. */
  ghost predicate Shows(input: PhaseInput, x: Json, e: Event) {
    && Bounded(x)
    && match e
       case Denied(id, name) => ShowsDenial(x, id, name)
       case Estimate(total, delta) =>
         && Says(x.fields, "type", "system") && Says(x.fields, "subtype", "thinking_tokens") && |x.fields| == 6
         && Counts(x.fields, "estimated_tokens", total) && Counts(x.fields, "estimated_tokens_delta", delta)
         && 0 <= delta <= total <= 1048576
       case Again(attempt, maximum, delay, category, status) =>
         && RetryDoc(x, attempt, maximum, delay, category, status)
         && 1 <= attempt <= maximum <= 15 && 0 <= delay <= 60000 && Failure(category, status)
       case Message(kind, blocks) => ShowsMessage(input.phase, input.model, x, kind, blocks)
       case RateLimit(state) =>
         && Says(x.fields, "type", "rate_limit_event") && |x.fields| == 4
         && "rate_limit_info" in x.fields && x.fields["rate_limit_info"].Obj?
         && |x.fields["rate_limit_info"].fields| <= 32
         && Says(x.fields["rate_limit_info"].fields, "status", state)
         && (state == "allowed" || state == "allowed_warning")
  }

  // ----- Identity -----

  /** The text of a lower-case UUID that is not nil, position by position. */
  predicate Uuid(value: string) {
    && |value| == 36
    && (forall i :: 0 <= i < 36 ==>
          if i in {8, 13, 18, 23} then value[i] == '-' else '0' <= value[i] <= '9' || 'a' <= value[i] <= 'f')
    && exists i :: 0 <= i < 36 && value[i] != '0' && value[i] != '-'
  }

  lemma {:induction false} CharactersEach(value: string, i: nat)
    ensures IdCharacters(value, i) <==>
              forall k :: i <= k < |value| ==> if k in {8, 13, 18, 23} then value[k] == '-' else HexDigit(value[k])
    decreases |value| - i
  {
    if i < |value| {
      CharactersEach(value, i + 1);
    }
  }

  lemma {:induction false} ZerosEach(n: nat)
    ensures |Zeros(n)| == n && forall i :: 0 <= i < n ==> Zeros(n)[i] == '0'
  {
    if n > 0 {
      ZerosEach(n - 1);
    }
  }

  lemma NilEach()
    ensures |NilId()| == 36
    ensures forall i :: 0 <= i < 36 ==> NilId()[i] == if i in {8, 13, 18, 23} then '-' else '0'
  {
    hide Zeros;
    ZerosEach(8);
    ZerosEach(4);
    ZerosEach(12);
  }

  lemma UuidsAreValid(value: string)
    ensures ValidId(value) <==> Uuid(value)
  {
    hide NilId, IdCharacters;
    CharactersEach(value, 0);
    NilEach();
    if |value| == 36 && IdCharacters(value, 0) {
      if forall i :: 0 <= i < 36 ==> value[i] == '0' || value[i] == '-' {
        assert forall i :: 0 <= i < 36 ==> value[i] == NilId()[i];
        assert value == NilId();
      }
    }
  }

  /** A session and different event ids, all of them UUIDs, on the lines of a stream. */
  ghost predicate Numbered(lines: seq<Json>) {
    && (forall i :: 0 <= i < |lines| ==> lines[i].Obj? && |lines[i].fields| <= 128)
    && (forall i :: 0 <= i < |lines| ==> Uuid(StringField(lines[i].fields, "uuid")))
    && (forall i, j :: 0 <= i < j < |lines| ==>
          StringField(lines[i].fields, "uuid") != StringField(lines[j].fields, "uuid"))
    && exists session :: Uuid(session) && forall i :: 0 <= i < |lines| ==> Says(lines[i].fields, "session_id", session)
  }

  lemma NumberedIsOneSession(lines: seq<Json>)
    requires Numbered(lines)
    ensures OneSession(lines)
  {
    hide Uuid, ValidId;
    var session :| Uuid(session) && forall i :: 0 <= i < |lines| ==> Says(lines[i].fields, "session_id", session);
    UuidsAreValid(session);
    forall i | 0 <= i < |lines| ensures Identified(lines[i]) && Session(lines[i]) == session {
      UuidsAreValid(StringField(lines[i].fields, "uuid"));
    }
  }

  lemma OneSessionIsNumbered(lines: seq<Json>)
    requires lines != [] && OneSession(lines)
    ensures Numbered(lines)
  {
    hide Uuid, ValidId;
    var session := Session(lines[0]);
    UuidsAreValid(session);
    NotEmpty(session);
    forall i | 0 <= i < |lines|
      ensures Uuid(StringField(lines[i].fields, "uuid")) && Says(lines[i].fields, "session_id", session)
    {
      assert Identified(lines[i]) && Session(lines[i]) == session;
      UuidsAreValid(StringField(lines[i].fields, "uuid"));
    }
    assert forall i, j :: 0 <= i < j < |lines| ==> EventId(lines[i]) != EventId(lines[j]);
  }

  lemma NotEmpty(id: string)
    requires Uuid(id)
    ensures id != ""
  {
  }

  // ----- What events mean -----

  /** A block's part in the history. A Write or Edit of a read-only phase is marked, for the registry to answer. */
  function BlockMeans(phase: string, b: Block): seq<Action> {
    match b
    case ToolUse(id, name) => [Use(id, name, name in {"Write", "Edit"} && phase in {"planning", "review"})]
    case ToolResult(id, failed, content) => [Answer(id, failed, content)]
    case _ => []
  }

  function BlocksMean(phase: string, blocks: seq<Block>): seq<Action> {
    if blocks == [] then []
    else BlocksMean(phase, blocks[..|blocks| - 1]) + BlockMeans(phase, blocks[|blocks| - 1])
  }

  function EventMeans(phase: string, e: Event): seq<Action> {
    match e
    case Denied(id, name) => [Deny(id, name)]
    case Again(attempt, maximum, _, _, _) => [Retry(attempt, maximum)]
    case Message(kind, blocks) => [if kind == "assistant" then Reply else Feedback] + BlocksMean(phase, blocks)
    case _ => []
  }

  function EventsMean(phase: string, events: seq<Event>): seq<Action> {
    if events == [] then []
    else EventsMean(phase, events[..|events| - 1]) + EventMeans(phase, events[|events| - 1])
  }

  // ----- Blocks -----

  lemma ReturnableExactly(content: Json)
    ensures ValidToolResult(content) <==> Returnable(content)
  {
  }

  lemma BlockRead(phase: string, kind: string, x: Json, b: Block)
    requires ShowsBlock(phase, kind, x, b)
    ensures BlockActions(phase, kind, x) == Some(BlockMeans(phase, b))
  {
    hide ValidToolResult, Returnable;
    if b.ToolResult? {
      ReturnableExactly(b.content);
    }
  }

  lemma BlockShown(phase: string, kind: string, x: Json) returns (b: Block)
    requires (kind == "assistant" || kind == "user") && BlockActions(phase, kind, x).Some?
    ensures ShowsBlock(phase, kind, x, b)
  {
    hide ValidToolResult, Returnable;
    var fields := x.fields;
    if kind == "user" {
      ReturnableExactly(fields["content"]);
      b := ToolResult(StringField(fields, "tool_use_id"), BoolField(fields, "is_error") == Some(true),
                      fields["content"]);
    } else if Says(fields, "type", "text") {
      b := Text;
    } else if Says(fields, "type", "thinking") {
      b := Thinking;
    } else if Says(fields, "type", "redacted_thinking") {
      b := Redacted;
    } else {
      b := ToolUse(StringField(fields, "id"), StringField(fields, "name"));
    }
  }

  lemma {:induction false} BlocksRead(phase: string, kind: string, items: seq<Json>, blocks: seq<Block>, n: nat)
    requires n <= |items| == |blocks| && forall i :: 0 <= i < n ==> ShowsBlock(phase, kind, items[i], blocks[i])
    ensures Gather(BlockReader(phase, kind), items, n) == Some(BlocksMean(phase, blocks[..n]))
  {
    hide ShowsBlock, BlockMeans, BlockActions;
    if n > 0 {
      BlocksRead(phase, kind, items, blocks, n - 1);
      BlockRead(phase, kind, items[n - 1], blocks[n - 1]);
      assert blocks[..n][..n - 1] == blocks[..n - 1];
    }
  }

  lemma {:induction false} BlocksShown(phase: string, kind: string, items: seq<Json>, n: nat)
    returns (blocks: seq<Block>)
    requires (kind == "assistant" || kind == "user") && n <= |items|
    requires Gather(BlockReader(phase, kind), items, n).Some?
    ensures |blocks| == n && forall i :: 0 <= i < n ==> ShowsBlock(phase, kind, items[i], blocks[i])
  {
    hide ShowsBlock, BlockActions;
    blocks := [];
    if n > 0 {
      blocks := BlocksShown(phase, kind, items, n - 1);
      var b := BlockShown(phase, kind, items[n - 1]);
      blocks := blocks + [b];
    }
  }

  // ----- Lines -----

  lemma MessageRead(input: PhaseInput, x: Json, kind: string, blocks: seq<Block>)
    requires Bounded(x) && ShowsMessage(input.phase, input.model, x, kind, blocks)
    ensures LineActions(input, x) == Some(EventMeans(input.phase, Message(kind, blocks)))
  {
    hide ShowsBlock, BlockActions, Gather, ValidDenial, ValidRetry, ValidThinkingTokens, ValidRateLimit;
    var items := x.fields["message"].fields["content"].items;
    assert MessageBlocks(input.model, kind, x.fields) == Some(items);
    BlocksRead(input.phase, kind, items, blocks, |items|);
    assert blocks[..|items|] == blocks;
  }

  lemma DenialExactly(x: Json)
    requires Bounded(x) && Says(x.fields, "type", "system") && Says(x.fields, "subtype", "permission_denied")
    ensures ValidDenial(x.fields) <==>
              ShowsDenial(x, StringField(x.fields, "tool_use_id"), StringField(x.fields, "tool_name"))
  {
    if ValidDenial(x.fields) {
      assert forall key :: key in x.fields.Keys ==> key in x.fields;
    }
    if ShowsDenial(x, StringField(x.fields, "tool_use_id"), StringField(x.fields, "tool_name")) {
      forall key | key in x.fields
        ensures || key in {"type", "subtype", "uuid", "session_id", "tool_name", "tool_use_id"}
                || (key == "agent_id" && x.fields[key].Null?)
                || (key == "decision_reason_type"
                    && StringField(x.fields, key) in {"rule", "mode", "safetyCheck", "workingDir", "other"})
                || (key in {"decision_reason", "message"} && x.fields[key].Str?)
      {
        assert key in x.fields.Keys;
      }
    }
  }

  lemma DenialRead(input: PhaseInput, x: Json, id: string, name: string)
    requires Bounded(x) && ShowsDenial(x, id, name)
    ensures LineActions(input, x) == Some([Deny(id, name)])
  {
    hide ValidDenial, Gather, ValidRetry, ValidThinkingTokens, ValidRateLimit, MessageBlocks;
    DenialExactly(x);
  }

  lemma AgainRead(input: PhaseInput, x: Json, e: Event)
    requires e.Again? && Shows(input, x, e)
    ensures LineActions(input, x) == Some(EventMeans(input.phase, e))
  {
    hide Failure, Category, HttpMatches, Gather, ValidDenial, MessageBlocks;
    FailureStatuses(e.category, e.status);
  }

  /** A line that shows an event is read as what the event means. */
  lemma EventRead(input: PhaseInput, x: Json, e: Event)
    requires Shows(input, x, e)
    ensures LineActions(input, x) == Some(EventMeans(input.phase, e))
  {
    hide ShowsDenial, ShowsMessage, BlocksMean, Gather, ValidDenial, MessageBlocks, ValidRetry;
    match e
    case Denied(id, name) => DenialRead(input, x, id, name);
    case Again(_, _, _, _, _) => AgainRead(input, x, e);
    case Message(kind, blocks) => MessageRead(input, x, kind, blocks);
    case _ =>
  }

  lemma MessageShown(input: PhaseInput, x: Json, kind: string) returns (blocks: seq<Block>)
    requires Bounded(x) && Says(x.fields, "type", kind) && (kind == "assistant" || kind == "user")
    requires LineActions(input, x).Some?
    ensures ShowsMessage(input.phase, input.model, x, kind, blocks)
  {
    hide ShowsBlock, BlockActions, Gather;
    var items := MessageBlocks(input.model, kind, x.fields).value;
    blocks := BlocksShown(input.phase, kind, items, |items|);
  }

  lemma AgainShown(input: PhaseInput, x: Json) returns (e: Event)
    requires Bounded(x) && Says(x.fields, "type", "system") && ValidRetry(x.fields)
    ensures Shows(input, x, e)
  {
    hide Failure, HttpMatches;
    var f := x.fields;
    e := Again(IntField(f, "attempt").value, IntField(f, "max_retries").value, IntField(f, "retry_delay_ms").value,
               StringField(f, "error"), IntField(f, "error_status").value);
    FailureStatuses(e.category, e.status);
  }

  /** Every line the parser can read shows an event. */
  lemma EventShown(input: PhaseInput, x: Json) returns (e: Event)
    requires LineActions(input, x).Some?
    ensures Shows(input, x, e)
  {
    hide ShowsDenial, ShowsMessage, Gather, ValidDenial, MessageBlocks, ValidRetry, RetryDoc, Failure;
    var fields := x.fields;
    var kind, subtype := StringField(fields, "type"), StringField(fields, "subtype");
    if kind == "assistant" || kind == "user" {
      var blocks := MessageShown(input, x, kind);
      e := Message(kind, blocks);
    } else if kind == "rate_limit_event" {
      e := RateLimit(StringField(fields["rate_limit_info"].fields, "status"));
    } else if subtype == "permission_denied" {
      DenialExactly(x);
      e := Denied(StringField(fields, "tool_use_id"), StringField(fields, "tool_name"));
    } else if subtype == "thinking_tokens" {
      e := Estimate(IntField(fields, "estimated_tokens").value, IntField(fields, "estimated_tokens_delta").value);
    } else {
      e := AgainShown(input, x);
    }
  }

  lemma {:induction false} EventsRead(input: PhaseInput, items: seq<Json>, events: seq<Event>, n: nat)
    requires n <= |items| && n <= |events| && forall i :: 0 <= i < n ==> Shows(input, items[i], events[i])
    ensures Gather(LineReader(input), items, n) == Some(EventsMean(input.phase, events[..n]))
  {
    hide Shows, EventMeans, LineActions;
    if n > 0 {
      EventsRead(input, items, events, n - 1);
      EventRead(input, items[n - 1], events[n - 1]);
      assert events[..n][..n - 1] == events[..n - 1];
    }
  }

  lemma {:induction false} EventsShown(input: PhaseInput, items: seq<Json>, n: nat) returns (events: seq<Event>)
    requires n <= |items| && Gather(LineReader(input), items, n).Some?
    ensures |events| == n && forall i :: 0 <= i < n ==> Shows(input, items[i], events[i])
  {
    hide Shows, LineActions;
    events := [];
    if n > 0 {
      events := EventsShown(input, items, n - 1);
      var e := EventShown(input, items[n - 1]);
      events := events + [e];
    }
  }

  // ----- Streams -----

  /** A supported launch and a clean exit within the output bounds. */
  predicate CleanProcess(input: PhaseInput, command: Command) {
    && Phase(input.phase) && input.provider == "claude" && input.version == "2.1.263"
    && input.model in {"claude-sonnet-4-6", "claude-opus-4-6", "claude-sonnet-5", "claude-opus-5"}
    && input.family == "anthropic-claude" && input.authMode == "claude_subscription"
    && input.profile == "qualified_guarded"
    && command.exitCode == 0 && !command.stdoutTruncated && !command.stderrTruncated
    && 1 <= command.stdoutBytes <= 1048576 && command.stderrBytes <= 1048576
  }

  /** Between init and success: accepted exactly when the middle is readable, lawful and complete. */
  lemma Between(input: PhaseInput, command: Command)
    requires |command.lines| >= 2 && Numbered(command.lines)
    requires InitDoc(command.lines[0], input.model) && SuccessDoc(command.lines[|command.lines| - 1])
    ensures var h := Gather(LineReader(input), command.lines[1..], |command.lines| - 2);
            Accepts(input, command) <==> Framed(input, command) && h.Some? && Lawful(h.value) && Complete(h.value)
  {
    hide Lawful, Complete, LineReader, OneSession, Numbered, Gather, Envelope;
    NumberedIsOneSession(command.lines);
  }

  /** Between an init and a success line of one session, the lines show these events. */
  ghost predicate StreamOf(input: PhaseInput, lines: seq<Json>, events: seq<Event>) {
    && |lines| == |events| + 2 <= 4096 && Numbered(lines)
    && InitDoc(lines[0], input.model) && SuccessDoc(lines[|lines| - 1])
    && forall i :: 0 <= i < |events| ==> Shows(input, lines[i + 1], events[i])
  }

  lemma CleanExactly(input: PhaseInput, command: Command)
    ensures Framed(input, command) <==> CleanProcess(input, command) && 2 <= |command.lines| <= 4096
  {
  }

  ghost predicate Sound(phase: string, events: seq<Event>) {
    Lawful(EventsMean(phase, events)) && Complete(EventsMean(phase, events))
  }

  /** A stream of events is accepted exactly when the process was clean and the events are lawful and complete. */
  lemma StreamRead(input: PhaseInput, command: Command, events: seq<Event>)
    requires StreamOf(input, command.lines, events)
    ensures Accepts(input, command) <==>
              CleanProcess(input, command) && Sound(input.phase, events)
  {
    hide Accepts, Shows, Numbered, InitDoc, SuccessDoc, Lawful, Complete, Framed, CleanProcess, Gather, EventsMean;
    var lines := command.lines;
    Between(input, command);
    CleanExactly(input, command);
    EventsRead(input, lines[1..], events, |events|);
    assert events[..|events|] == events;
  }

  lemma Ends(input: PhaseInput, command: Command)
    requires Accepts(input, command)
    ensures 2 <= |command.lines| <= 4096 && OneSession(command.lines)
    ensures InitDoc(command.lines[0], input.model) && SuccessDoc(command.lines[|command.lines| - 1])
    ensures Gather(LineReader(input), command.lines[1..], |command.lines| - 2).Some?
  {
    hide Lawful, Complete, Gather, LineReader, ValidId;
    CleanExactly(input, command);
    assert Identified(command.lines[0]) && Identified(command.lines[|command.lines| - 1]);
  }

  /** Every accepted stream is one of events. */
  lemma StreamShown(input: PhaseInput, command: Command) returns (events: seq<Event>)
    requires Accepts(input, command)
    ensures StreamOf(input, command.lines, events)
  {
    hide Accepts, Shows, Numbered, OneSession, InitDoc, SuccessDoc, Gather;
    var lines := command.lines;
    Ends(input, command);
    OneSessionIsNumbered(lines);
    events := EventsShown(input, lines[1..], |lines| - 2);
  }

  /** The parser accepts exactly the streams, from a clean process, of a lawful and complete sequence of events. */
  lemma AcceptedExactly(input: PhaseInput, command: Command)
    ensures Accepts(input, command) <==>
              && CleanProcess(input, command)
              && exists events :: StreamOf(input, command.lines, events) && Sound(input.phase, events)
  {
    hide Accepts, StreamOf, Sound, CleanProcess;
    if Accepts(input, command) {
      var events := StreamShown(input, command);
      StreamRead(input, command, events);
    }
    forall events | StreamOf(input, command.lines, events)
      ensures Accepts(input, command) <==> CleanProcess(input, command) && Sound(input.phase, events)
    {
      StreamRead(input, command, events);
    }
  }

  // ----- Small streams, decided outright -----

  /** One more action after a lawful history, by the parser's book. */
  lemma Then(h: seq<Action>, b: Book, a: Action, next: seq<Action>)
    requires Lawful(h) && Tracks(h, b) && Shaped([a]) && next == h + [a]
    ensures Lawful(next) <==> Enter(b, a).Some?
    ensures Enter(b, a).Some? ==> Tracks(next, Enter(b, a).value)
  {
    hide Lawful, Tracks, Enter;
    EnterNext(h, b, a);
  }

  lemma Shapely(a: Action)
    requires (a.Use? ==> a.name != "") && (a.Retry? ==> 1 <= a.attempt <= a.maximum <= 15)
    ensures Shaped([a])
  {
  }

  lemma Spoilt(h: seq<Action>, a: Action, next: seq<Action>)
    requires next == h + [a] && !Lawful(h)
    ensures !Lawful(next)
  {
    hide Lawful;
    LawfulNext(h, a);
  }

  /** A use and its answer are lawful exactly when the answer settles the use. */
  lemma UseThenAnswer(id: string, name: string, restricted: bool, failed: bool, content: Json)
    requires name != ""
    ensures var h := [Reply, Use(id, name, restricted), Feedback, Answer(id, failed, content)];
            (Lawful(h) && Complete(h)) <==> (restricted ==> failed && NativeUnavailable(content, name))
  {
    hide NativeUnavailable, Lawful, Tracks, Complete, Shaped;
    var u, a := Use(id, name, restricted), Answer(id, failed, content);
    var b1 := Enter(EMPTY_BOOK, Reply).value;
    var b2 := Enter(b1, u).value;
    NothingTracked();
    Shapely(Reply);
    Shapely(u);
    Shapely(Feedback);
    Shapely(a);
    Then([], EMPTY_BOOK, Reply, [Reply]);
    Then([Reply], b1, u, [Reply, u]);
    Then([Reply, u], b2, Feedback, [Reply, u, Feedback]);
    Then([Reply, u, Feedback], b2, a, [Reply, u, Feedback, a]);
    var last := Enter(b2, a);
    assert last.Some? <==> (restricted ==> failed && NativeUnavailable(content, name));
    if last.Some? {
      TracksComplete([Reply, u, Feedback, a], last.value);
      assert last.value.tools == map[];
    }
  }

  lemma OneBlock(phase: string, kind: string, b: Block)
    ensures EventMeans(phase, Message(kind, [b])) ==
              [if kind == "assistant" then Reply else Feedback] + BlockMeans(phase, b)
  {
    assert [b][..0] == [];
    assert BlocksMean(phase, []) + BlockMeans(phase, b) == BlockMeans(phase, b);
  }

  lemma OneEvent(phase: string, e: Event)
    ensures EventsMean(phase, [e]) == EventMeans(phase, e)
  {
    assert [e][..0] == [];
    assert [] + EventMeans(phase, e) == EventMeans(phase, e);
  }

  lemma TwoEvents(phase: string, d: Event, e: Event)
    ensures EventsMean(phase, [d, e]) == EventMeans(phase, d) + EventMeans(phase, e)
  {
    hide EventMeans;
    assert [d, e][..1] == [d];
    OneEvent(phase, d);
  }

  lemma ThreeEvents(phase: string, c: Event, d: Event, e: Event)
    ensures EventsMean(phase, [c, d, e]) == EventMeans(phase, c) + EventMeans(phase, d) + EventMeans(phase, e)
  {
    hide EventMeans;
    assert [c, d, e][..2] == [c, d];
    TwoEvents(phase, c, d);
  }

  lemma ToolIsKnown(input: PhaseInput, lines: seq<Json>, id: string, name: string, events: seq<Event>)
    requires events != [] && events[0] == Message("assistant", [ToolUse(id, name)]) && StreamOf(input, lines, events)
    ensures name in {"Read", "Glob", "Grep", "StructuredOutput", "Write", "Edit"} && Phase(input.phase)
  {
    hide Numbered, InitDoc, SuccessDoc, Says, Tells;
    assert Shows(input, lines[1], events[0]);
    assert ShowsBlock(input.phase, "assistant", lines[1].fields["message"].fields["content"].items[0],
                      events[0].blocks[0]);
  }

  /** The tool is one the phase may use, or a Write or Edit of a read-only phase that the registry reports missing. */
  ghost predicate Policy(phase: string, name: string, failed: bool, content: Json) {
    || name in {"Read", "Glob", "Grep", "StructuredOutput"}
    || (name in {"Write", "Edit"}
        && (phase in {"build", "verification"} || (failed && content.Str? && NoSuchTool(content.s, name))))
  }

  /** One tool used and answered, in any documents. */
  lemma OneToolStream(input: PhaseInput, command: Command, id: string, name: string, failed: bool, content: Json)
    requires StreamOf(input, command.lines, [Message("assistant", [ToolUse(id, name)]),
                                             Message("user", [ToolResult(id, failed, content)])])
    ensures Accepts(input, command) <==> CleanProcess(input, command) && Policy(input.phase, name, failed, content)
  {
    hide StreamOf, Accepts, CleanProcess, Lawful, Complete, NoSuchTool, NativeUnavailable, EventsMean, EventMeans;
    var phase, use, result := input.phase, ToolUse(id, name), ToolResult(id, failed, content);
    var events := [Message("assistant", [use]), Message("user", [result])];
    ToolIsKnown(input, command.lines, id, name, events);
    StreamRead(input, command, events);
    TwoEvents(phase, events[0], events[1]);
    OneBlock(phase, "assistant", use);
    OneBlock(phase, "user", result);
    var restricted := name in {"Write", "Edit"} && phase in {"planning", "review"};
    assert EventsMean(phase, events) == [Reply, Use(id, name, restricted), Feedback, Answer(id, failed, content)];
    UseThenAnswer(id, name, restricted, failed, content);
    Unavailable(content, name);
  }

  lemma Unavailable(content: Json, name: string)
    ensures name in {"Write", "Edit"} ==>
              (NativeUnavailable(content, name) <==> content.Str? && NoSuchTool(content.s, name))
  {
    hide NoSuchTool;
    if name in {"Write", "Edit"} && content.Str? {
      UnavailableTexts(content.s, name);
    }
  }

  lemma UseDenyAnswer(id: string, deniedId: string, deniedName: string, failed: bool, content: Json)
    ensures var h := [Reply, Use(id, "Read", false), Deny(deniedId, deniedName), Feedback, Answer(id, failed, content)];
            (Lawful(h) && Complete(h)) <==> deniedId == id && deniedName == "Read" && failed
  {
    hide Lawful, Tracks, Complete, Shaped;
    var u, d, a := Use(id, "Read", false), Deny(deniedId, deniedName), Answer(id, failed, content);
    var b1 := Enter(EMPTY_BOOK, Reply).value;
    var b2 := Enter(b1, u).value;
    NothingTracked();
    Shapely(Reply);
    Shapely(u);
    Shapely(d);
    Shapely(Feedback);
    Shapely(a);
    Then([], EMPTY_BOOK, Reply, [Reply]);
    Then([Reply], b1, u, [Reply, u]);
    Then([Reply, u], b2, d, [Reply, u, d]);
    if deniedId == id && deniedName == "Read" {
      var b3 := Enter(b2, d).value;
      Then([Reply, u, d], b3, Feedback, [Reply, u, d, Feedback]);
      Then([Reply, u, d, Feedback], b3, a, [Reply, u, d, Feedback, a]);
      if failed {
        TracksComplete([Reply, u, d, Feedback, a], Enter(b3, a).value);
        assert Enter(b3, a).value.tools == map[];
      }
    } else {
      Spoilt([Reply, u, d], Feedback, [Reply, u, d, Feedback]);
      Spoilt([Reply, u, d, Feedback], a, [Reply, u, d, Feedback, a]);
    }
  }

  /** A denial counts exactly when it names the open tool, which must then fail. */
  lemma DenialStream(input: PhaseInput, command: Command, id: string, deniedId: string, deniedName: string,
                     failed: bool, content: Json)
    requires StreamOf(input, command.lines, [Message("assistant", [ToolUse(id, "Read")]), Denied(deniedId, deniedName),
                                             Message("user", [ToolResult(id, failed, content)])])
    ensures Accepts(input, command) <==>
              CleanProcess(input, command) && deniedId == id && deniedName == "Read" && failed
  {
    hide StreamOf, Accepts, CleanProcess, Lawful, Complete, EventsMean, EventMeans;
    var phase, use, result := input.phase, ToolUse(id, "Read"), ToolResult(id, failed, content);
    var events := [Message("assistant", [use]), Denied(deniedId, deniedName), Message("user", [result])];
    StreamRead(input, command, events);
    ThreeEvents(phase, events[0], events[1], events[2]);
    OneBlock(phase, "assistant", use);
    OneBlock(phase, "user", result);
    assert EventMeans(phase, events[1]) == [Deny(deniedId, deniedName)] by {
      DenialMeans(phase, deniedId, deniedName);
    }
    assert EventsMean(phase, events) == [Reply, Use(id, "Read", false), Deny(deniedId, deniedName), Feedback,
                                         Answer(id, failed, content)];
    UseDenyAnswer(id, deniedId, deniedName, failed, content);
  }

  lemma DenialMeans(phase: string, id: string, name: string)
    ensures EventMeans(phase, Denied(id, name)) == [Deny(id, name)]
  {
  }

  lemma RetryThenReply(attempt: int, maximum: int)
    ensures Lawful([Retry(attempt, maximum)] + [Reply]) <==> attempt == 1
    ensures Complete([Retry(attempt, maximum)] + [Reply])
  {
    var h := [Retry(attempt, maximum)] + [Reply];
    assert h[..0] == [] && h[..1] == [Retry(attempt, maximum)] && h[1] == Reply && h[0] == Retry(attempt, maximum);
    assert Reply in h && forall x :: x in h ==> x == h[0] || x == h[1];
  }

  /** Retry notices are numbered from one. */
  lemma RetryStream(input: PhaseInput, command: Command, e: Event)
    requires e.Again? && StreamOf(input, command.lines, [e, Message("assistant", [Text])])
    ensures Accepts(input, command) <==> CleanProcess(input, command) && e.attempt == 1
  {
    hide StreamOf, Accepts, CleanProcess, Lawful, Complete, EventsMean;
    var reply := Message("assistant", [Text]);
    StreamRead(input, command, [e, reply]);
    TwoEvents(input.phase, e, reply);
    OneBlock(input.phase, "assistant", Text);
    assert EventMeans(input.phase, reply) == [Reply];
    RetryThenReply(e.attempt, e.maximum);
  }
}
