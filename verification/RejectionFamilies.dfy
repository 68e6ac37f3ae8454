/** The rejection observer on runs of any documents with the stated fields: exactly which runs are observed and what the
    observation says, in the literals of the wire format (internal/claudeprovider/rejection.go). */
module RejectionFamilies {
  import opened Wrappers
  import opened Json
  import opened Rejection
  import opened StreamLaws
  import opened StreamGrammar

  /** What a retry notice announces. */
  datatype Notice = Notice(attempt: int, maximum: int, delay: int, category: string, status: int)

  /** What the last two lines of a run say: the content of an API error and the outcome. */
  datatype Ending = Ending(category: string, content: seq<Json>, failed: bool, subtype: string, answer: Option<Json>)

  /** An API error as the provider's client prints it. */
  predicate ErrorDoc(x: Json, category: string, content: seq<Json>) {
    && x.Obj? && |x.fields| <= 128 && Says(x.fields, "type", "assistant")
    && "parent_tool_use_id" in x.fields && x.fields["parent_tool_use_id"] == Null && Says(x.fields, "error", category)
    && "message" in x.fields && x.fields["message"].Obj? && |x.fields["message"].fields| <= 128
    && "content" in x.fields["message"].fields && x.fields["message"].fields["content"] == Arr(content)
  }

  /** A result, with or without an answer of the requested form. */
  predicate FinalDoc(x: Json, failed: bool, subtype: string, answer: Option<Json>) {
    && Doc(x, "result", subtype) && "is_error" in x.fields && x.fields["is_error"] == Bool(failed)
    && (if answer.Some? then "structured_output" in x.fields && x.fields["structured_output"] == answer.value
        else "structured_output" !in x.fields)
  }

  /** Init, any retry notices, an API error, a result. */
  ghost predicate FailedRun(lines: seq<Json>, model: string, notices: seq<Notice>, e: Ending) {
    && |lines| == |notices| + 3 && Numbered(lines) && InitDoc(lines[0], model)
    && (forall i :: 0 <= i < |notices| ==>
          RetryDoc(lines[i + 1], notices[i].attempt, notices[i].maximum, notices[i].delay, notices[i].category,
                   notices[i].status))
    && ErrorDoc(lines[|notices| + 1], e.category, e.content)
    && FinalDoc(lines[|notices| + 2], e.failed, e.subtype, e.answer)
  }

  /** Notice i has number i + 1 under the common maximum, a delay of at most a minute and a failure with its status. */
  ghost predicate InTurn(notices: seq<Notice>, i: nat)
    requires i < |notices|
  {
    && notices[i].attempt == i + 1 <= notices[i].maximum == notices[0].maximum <= 15
    && 0 <= notices[i].delay <= 60000 && Failure(notices[i].category, notices[i].status)
  }

  /** One block that is a text and nothing else. */
  ghost predicate OnlyText(content: seq<Json>) {
    exists text :: text != "" && content == [Obj(map["type" := Str("text"), "text" := Str(text)])]
  }

  /** A typed failure that is told and has no answer. */
  ghost predicate Failing(e: Ending) {
    && e.category in {"authentication_failed", "billing_error", "invalid_request", "max_output_tokens",
                      "model_not_found", "oauth_org_not_allowed", "rate_limit", "server_error"}
    && OnlyText(e.content) && e.failed && (e.subtype == "success" || e.subtype == "error_during_execution")
    && (e.answer == None || e.answer == Some(Null))
  }

  /** The supported provider, a failed exit, and output within its bounds. */
  predicate FailedProcess(input: PhaseInput, command: Command) {
    && input.provider == "claude" && input.version == "2.1.263"
    && input.model in {"claude-sonnet-4-6", "claude-opus-4-6", "claude-sonnet-5", "claude-opus-5"}
    && input.family == "anthropic-claude" && input.authMode == "claude_subscription"
    && input.profile == "qualified_guarded"
    && command.exitCode == 1 && !command.stdoutTruncated && !command.stderrTruncated
    && 1 <= command.stdoutBytes <= 1048576 && command.stderrBytes <= 1048576
  }

  lemma NoticeAt(lines: seq<Json>, model: string, notices: seq<Notice>, e: Ending, i: nat)
    requires FailedRun(lines, model, notices, e) && i < |notices|
    ensures RetryAt(lines, i + 1) <==> InTurn(notices, i)
  {
    hide Numbered, Failure, Category, HttpMatches;
    FailureStatuses(notices[i].category, notices[i].status);
    Statuses(notices[i].category, notices[i].status);
    assert RetryDoc(lines[1], notices[0].attempt, notices[0].maximum, notices[0].delay, notices[0].category,
                    notices[0].status);
  }

  lemma Statuses(category: string, status: int)
    ensures HttpMatches(category, status) ==> 400 <= status <= 599
  {
  }

  lemma TwoKeys(block: Fields)
    requires |block| == 2 && "type" in block && "text" in block
    ensures block == map["type" := block["type"], "text" := block["text"]]
  {
    var rest := block.Keys - {"type", "text"};
    assert |block.Keys| == |rest| + |{"type", "text"}|;
    assert rest == {};
    assert forall key :: key in block ==> key in rest || key == "type" || key == "text";
  }

  lemma OnlyTextExactly(message: Fields)
    requires "content" in message && message["content"].Arr?
    ensures OneTextBlock(message) <==> OnlyText(message["content"].items)
  {
    var items := message["content"].items;
    if OneTextBlock(message) {
      var block := items[0].fields;
      TwoKeys(block);
      assert items == [Obj(map["type" := Str("text"), "text" := Str(block["text"].s)])];
    }
    if OnlyText(items) {
      var text :| text != "" && items == [Obj(map["type" := Str("text"), "text" := Str(text)])];
      assert |map["type" := Str("text"), "text" := Str(text)]| == 2;
    }
  }

  lemma EndingAt(lines: seq<Json>, model: string, notices: seq<Notice>, e: Ending)
    requires FailedRun(lines, model, notices, e)
    ensures ApiError(lines[|notices| + 1].fields) && ErrorResult(lines[|notices| + 2].fields) <==> Failing(e)
  {
    hide Numbered, OnlyText, OneTextBlock, InitDoc, RetryDoc;
    OnlyTextExactly(lines[|notices| + 1].fields["message"].fields);
  }

  lemma InitAt(lines: seq<Json>, model: string, notices: seq<Notice>, e: Ending)
    requires FailedRun(lines, model, notices, e)
    ensures |lines| == |notices| + 3 && OneSession(lines) && Object(lines[0]).Some? && IsInit(model, lines[0])
  {
    hide Numbered, OneSession;
    NumberedIsOneSession(lines);
  }

  lemma EnvelopeExactly(input: PhaseInput, command: Command)
    ensures Envelope(input, command, 1) <==> FailedProcess(input, command)
  {
  }

  /** A run with any number of notices is observed exactly for the supported provider, a failed exit within the output
      bounds, at most 15 notices in turn and a typed failure. */
  lemma FailedRunObserved(input: PhaseInput, command: Command, notices: seq<Notice>, e: Ending)
    requires FailedRun(command.lines, input.model, notices, e)
    ensures Rejected(input, command) <==>
              && FailedProcess(input, command) && |notices| <= 15 && Failing(e)
              && forall i :: 0 <= i < |notices| ==> InTurn(notices, i)
  {
    hide FailedRun, OneSession, InTurn, RetryAt, Failing, ApiError, ErrorResult, Envelope, IsInit;
    var lines := command.lines;
    InitAt(lines, input.model, notices, e);
    EndingAt(lines, input.model, notices, e);
    EnvelopeExactly(input, command);
    forall i | 0 <= i < |notices| ensures RetryAt(lines, i + 1) <==> InTurn(notices, i) {
      NoticeAt(lines, input.model, notices, e, i);
    }
    forall i | 1 <= i < |lines| - 2 ensures RetryAt(lines, i) <==> InTurn(notices, i - 1) {
      NoticeAt(lines, input.model, notices, e, i - 1);
    }
  }

  lemma NoticeSays(lines: seq<Json>, model: string, notices: seq<Notice>, e: Ending, i: nat)
    requires FailedRun(lines, model, notices, e) && i < |notices|
    ensures Object(lines[i + 1]).Some? && (ServerError(lines[i + 1]) <==> notices[i].category == "server_error")
    ensures IntField(lines[i + 1].fields, "retry_delay_ms") == Some(notices[i].delay)
  {
    hide Numbered, InitDoc, ErrorDoc, FinalDoc;
    var x := notices[i];
    assert RetryDoc(lines[i + 1], x.attempt, x.maximum, x.delay, x.category, x.status);
  }

  lemma ErrorSays(lines: seq<Json>, model: string, notices: seq<Notice>, e: Ending)
    requires FailedRun(lines, model, notices, e)
    ensures Object(lines[|notices| + 1]).Some? && StringField(lines[|notices| + 1].fields, "error") == e.category
    ensures ServerError(lines[|notices| + 1]) <==> e.category == "server_error"
  {
    hide Numbered, InitDoc, RetryDoc, FinalDoc;
  }

  /** And the observation is the ending's category, the number of notices, the last delay, and whether all failures are
      server errors. */
  lemma ObservationOfRun(lines: seq<Json>, model: string, notices: seq<Notice>, e: Ending, o: Observation)
    requires FailedRun(lines, model, notices, e)
    ensures |lines| >= 3
    ensures Describes(lines, o) <==>
              o == Observation(e.category, |notices|, if notices == [] then 0 else notices[|notices| - 1].delay,
                               e.category == "server_error"
                               && forall i :: 0 <= i < |notices| ==> notices[i].category == "server_error")
  {
    hide FailedRun, ServerError, OneSession, IsInit;
    var n := |notices|;
    InitAt(lines, model, notices, e);
    ErrorSays(lines, model, notices, e);
    forall i | 1 <= i <= n ensures ServerError(lines[i]) <==> notices[i - 1].category == "server_error" {
      NoticeSays(lines, model, notices, e, i - 1);
    }
    forall i | 0 <= i < n ensures ServerError(lines[i + 1]) <==> notices[i].category == "server_error" {
      NoticeSays(lines, model, notices, e, i);
    }
    if n > 0 {
      NoticeSays(lines, model, notices, e, n - 1);
    }
  }

  // ----- Every observed run is of this family -----

  /** What a line announces when it is a notice. */
  function NoticeOn(x: Json): Notice {
    if x.Obj? && IntField(x.fields, "attempt").Some? && IntField(x.fields, "max_retries").Some?
       && IntField(x.fields, "retry_delay_ms").Some? && IntField(x.fields, "error_status").Some? then
      Notice(IntField(x.fields, "attempt").value, IntField(x.fields, "max_retries").value,
             IntField(x.fields, "retry_delay_ms").value, StringField(x.fields, "error"),
             IntField(x.fields, "error_status").value)
    else Notice(0, 0, 0, "", 0)
  }

  lemma NoticeReads(lines: seq<Json>, i: nat)
    requires 1 <= i < |lines| && RetryAt(lines, i)
    ensures var x := NoticeOn(lines[i]);
            RetryDoc(lines[i], x.attempt, x.maximum, x.delay, x.category, x.status)
  {
    hide HttpMatches;
  }

  lemma InitReads(model: string, x: Json)
    requires Object(x).Some? && IsInit(model, x) && model != ""
    ensures InitDoc(x, model)
  {
  }

  lemma EndingReads(line: Json, last: Json) returns (e: Ending)
    requires Object(line).Some? && ApiError(line.fields) && Object(last).Some? && ErrorResult(last.fields)
    ensures ErrorDoc(line, e.category, e.content) && FinalDoc(last, e.failed, e.subtype, e.answer)
  {
    e := Ending(StringField(line.fields, "error"), line.fields["message"].fields["content"].items, true,
                StringField(last.fields, "subtype"),
                if "structured_output" in last.fields then Some(last.fields["structured_output"]) else None);
  }

  ghost predicate RunOf(lines: seq<Json>, model: string, notices: seq<Notice>, e: Ending) {
    && FailedRun(lines, model, notices, e) && |notices| <= 15 && Failing(e)
    && forall i :: 0 <= i < |notices| ==> InTurn(notices, i)
  }

  lemma ObservedIsARun(input: PhaseInput, command: Command) returns (notices: seq<Notice>, e: Ending)
    requires Rejected(input, command)
    ensures FailedRun(command.lines, input.model, notices, e)
  {
    hide Envelope, RetryAt, ApiError, ErrorResult, RetryDoc, ErrorDoc, FinalDoc, Numbered, OneSession, NoticeOn,
      InitDoc, IsInit;
    var lines := command.lines;
    OneSessionIsNumbered(lines);
    LinesAreObjects(lines);
    EnvelopeExactly(input, command);
    InitReads(input.model, lines[0]);
    e := EndingReads(lines[|lines| - 2], lines[|lines| - 1]);
    notices := seq(|lines| - 3, i requires 0 <= i < |lines| - 3 => NoticeOn(lines[i + 1]));
    forall i | 0 <= i < |notices|
      ensures RetryDoc(lines[i + 1], notices[i].attempt, notices[i].maximum, notices[i].delay, notices[i].category,
                       notices[i].status)
    {
      NoticeReads(lines, i + 1);
    }
  }

  lemma LinesAreObjects(lines: seq<Json>)
    requires OneSession(lines)
    ensures forall i :: 0 <= i < |lines| ==> Object(lines[i]).Some?
  {
    assert forall i :: 0 <= i < |lines| ==> Identified(lines[i]);
  }

  /** The observer observes exactly the failed runs of a supported process whose notices are in turn and which end in a
      typed failure: every field of every line is fixed here. */
  lemma ObservedExactly(input: PhaseInput, command: Command)
    ensures Rejected(input, command) <==>
              FailedProcess(input, command)
              && exists notices, e :: RunOf(command.lines, input.model, notices, e)
  {
    hide Rejected, FailedRun, InTurn, Failing;
    if Rejected(input, command) {
      var notices, e := ObservedIsARun(input, command);
      FailedRunObserved(input, command, notices, e);
      assert RunOf(command.lines, input.model, notices, e);
    }
    if FailedProcess(input, command) && exists notices, e :: RunOf(command.lines, input.model, notices, e) {
      var notices, e :| RunOf(command.lines, input.model, notices, e);
      FailedRunObserved(input, command, notices, e);
    }
  }
}
