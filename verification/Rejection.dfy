/** The rejection-stream observer of internal/claudeprovider/rejection.go and the numeric conditions
    its evidence must meet in internal/contracts/provider_rejection.go. */
module Rejection {
  import opened Wrappers
  import opened Json

  /** The observation without the digest of the raw output. */
  datatype Observation = Observation(category: string, internalRetries: int, lastRetryDelayMs: int,
                                     allFailuresServerErrors: bool)

  // ----- The lines of a rejected run -----

  /** An internal retry notice, apart from its place in the run. */
  predicate RetryNotice(fields: Fields) {
    var attempt, limit := IntField(fields, "attempt"), IntField(fields, "max_retries");
    var delay, status := IntField(fields, "retry_delay_ms"), IntField(fields, "error_status");
    && StringField(fields, "type") == "system"
    && StringField(fields, "subtype") == "api_retry"
    && Category(StringField(fields, "error"))
    && attempt.Some? && limit.Some? && delay.Some? && status.Some?
    && 1 <= limit.value <= 15 && attempt.value <= limit.value
    && 0 <= delay.value <= 60000 && 400 <= status.value <= 599
    && HttpMatches(StringField(fields, "error"), status.value)
  }

  predicate OneTextBlock(message: Fields) {
    && "content" in message && message["content"].Arr? && |message["content"].items| == 1
    && var block := Object(message["content"].items[0]);
    && block.Some? && |block.value| == 2
    && StringField(block.value, "type") == "text"
    && IsString(block.value, "text") && block.value["text"].s != ""
  }

  /** The typed API-error message. */
  predicate ApiError(fields: Fields) {
    && StringField(fields, "type") == "assistant"
    && IsNull(fields, "parent_tool_use_id")
    && Category(StringField(fields, "error"))
    && ObjectField(fields, "message").Some?
    && OneTextBlock(ObjectField(fields, "message").value)
  }

  predicate ErrorResult(fields: Fields) {
    && StringField(fields, "type") == "result"
    && BoolField(fields, "is_error") == Some(true)
    && StringField(fields, "subtype") in {"success", "error_during_execution"}
    && AbsentOrNull(fields, "structured_output")
  }

  // ----- The specification -----

  /** The i-th line announces the i-th attempt under one common maximum. */
  ghost predicate RetryAt(lines: seq<Json>, i: nat)
    requires 1 <= i < |lines|
  {
    && Object(lines[i]).Some? && Object(lines[1]).Some?
    && RetryNotice(lines[i].fields)
    && IntField(lines[i].fields, "attempt") == Some(i)
    && IntField(lines[i].fields, "max_retries") == IntField(lines[1].fields, "max_retries")
  }

  /** Init, then numbered retries, then one API error, then a final error result. */
  ghost predicate Rejected(input: PhaseInput, command: Command) {
    && Envelope(input, command, 1)
    && 3 <= |command.lines| <= 18
    && RejectedLines(input.model, command.lines)
  }

  ghost predicate RejectedLines(model: string, lines: seq<Json>)
    requires |lines| >= 3
  {
    && OneSession(lines)
    && IsInit(model, lines[0])
    && (forall i :: 1 <= i < |lines| - 2 ==> RetryAt(lines, i))
    && ApiError(lines[|lines| - 2].fields)
    && ErrorResult(lines[|lines| - 1].fields)
  }

  ghost predicate ServerError(line: Json) {
    Object(line).Some? && StringField(line.fields, "error") == "server_error"
  }

  /** What the observation must say about a rejected run. */
  ghost predicate Describes(lines: seq<Json>, o: Observation)
    requires |lines| >= 3
  {
    var n := |lines|;
    && o.internalRetries == n - 3
    && (o.allFailuresServerErrors <==> forall i :: 1 <= i < n - 1 ==> ServerError(lines[i]))
    && (n == 3 ==> o.lastRetryDelayMs == 0)
    && (n > 3 ==> Object(lines[n - 3]).Some?
                  && IntField(lines[n - 3].fields, "retry_delay_ms") == Some(o.lastRetryDelayMs))
    && Object(lines[n - 2]).Some? && o.category == StringField(lines[n - 2].fields, "error")
  }

  // ----- The observer -----

  datatype Result = Observed(value: Observation) | Refused

  /** Lines 1 up to k are server errors. */
  ghost predicate ServerErrorsBefore(lines: seq<Json>, k: nat)
    requires k <= |lines|
  {
    k <= 1 || (ServerErrorsBefore(lines, k - 1) && ServerError(lines[k - 1]))
  }

  lemma {:induction false} ServerErrorsEach(lines: seq<Json>, k: nat)
    requires k <= |lines|
    ensures ServerErrorsBefore(lines, k) <==> forall i :: 1 <= i < k ==> ServerError(lines[i])
  {
    if k > 1 {
      ServerErrorsEach(lines, k - 1);
    }
  }

  /** What the loop knows of the retries before line `i`. */
  ghost predicate Retried(lines: seq<Json>, i: nat, o: Observation, maximum: int)
    requires 1 <= i <= |lines| - 2
  {
    && (forall j :: 1 <= j < i ==> RetryAt(lines, j))
    && o.internalRetries == i - 1
    && (o.allFailuresServerErrors <==> ServerErrorsBefore(lines, i))
    && (if i == 1 then maximum == 0 && o.lastRetryDelayMs == 0
        else Object(lines[1]).Some? && Object(lines[i - 1]).Some? && 1 <= maximum
             && IntField(lines[1].fields, "max_retries") == Some(maximum)
             && IntField(lines[i - 1].fields, "retry_delay_ms") == Some(o.lastRetryDelayMs))
  }

  /** A retry line passes the loop's checks exactly when it is the next numbered one. */
  lemma RetryChecks(lines: seq<Json>, i: nat, o: Observation, maximum: int)
    requires 1 <= i < |lines| - 2 && Retried(lines, i, o, maximum) && Object(lines[i]).Some?
    ensures var fields := lines[i].fields;
            RetryAt(lines, i) <==>
            RetryNotice(fields) && IntField(fields, "attempt") == Some(o.internalRetries + 1)
            && (maximum != 0 ==> IntField(fields, "max_retries") == Some(maximum))
  {
    assert i > 1 ==> RetryAt(lines, 1);
  }

  lemma RetryRecorded(lines: seq<Json>, i: nat, o: Observation, maximum: int)
    requires 1 <= i < |lines| - 2 && Retried(lines, i, o, maximum) && RetryAt(lines, i)
    ensures var fields := lines[i].fields;
            IntField(fields, "retry_delay_ms").Some? && IntField(fields, "max_retries").Some? &&
            var server := o.allFailuresServerErrors && StringField(fields, "error") == "server_error";
            Retried(lines, i + 1, o.(allFailuresServerErrors := server, internalRetries := i,
                                     lastRetryDelayMs := IntField(fields, "retry_delay_ms").value),
                    IntField(fields, "max_retries").value)
  {
    assert ServerError(lines[i]) <==> StringField(lines[i].fields, "error") == "server_error";
  }

  /** After all retries the API error completes the description. */
  lemma ErrorRecorded(lines: seq<Json>, o: Observation, maximum: int)
    requires |lines| >= 3 && Retried(lines, |lines| - 2, o, maximum) && Object(lines[|lines| - 2]).Some?
    ensures var category := StringField(lines[|lines| - 2].fields, "error");
            Complete(lines, o.(category := category,
                               allFailuresServerErrors := o.allFailuresServerErrors && category == "server_error"))
  {
    assert ServerError(lines[|lines| - 2]) <==> StringField(lines[|lines| - 2].fields, "error") == "server_error";
  }

  method ObserveRejection(input: PhaseInput, command: Command) returns (r: Result)
    ensures r.Observed? <==> Rejected(input, command)
    ensures r.Observed? ==> Describes(command.lines, r.value)
  {
    var lines := command.lines;
    if !Envelope(input, command, 1) || !(3 <= |lines| <= 18) {
      return Refused;
    }
    DecidedIsRejected(input.model, lines);
    r := ObserveLines(input.model, lines);
    if r.Observed? {
      CompleteDescribes(lines, r.value);
    }
  }

  /** What the loop knows after `i` lines, apart from identities. */
  ghost predicate Facts(lines: seq<Json>, i: nat, o: Observation, maximum: int)
    requires 1 <= i < |lines| && |lines| >= 3
  {
    if i <= |lines| - 2 then Retried(lines, i, o, maximum)
    else AllRetried(lines) && FailedWith(lines) && Complete(lines, o)
  }

  /** The finished observation, as the loop leaves it. */
  ghost predicate Complete(lines: seq<Json>, o: Observation)
    requires |lines| >= 3
  {
    var n := |lines|;
    && o.internalRetries == n - 3
    && (o.allFailuresServerErrors <==> ServerErrorsBefore(lines, n - 1))
    && (n == 3 ==> o.lastRetryDelayMs == 0)
    && (n > 3 ==> Object(lines[n - 3]).Some?
                  && IntField(lines[n - 3].fields, "retry_delay_ms") == Some(o.lastRetryDelayMs))
    && Object(lines[n - 2]).Some? && o.category == StringField(lines[n - 2].fields, "error")
  }

  lemma CompleteDescribes(lines: seq<Json>, o: Observation)
    requires |lines| >= 3 && Complete(lines, o)
    ensures Describes(lines, o)
  {
    ServerErrorsEach(lines, |lines| - 1);
  }

  ghost predicate AllRetried(lines: seq<Json>)
    requires |lines| >= 3
  {
    forall i :: 1 <= i < |lines| - 2 ==> RetryAt(lines, i)
  }

  ghost predicate FailedWith(lines: seq<Json>)
    requires |lines| >= 3
  {
    Object(lines[|lines| - 2]).Some? && ApiError(lines[|lines| - 2].fields)
  }

  ghost predicate EndedWith(lines: seq<Json>)
    requires |lines| >= 3
  {
    Object(lines[|lines| - 1]).Some? && ErrorResult(lines[|lines| - 1].fields)
  }

  /** The conditions in the order the loop decides them. */
  ghost predicate Decided(model: string, lines: seq<Json>)
    requires |lines| >= 3
  {
    Checked(lines, |lines|) && IsInit(model, lines[0]) && AllRetried(lines) && FailedWith(lines) && EndedWith(lines)
  }

  lemma DecidedIsRejected(model: string, lines: seq<Json>)
    requires |lines| >= 3
    ensures RejectedLines(model, lines) <==> Decided(model, lines)
  {
    CheckedSession(lines, |lines|);
  }

  /** A line before the last two. */
  method ObserveRetry(fields: Fields, o: Observation, maximum: int, ghost lines: seq<Json>, ghost i: nat)
    returns (ok: bool, next: Observation, limit: int)
    requires 1 <= i < |lines| - 2 && Facts(lines, i, o, maximum) && lines[i] == Obj(fields) && |fields| <= 128
    ensures ok <==> RetryAt(lines, i)
    ensures ok ==> Facts(lines, i + 1, next, limit)
  {
    RetryChecks(lines, i, o, maximum);
    if !RetryNotice(fields) || IntField(fields, "attempt") != Some(o.internalRetries + 1)
       || (maximum != 0 && IntField(fields, "max_retries") != Some(maximum)) {
      return false, o, maximum;
    }
    RetryRecorded(lines, i, o, maximum);
    ok := true;
    limit := IntField(fields, "max_retries").value;
    next := o.(allFailuresServerErrors := o.allFailuresServerErrors && StringField(fields, "error") == "server_error",
               internalRetries := IntField(fields, "attempt").value,
               lastRetryDelayMs := IntField(fields, "retry_delay_ms").value);
  }

  /** The line before the last. */
  method ObserveError(fields: Fields, o: Observation, ghost maximum: int, ghost lines: seq<Json>)
    returns (ok: bool, next: Observation)
    requires |lines| >= 3 && Facts(lines, |lines| - 2, o, maximum)
    requires lines[|lines| - 2] == Obj(fields) && |fields| <= 128
    ensures ok <==> FailedWith(lines)
    ensures ok ==> Facts(lines, |lines| - 1, next, maximum)
  {
    ErrorRecorded(lines, o, maximum);
    var category := StringField(fields, "error");
    next := o.(category := category,
               allFailuresServerErrors := o.allFailuresServerErrors && category == "server_error");
    ok := ApiError(fields);
  }

  /** Lines 1 to `i`, those before the last, are what a rejected run shows there. */
  ghost predicate Expected(lines: seq<Json>, i: nat)
    requires 1 <= i < |lines| - 1 && |lines| >= 3
  {
    if i == |lines| - 2 then FailedWith(lines) else RetryAt(lines, i)
  }

  /** Any line between the first and the last. */
  method ObserveLine(line: Json, o: Observation, maximum: int, ghost lines: seq<Json>, i: nat, n: nat)
    returns (ok: bool, next: Observation, limit: int)
    requires n == |lines| >= 3 && 1 <= i < n - 1 && Facts(lines, i, o, maximum)
    requires lines[i] == line && Object(line).Some?
    ensures ok <==> Expected(lines, i)
    ensures ok ==> Facts(lines, i + 1, next, limit)
  {
    limit := maximum;
    if i == n - 2 {
      ok, next := ObserveError(line.fields, o, maximum, lines);
    } else {
      ok, next, limit := ObserveRetry(line.fields, o, maximum, lines, i);
    }
  }

  lemma UnexpectedIsNotDecided(model: string, lines: seq<Json>, i: nat)
    requires |lines| >= 3 && 1 <= i < |lines| - 1 && !Expected(lines, i)
    ensures !Decided(model, lines)
  {
  }

  lemma UncheckedIsNotDecided(model: string, lines: seq<Json>, i: nat)
    requires |lines| >= 3 && i <= |lines| && !Checked(lines, i)
    ensures !Decided(model, lines)
  {
    UncheckedStays(lines, i, |lines|);
  }

  lemma LastLineDecides(model: string, lines: seq<Json>, o: Observation, maximum: int)
    requires |lines| >= 3 && Checked(lines, |lines|) && IsInit(model, lines[0]) && Facts(lines, |lines| - 1, o, maximum)
    ensures Decided(model, lines) <==> ErrorResult(lines[|lines| - 1].fields)
    ensures Complete(lines, o)
  {
  }

  lemma NothingObserved(lines: seq<Json>)
    requires |lines| >= 3
    ensures Facts(lines, 1, Observation("", 0, 0, true), 0)
  {
  }

  method ObserveLines(model: string, lines: seq<Json>) returns (r: Result)
    requires |lines| >= 3
    ensures r.Observed? <==> Decided(model, lines)
    ensures r.Observed? ==> Complete(lines, r.value)
  {
    hide Facts, Complete, Expected, ErrorResult, IsInit, ValidId;
    var o := Observation("", 0, 0, true);
    var seen: set<string>, session, maximum := {}, "", 0;
    NothingObserved(lines);
    var i := 0;
    while true
      invariant 0 <= i < |lines|
      invariant Checked(lines, i) && seen == Ids(lines, i)
      invariant i > 0 ==> IsInit(model, lines[0]) && session == Session(lines[0])
      invariant Facts(lines, if i == 0 then 1 else i, o, maximum)
      decreases |lines| - i
    {
      var line := lines[i];
      if !Identified(line) || EventId(line) in seen || (i > 0 && Session(line) != session) {
        UncheckedIsNotDecided(model, lines, i + 1);
        return Refused;
      }
      if i == 0 {
        if !IsInit(model, line) {
          return Refused;
        }
        session := Session(line);
      } else if i == |lines| - 1 {
        LastLineDecides(model, lines, o, maximum);
        return if ErrorResult(line.fields) then Observed(o) else Refused;
      } else {
        var ok;
        ok, o, maximum := ObserveLine(line, o, maximum, lines, i, |lines|);
        if !ok {
          UnexpectedIsNotDecided(model, lines, i);
          return Refused;
        }
      }
      seen := seen + {EventId(line)};
      i := i + 1;
    }
  }

  // ----- The evidence conditions of the attestation -----

  /** The conditions validServerRejection puts on the stream's numbers. */
  predicate AttestableNumbers(o: Observation) {
    && o.allFailuresServerErrors
    && 0 <= o.internalRetries <= 15
    && 0 <= o.lastRetryDelayMs <= 60000
    && (o.internalRetries == 0 ==> o.lastRetryDelayMs == 0)
  }

  /** An observed rejection can be attested exactly when every failure in it is a server error. */
  lemma ObservedIsAttestable(input: PhaseInput, command: Command, o: Observation)
    requires Rejected(input, command) && Describes(command.lines, o)
    ensures AttestableNumbers(o) <==> forall i :: 1 <= i < |command.lines| - 1 ==> ServerError(command.lines[i])
  {
    hide OneSession, ApiError, ErrorResult, IsInit, Envelope, HttpMatches;
    var n := |command.lines|;
    if n > 3 {
      assert RetryAt(command.lines, n - 3);
    }
  }

  /** The retries of a rejected run stay within the maximum it announces, which is at most 15. */
  lemma RetriesWithinMaximum(input: PhaseInput, command: Command)
    requires Rejected(input, command) && |command.lines| > 3
    ensures var maximum := IntField(command.lines[1].fields, "max_retries");
            maximum.Some? && |command.lines| - 3 <= maximum.value <= 15
  {
    assert RetryAt(command.lines, |command.lines| - 3);
    assert RetryAt(command.lines, 1);
  }
}
