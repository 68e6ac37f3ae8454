/** Decoded JSON as the provider stream parsers see it, and the field readers they share.
    Strings are byte sequences: one `char` stands for one byte. */
module Json {
  import opened Wrappers

  /** `Number` is any literal that does not fit a Go int. */
  datatype Json =
    | Null
    | Bool(b: bool)
    | Int(n: int)
    | Number
    | Str(s: string)
    | Arr(items: seq<Json>)
    | Obj(fields: map<string, Json>)

  type Fields = map<string, Json>

  const MAX_RESULT_BYTES := 0x10_0000

  /** A bounded object; duplicate keys are refused while parsing. */
  function Object(j: Json): Option<Fields> {
    if j.Obj? && |j.fields| <= 128 then Some(j.fields) else None
  }

  function ObjectField(fields: Fields, key: string): Option<Fields> {
    if key in fields then Object(fields[key]) else None
  }

  /** Empty when the field is missing or is not a string. */
  function StringField(fields: Fields, key: string): string {
    if key in fields && fields[key].Str? then fields[key].s else ""
  }

  function IntField(fields: Fields, key: string): Option<int> {
    if key in fields && fields[key].Int? then Some(fields[key].n) else None
  }

  function BoolField(fields: Fields, key: string): Option<bool> {
    if key in fields && fields[key].Bool? then Some(fields[key].b) else None
  }

  predicate IsString(fields: Fields, key: string) {
    key in fields && fields[key].Str?
  }

  predicate IsNull(fields: Fields, key: string) {
    key in fields && fields[key].Null?
  }

  predicate AbsentOrNull(fields: Fields, key: string) {
    key in fields ==> fields[key].Null?
  }

  predicate HexDigit(c: char) {
    '0' <= c <= '9' || 'a' <= c <= 'f'
  }

  function Zeros(n: nat): string {
    if n == 0 then "" else "0" + Zeros(n - 1)
  }

  function NilId(): string {
    Zeros(8) + "-" + Zeros(4) + "-" + Zeros(4) + "-" + Zeros(4) + "-" + Zeros(12)
  }

  /** Hexadecimal digits from position i on, with dashes at the UUID positions. */
  predicate IdCharacters(value: string, i: nat)
    decreases |value| - i
  {
    i >= |value| ||
    ((if i == 8 || i == 13 || i == 18 || i == 23 then value[i] == '-' else HexDigit(value[i]))
     && IdCharacters(value, i + 1))
  }

  /** Lower-case UUID text, not the nil UUID. */
  predicate ValidId(value: string) {
    |value| == 36 && value != NilId() && IdCharacters(value, 0)
  }

  predicate Category(value: string) {
    value in {"authentication_failed", "oauth_org_not_allowed", "billing_error", "rate_limit", "invalid_request",
              "model_not_found", "server_error", "max_output_tokens"}
  }

  predicate HttpMatches(category: string, status: int) {
    if category == "server_error" then 500 <= status <= 599
    else if category == "rate_limit" then status == 429
    else if category == "authentication_failed" then status == 401 || status == 403
    else if category == "oauth_org_not_allowed" then status == 403
    else if category == "billing_error" then status == 402 || status == 429
    else if category == "invalid_request" || category == "max_output_tokens" then status == 400
    else if category == "model_not_found" then status == 404
    else false
  }

  // ----- The launch input and the process output -----

  datatype PhaseInput = PhaseInput(provider: string, model: string, family: string, version: string,
                                   authMode: string, profile: string, phase: string)

  /** `lines` are the newline-separated values of the trimmed standard output. */
  datatype Command = Command(exitCode: int, stdoutTruncated: bool, stderrTruncated: bool,
                             stdoutBytes: nat, stderrBytes: nat, lines: seq<Json>)

  function ModelFamily(model: string): Option<string> {
    if model in {"claude-sonnet-4-6", "claude-opus-4-6", "claude-sonnet-5", "claude-opus-5"}
    then Some("anthropic-claude") else None
  }

  /** Preconditions on the input and the process shared by the success and the rejection parser. */
  predicate Envelope(input: PhaseInput, command: Command, exitCode: int) {
    && ModelFamily(input.model) == Some(input.family)
    && input.provider == "claude"
    && input.version == "2.1.263"
    && input.authMode == "claude_subscription"
    && input.profile == "qualified_guarded"
    && command.exitCode == exitCode
    && !command.stdoutTruncated && !command.stderrTruncated
    && 0 < command.stdoutBytes <= MAX_RESULT_BYTES
    && command.stderrBytes <= MAX_RESULT_BYTES
  }

  /** The identity every line of either stream carries. */
  predicate Identified(line: Json) {
    && Object(line).Some?
    && ValidId(StringField(line.fields, "uuid"))
    && ValidId(StringField(line.fields, "session_id"))
  }

  function EventId(line: Json): string
    requires Object(line).Some?
  {
    StringField(line.fields, "uuid")
  }

  function Session(line: Json): string
    requires Object(line).Some?
  {
    StringField(line.fields, "session_id")
  }

  predicate IsInit(model: string, line: Json)
    requires Object(line).Some?
  {
    && StringField(line.fields, "type") == "system"
    && StringField(line.fields, "subtype") == "init"
    && StringField(line.fields, "model") == model
  }

  /** All lines identified, no event id twice, one session. */
  ghost predicate OneSession(lines: seq<Json>) {
    SessionUpTo(lines, |lines|)
  }

  ghost predicate SessionUpTo(lines: seq<Json>, k: nat)
    requires k <= |lines|
  {
    && (forall i :: 0 <= i < k ==> Identified(lines[i]))
    && (forall i, j :: 0 <= i < j < k ==> EventId(lines[i]) != EventId(lines[j]))
    && (forall i :: 0 <= i < k ==> Session(lines[i]) == Session(lines[0]))
  }

  /** The event ids of the first k lines: what the loops keep in `seen`. */
  ghost function Ids(lines: seq<Json>, k: nat): set<string>
    requires k <= |lines|
  {
    if k == 0 then {}
    else Ids(lines, k - 1) + (if Object(lines[k - 1]).Some? then {EventId(lines[k - 1])} else {})
  }

  /** The identity checks of the loops on line k. */
  ghost predicate Joins(lines: seq<Json>, k: nat)
    requires k < |lines|
  {
    && Object(lines[0]).Some?
    && Identified(lines[k])
    && EventId(lines[k]) !in Ids(lines, k)
    && Session(lines[k]) == Session(lines[0])
  }

  ghost predicate Checked(lines: seq<Json>, k: nat)
    requires k <= |lines|
  {
    k == 0 || (Checked(lines, k - 1) && Joins(lines, k - 1))
  }

  /** None of the first k lines carries this event id. */
  ghost predicate Fresh(lines: seq<Json>, k: nat, id: string)
    requires k <= |lines|
  {
    forall i :: 0 <= i < k && Object(lines[i]).Some? ==> EventId(lines[i]) != id
  }

  lemma {:induction false} IdsFresh(lines: seq<Json>, k: nat, id: string)
    requires k <= |lines|
    ensures id !in Ids(lines, k) <==> Fresh(lines, k, id)
  {
    if k > 0 {
      IdsFresh(lines, k - 1, id);
    }
  }

  lemma NoLines(lines: seq<Json>)
    ensures SessionUpTo(lines, 0)
  {
  }

  /** Line k extends a session exactly when it passes the checks. */
  lemma SessionGrows(lines: seq<Json>, k: nat)
    requires k < |lines|
    ensures SessionUpTo(lines, k + 1) <==> SessionUpTo(lines, k) && Joins(lines, k)
  {
    hide ValidId, StringField;
    if Object(lines[k]).Some? {
      IdsFresh(lines, k, EventId(lines[k]));
    }
  }

  /** Checking every line as it comes decides the identity of the whole stream. */
  lemma {:induction false} CheckedSession(lines: seq<Json>, k: nat)
    requires k <= |lines|
    ensures Checked(lines, k) <==> SessionUpTo(lines, k)
  {
    hide SessionUpTo, Joins;
    if k == 0 {
      NoLines(lines);
    } else {
      CheckedSession(lines, k - 1);
      SessionGrows(lines, k - 1);
    }
  }

  /** A line that fails its checks spoils the stream. */
  lemma {:induction false} UncheckedStays(lines: seq<Json>, k: nat, n: nat)
    requires k <= n <= |lines| && !Checked(lines, k)
    ensures !Checked(lines, n)
  {
    if k < n {
      UncheckedStays(lines, k, n - 1);
    }
  }
}
