/** How Go's encoding/json lays out and reads the launch input of internal/contracts/provider.go, above the level of
    JSON text: objects are ordered members, struct fields are matched by name, missing members and nulls keep zero
    values, unknown members are ignored, repeated members overwrite. */
module LaunchJson {
  import opened Wrappers

  // ----- The entities -----

  datatype TicketRef = TicketRef(channel: string, project: string, ticket: string)
  datatype Identity = Identity(provider: string, model: string, family: string, version: string)

  /** Every field up to the request digest. A nil slice is None; the schema is bytes. */
  datatype Launch = Launch(ticket: TicketRef, phase: string, attempt: int, leaderEpoch: nat, runnerEpoch: nat,
                           expectedVersion: nat, prompt: string, repository: string, worktree: string,
                           worktreeIdentity: string, baseSHA: string, allowedPaths: Option<seq<string>>,
                           provider: Identity, authMode: string, timeout: int, profile: string, schema: Option<string>)

  datatype Repair = Repair(priorAttempt: int, priorRequestDigest: string)

  datatype Fields = Fields(launch: Launch, requestDigest: string, repair: Option<Repair>)

  // ----- Objects and struct slots -----

  datatype Value = Null | Num(n: int) | Str(s: string) | Arr(items: seq<Value>) | Obj(members: seq<Member>)
  datatype Member = Member(name: string, value: Value)

  /** A struct field: its name and its zero value. Only pointers and slices have the zero value Null. */
  datatype Slot = Slot(name: string, zero: Value)

  /** Whether a member name selects a field name: equality, or equality but for letter case. */
  type Matcher = (string, string) -> bool

  /** What the reader relies on: the matching of names and the base64 coding of byte slices. */
  datatype Library = Library(matches: Matcher, encode64: string -> string, decode64: string -> Option<string>)

  function Find(slots: seq<Slot>, name: string, from: nat, matches: Matcher): (i: nat)
    requires from <= |slots|
    ensures from <= i <= |slots| && (i < |slots| ==> matches(name, slots[i].name))
    ensures forall j :: from <= j < i ==> !matches(name, slots[j].name)
    decreases |slots| - from
  {
    if from == |slots| || matches(name, slots[from].name) then from else Find(slots, name, from + 1, matches)
  }

  function Put(slots: seq<Slot>, values: seq<Value>, m: Member, matches: Matcher): (r: seq<Value>)
    requires |values| == |slots|
    ensures |r| == |slots|
  {
    var i := Find(slots, m.name, 0, matches);
    if i == |slots| || (m.value == Null && slots[i].zero != Null) then values else values[i := m.value]
  }

  function Zeros(slots: seq<Slot>): (r: seq<Value>)
    ensures |r| == |slots| && forall i :: 0 <= i < |slots| ==> r[i] == slots[i].zero
  {
    seq(|slots|, i requires 0 <= i < |slots| => slots[i].zero)
  }

  /** The slots after the first k members. */
  function Fill(slots: seq<Slot>, members: seq<Member>, k: nat, matches: Matcher): (r: seq<Value>)
    requires k <= |members|
    ensures |r| == |slots|
  {
    if k == 0 then Zeros(slots) else Put(slots, Fill(slots, members, k - 1, matches), members[k - 1], matches)
  }

  /** The members the encoder writes for the first n slots. */
  function Written(slots: seq<Slot>, values: seq<Value>, n: nat): (r: seq<Member>)
    requires n <= |slots| == |values|
    ensures |r| == n && forall i :: 0 <= i < n ==> r[i] == Member(slots[i].name, values[i])
  {
    seq(n, i requires 0 <= i < n => Member(slots[i].name, values[i]))
  }

  /** Field names select themselves and no other field. */
  ghost predicate Tells(slots: seq<Slot>, matches: Matcher) {
    forall i, j :: 0 <= i < |slots| && 0 <= j < |slots| ==> (matches(slots[i].name, slots[j].name) <==> i == j)
  }

  /** Null stands only where the field can be nil. */
  ghost predicate Encoded(slots: seq<Slot>, values: seq<Value>) {
    |values| == |slots| && forall i :: 0 <= i < |slots| && values[i] == Null ==> slots[i].zero == Null
  }

  /** The first k slots written, the others at zero. */
  function Partly(slots: seq<Slot>, values: seq<Value>, k: nat): (r: seq<Value>)
    requires k <= |slots| == |values|
    ensures |r| == |slots|
  {
    values[..k] + Zeros(slots)[k..]
  }

  lemma FindsItself(slots: seq<Slot>, k: nat, matches: Matcher)
    requires Tells(slots, matches) && k < |slots|
    ensures Find(slots, slots[k].name, 0, matches) == k
  {
    assert matches(slots[k].name, slots[k].name);
  }

  lemma PutNext(slots: seq<Slot>, values: seq<Value>, k: nat, matches: Matcher)
    requires Tells(slots, matches) && Encoded(slots, values) && k < |slots|
    ensures var m := Member(slots[k].name, values[k]);
            Put(slots, Partly(slots, values, k), m, matches) == Partly(slots, values, k + 1)
  {
    hide Tells, Find;
    FindsItself(slots, k, matches);
    assert Partly(slots, values, k)[k := values[k]] == Partly(slots, values, k + 1);
  }

  /** Reading what was written restores the written slots and leaves the others at zero. */
  lemma {:induction false} FillWritten(slots: seq<Slot>, values: seq<Value>, n: nat, k: nat, matches: Matcher)
    requires Tells(slots, matches) && Encoded(slots, values) && k <= n <= |slots|
    ensures Fill(slots, Written(slots, values, n), k, matches) == Partly(slots, values, k)
  {
    hide Tells, Encoded, Put;
    if k > 0 {
      FillWritten(slots, values, n, k - 1, matches);
      PutNext(slots, values, k - 1, matches);
    } else {
      assert values[..0] == [] && Zeros(slots)[0..] == Zeros(slots);
    }
  }

  lemma FillAll(slots: seq<Slot>, values: seq<Value>, matches: Matcher)
    requires Tells(slots, matches) && Encoded(slots, values)
    ensures Fill(slots, Written(slots, values, |slots|), |slots|, matches) == values
  {
    FillWritten(slots, values, |slots|, |slots|, matches);
    assert Partly(slots, values, |slots|) == values;
  }

  // ----- Single values -----

  function AsNat(v: Value): Option<nat> {
    if v.Num? && v.n >= 0 then Some(v.n) else None
  }

  function Texts(s: seq<string>): (r: seq<Value>)
    ensures |r| == |s| && forall i :: 0 <= i < |s| ==> r[i] == Str(s[i])
  {
    seq(|s|, i requires 0 <= i < |s| => Str(s[i]))
  }

  /** The first k items as texts; a null item is the empty text. */
  function ReadTexts(items: seq<Value>, k: nat): Option<seq<string>>
    requires k <= |items|
  {
    if k == 0 then Some([])
    else
      var front, last := ReadTexts(items, k - 1), items[k - 1];
      if front.None? || !(last.Str? || last.Null?) then None
      else Some(front.value + [if last.Str? then last.s else ""])
  }

  lemma {:induction false} TextsRead(s: seq<string>, k: nat)
    requires k <= |s|
    ensures ReadTexts(Texts(s), k) == Some(s[..k])
  {
    if k > 0 {
      TextsRead(s, k - 1);
      assert s[..k] == s[..k - 1] + [s[k - 1]];
    }
  }

  function FromTexts(s: Option<seq<string>>): Value {
    if s.None? then Null else Arr(Texts(s.value))
  }

  function AsTexts(v: Value): Option<Option<seq<string>>> {
    if v.Null? then Some(None)
    else if !v.Arr? || ReadTexts(v.items, |v.items|).None? then None
    else Some(ReadTexts(v.items, |v.items|))
  }

  lemma TextsRoundTrip(s: Option<seq<string>>)
    ensures AsTexts(FromTexts(s)) == Some(s)
  {
    if s.Some? {
      TextsRead(s.value, |s.value|);
      assert s.value[..|s.value|] == s.value;
    }
  }

  function FromBytes(b: Option<string>, lib: Library): Value {
    if b.None? then Null else Str(lib.encode64(b.value))
  }

  /** A byte slice is a base64 text; any other text is refused. */
  function AsBytes(v: Value, lib: Library): Option<Option<string>> {
    if v.Null? then Some(None)
    else if !v.Str? || lib.decode64(v.s).None? then None
    else Some(lib.decode64(v.s))
  }

  // ----- Nested objects -----

  const TICKET_SLOTS := [Slot("Channel", Str("")), Slot("Project", Str("")), Slot("Ticket", Str(""))]
  const IDENTITY_SLOTS :=
    [Slot("Provider", Str("")), Slot("Model", Str("")), Slot("Family", Str("")), Slot("Version", Str(""))]
  const REPAIR_SLOTS := [Slot("prior_attempt", Num(0)), Slot("prior_request_digest", Str(""))]

  function FromTicket(t: TicketRef): Value {
    Obj(Written(TICKET_SLOTS, [Str(t.channel), Str(t.project), Str(t.ticket)], 3))
  }

  function AsTicket(v: Value, matches: Matcher): Option<TicketRef> {
    if !v.Obj? then None
    else
      var s := Fill(TICKET_SLOTS, v.members, |v.members|, matches);
      if s[0].Str? && s[1].Str? && s[2].Str? then Some(TicketRef(s[0].s, s[1].s, s[2].s)) else None
  }

  function FromIdentity(i: Identity): Value {
    Obj(Written(IDENTITY_SLOTS, [Str(i.provider), Str(i.model), Str(i.family), Str(i.version)], 4))
  }

  function AsIdentity(v: Value, matches: Matcher): Option<Identity> {
    if !v.Obj? then None
    else
      var s := Fill(IDENTITY_SLOTS, v.members, |v.members|, matches);
      if s[0].Str? && s[1].Str? && s[2].Str? && s[3].Str? then Some(Identity(s[0].s, s[1].s, s[2].s, s[3].s)) else None
  }

  function FromRepair(r: Option<Repair>): Value {
    if r.None? then Null
    else Obj(Written(REPAIR_SLOTS, [Num(r.value.priorAttempt), Str(r.value.priorRequestDigest)], 2))
  }

  function AsRepair(v: Value, matches: Matcher): Option<Option<Repair>> {
    if v.Null? then Some(None)
    else if !v.Obj? then None
    else
      var s := Fill(REPAIR_SLOTS, v.members, |v.members|, matches);
      if s[0].Num? && s[1].Str? then Some(Some(Repair(s[0].n, s[1].s))) else None
  }

  lemma TicketRoundTrip(t: TicketRef, matches: Matcher)
    requires Tells(TICKET_SLOTS, matches)
    ensures AsTicket(FromTicket(t), matches) == Some(t)
  {
    FillAll(TICKET_SLOTS, [Str(t.channel), Str(t.project), Str(t.ticket)], matches);
  }

  lemma IdentityRoundTrip(i: Identity, matches: Matcher)
    requires Tells(IDENTITY_SLOTS, matches)
    ensures AsIdentity(FromIdentity(i), matches) == Some(i)
  {
    FillAll(IDENTITY_SLOTS, [Str(i.provider), Str(i.model), Str(i.family), Str(i.version)], matches);
  }

  lemma RepairRoundTrip(r: Option<Repair>, matches: Matcher)
    requires Tells(REPAIR_SLOTS, matches)
    ensures AsRepair(FromRepair(r), matches) == Some(r)
  {
    if r.Some? {
      FillAll(REPAIR_SLOTS, [Num(r.value.priorAttempt), Str(r.value.priorRequestDigest)], matches);
    }
  }

  // ----- The launch input -----

  const ZERO_TICKET := FromTicket(TicketRef("", "", ""))
  const ZERO_IDENTITY := FromIdentity(Identity("", "", "", ""))

  const SLOTS := [
    Slot("Ticket", ZERO_TICKET), Slot("Phase", Str("")), Slot("Attempt", Num(0)), Slot("LeaderEpoch", Num(0)),
    Slot("RunnerEpoch", Num(0)), Slot("ExpectedVersion", Num(0)), Slot("Prompt", Str("")), Slot("Repository", Str("")),
    Slot("Worktree", Str("")), Slot("WorktreeIdentity", Str("")), Slot("BaseSHA", Str("")), Slot("AllowedPaths", Null),
    Slot("Provider", ZERO_IDENTITY), Slot("AuthMode", Str("")), Slot("Timeout", Num(0)), Slot("Profile", Str("")),
    Slot("Schema", Null), Slot("RequestDigest", Str("")), Slot("Repair", Null)]

  function ToValues(f: Fields, lib: Library): (r: seq<Value>)
    ensures |r| == |SLOTS|
  {
    var l := f.launch;
    [FromTicket(l.ticket), Str(l.phase), Num(l.attempt), Num(l.leaderEpoch), Num(l.runnerEpoch), Num(l.expectedVersion),
     Str(l.prompt), Str(l.repository), Str(l.worktree), Str(l.worktreeIdentity), Str(l.baseSHA),
     FromTexts(l.allowedPaths), FromIdentity(l.provider), Str(l.authMode), Num(l.timeout), Str(l.profile),
     FromBytes(l.schema, lib), Str(f.requestDigest), FromRepair(f.repair)]
  }

  /** The plain slots have the kinds of their fields. */
  predicate Plain(v: seq<Value>)
    requires |v| == |SLOTS|
  {
    && v[1].Str? && v[2].Num? && AsNat(v[3]).Some? && AsNat(v[4]).Some? && AsNat(v[5]).Some? && v[6].Str? && v[7].Str?
    && v[8].Str? && v[9].Str? && v[10].Str? && v[13].Str? && v[14].Num? && v[15].Str? && v[17].Str?
  }

  function FromValues(v: seq<Value>, lib: Library): Option<Fields>
    requires |v| == |SLOTS|
  {
    var ticket, paths, identity := AsTicket(v[0], lib.matches), AsTexts(v[11]), AsIdentity(v[12], lib.matches);
    var schema, repair := AsBytes(v[16], lib), AsRepair(v[18], lib.matches);
    if !Plain(v) || ticket.None? || paths.None? || identity.None? || schema.None? || repair.None? then None
    else
      Some(Fields(Launch(ticket.value, v[1].s, v[2].n, v[3].n, v[4].n, v[5].n, v[6].s, v[7].s, v[8].s, v[9].s, v[10].s,
                         paths.value, identity.value, v[13].s, v[14].n, v[15].s, schema.value),
                  v[17].s, repair.value))
  }

  /** The two shapes: all members, or all but the last. */
  function Document53(f: Fields, lib: Library): seq<Member> {
    Written(SLOTS, ToValues(f, lib), |SLOTS|)
  }

  function Document52(f: Fields, lib: Library): seq<Member> {
    Written(SLOTS, ToValues(f, lib), |SLOTS| - 1)
  }

  /** The current document, member by member: every field under its own name, in the order of the struct. */
  lemma DocumentInFull(f: Fields, lib: Library)
    ensures var l := f.launch;
            Document53(f, lib) ==
              [Member("Ticket", Obj([Member("Channel", Str(l.ticket.channel)), Member("Project", Str(l.ticket.project)),
                                     Member("Ticket", Str(l.ticket.ticket))])),
               Member("Phase", Str(l.phase)), Member("Attempt", Num(l.attempt)),
               Member("LeaderEpoch", Num(l.leaderEpoch)), Member("RunnerEpoch", Num(l.runnerEpoch)),
               Member("ExpectedVersion", Num(l.expectedVersion)), Member("Prompt", Str(l.prompt)),
               Member("Repository", Str(l.repository)), Member("Worktree", Str(l.worktree)),
               Member("WorktreeIdentity", Str(l.worktreeIdentity)), Member("BaseSHA", Str(l.baseSHA)),
               Member("AllowedPaths", if l.allowedPaths.None? then Null else Arr(Texts(l.allowedPaths.value))),
               Member("Provider", Obj([Member("Provider", Str(l.provider.provider)),
                                       Member("Model", Str(l.provider.model)), Member("Family", Str(l.provider.family)),
                                       Member("Version", Str(l.provider.version))])),
               Member("AuthMode", Str(l.authMode)), Member("Timeout", Num(l.timeout)),
               Member("Profile", Str(l.profile)),
               Member("Schema", if l.schema.None? then Null else Str(lib.encode64(l.schema.value))),
               Member("RequestDigest", Str(f.requestDigest)),
               Member("Repair", if f.repair.None? then Null
                                else Obj([Member("prior_attempt", Num(f.repair.value.priorAttempt)),
                                          Member("prior_request_digest", Str(f.repair.value.priorRequestDigest))]))]
    ensures Document52(f, lib) == Document53(f, lib)[..18]
  {
    hide FromTicket, FromIdentity, FromRepair;
    var l := f.launch;
    TicketInFull(l.ticket);
    IdentityInFull(l.provider);
    RepairInFull(f.repair);
  }

  lemma TicketInFull(t: TicketRef)
    ensures FromTicket(t) == Obj([Member("Channel", Str(t.channel)), Member("Project", Str(t.project)),
                                  Member("Ticket", Str(t.ticket))])
  {
    assert FromTicket(t).members ==
           [Member("Channel", Str(t.channel)), Member("Project", Str(t.project)), Member("Ticket", Str(t.ticket))];
  }

  lemma IdentityInFull(i: Identity)
    ensures FromIdentity(i) == Obj([Member("Provider", Str(i.provider)), Member("Model", Str(i.model)),
                                    Member("Family", Str(i.family)), Member("Version", Str(i.version))])
  {
    assert FromIdentity(i).members == [Member("Provider", Str(i.provider)), Member("Model", Str(i.model)),
                                       Member("Family", Str(i.family)), Member("Version", Str(i.version))];
  }

  lemma RepairInFull(r: Option<Repair>)
    ensures FromRepair(r) == if r.None? then Null
                             else Obj([Member("prior_attempt", Num(r.value.priorAttempt)),
                                       Member("prior_request_digest", Str(r.value.priorRequestDigest))])
  {
    if r.Some? {
      assert FromRepair(r).members == [Member("prior_attempt", Num(r.value.priorAttempt)),
                                       Member("prior_request_digest", Str(r.value.priorRequestDigest))];
    }
  }

  function Read(members: seq<Member>, lib: Library): Option<Fields> {
    FromValues(Fill(SLOTS, members, |members|, lib.matches), lib)
  }

  ghost predicate GoodMatcher(matches: Matcher) {
    && Tells(SLOTS, matches) && Tells(TICKET_SLOTS, matches)
    && Tells(IDENTITY_SLOTS, matches) && Tells(REPAIR_SLOTS, matches)
  }

  ghost predicate GoodLibrary(lib: Library) {
    GoodMatcher(lib.matches) && forall b :: lib.decode64(lib.encode64(b)) == Some(b)
  }

  /** The case folding of member names: ASCII letters, the long s and the Kelvin sign. */
  function Folded(c: char): char {
    if 'A' <= c <= 'Z' then c + 'a' - 'A' else if c == '\U{17F}' then 's' else if c == '\U{212A}' then 'k' else c
  }

  predicate SameButCase(a: string, b: string) {
    |a| == |b| && forall i :: 0 <= i < |a| ==> Folded(a[i]) == Folded(b[i])
  }

  /** Exact matching, matching but for case, and preferring the one to the other are all of this kind. */
  ghost predicate MatchesCase(matches: Matcher) {
    (forall a :: matches(a, a)) && (forall a, b :: matches(a, b) ==> SameButCase(a, b))
  }

  /** Length and first letter, in either case, tell the field names apart. */
  lemma NamesDiffer(i: nat, j: nat)
    requires i < j < |SLOTS|
    ensures !SameButCase(SLOTS[i].name, SLOTS[j].name) && !SameButCase(SLOTS[j].name, SLOTS[i].name)
  {
    assert |SLOTS[i].name| != |SLOTS[j].name| || Folded(SLOTS[i].name[0]) != Folded(SLOTS[j].name[0]);
  }

  lemma SlotsTold(matches: Matcher)
    requires MatchesCase(matches)
    ensures Tells(SLOTS, matches)
  {
    hide SLOTS, SameButCase;
    forall i, j | 0 <= i < |SLOTS| && 0 <= j < |SLOTS| ensures matches(SLOTS[i].name, SLOTS[j].name) <==> i == j {
      if i < j {
        NamesDiffer(i, j);
      } else if j < i {
        NamesDiffer(j, i);
      }
    }
  }

  lemma NestedSlotsTold(matches: Matcher)
    requires MatchesCase(matches)
    ensures Tells(TICKET_SLOTS, matches) && Tells(IDENTITY_SLOTS, matches) && Tells(REPAIR_SLOTS, matches)
  {
    NestedNamesDiffer();
  }

  /** Different slots have names that differ by more than case. */
  ghost predicate Apart(slots: seq<Slot>) {
    forall i, j :: 0 <= i < |slots| && 0 <= j < |slots| && i != j ==> !SameButCase(slots[i].name, slots[j].name)
  }

  lemma NestedNamesDiffer()
    ensures Apart(TICKET_SLOTS) && Apart(IDENTITY_SLOTS) && Apart(REPAIR_SLOTS)
  {
    assert Folded("Channel"[0]) != Folded("Project"[0]);
  }

  /** Go's matching of member names tells all field names apart. */
  lemma CaseMatchingIsGood(matches: Matcher)
    requires MatchesCase(matches)
    ensures GoodMatcher(matches)
  {
    hide SLOTS;
    SlotsTold(matches);
    NestedSlotsTold(matches);
  }

  lemma ValuesRoundTrip(f: Fields, lib: Library)
    requires GoodLibrary(lib)
    ensures FromValues(ToValues(f, lib), lib) == Some(f)
  {
    hide AsTicket, FromTicket, AsIdentity, FromIdentity, AsRepair, FromRepair, AsTexts, FromTexts, Tells;
    TicketRoundTrip(f.launch.ticket, lib.matches);
    IdentityRoundTrip(f.launch.provider, lib.matches);
    RepairRoundTrip(f.repair, lib.matches);
    TextsRoundTrip(f.launch.allowedPaths);
  }

  lemma ValuesEncoded(f: Fields, lib: Library)
    ensures Encoded(SLOTS, ToValues(f, lib))
  {
  }

  /** The decoder reads back the current shape. */
  lemma Read53(f: Fields, lib: Library)
    requires GoodLibrary(lib)
    ensures Read(Document53(f, lib), lib) == Some(f)
  {
    hide ToValues, FromValues, Tells, Encoded;
    ValuesEncoded(f, lib);
    FillAll(SLOTS, ToValues(f, lib), lib.matches);
    ValuesRoundTrip(f, lib);
  }

  /** And the older one, whose missing member is a nil repair. */
  lemma Read52(f: Fields, lib: Library)
    requires GoodLibrary(lib)
    ensures Read(Document52(f, lib), lib) == Some(f.(repair := None))
  {
    var plain := f.(repair := None);
    ValuesEncoded(plain, lib);
    ValuesEncoded(f, lib);
    FillWritten(SLOTS, ToValues(f, lib), |SLOTS| - 1, |SLOTS| - 1, lib.matches);
    WithoutRepair(f, lib);
    ValuesRoundTrip(plain, lib);
  }

  lemma WithoutRepair(f: Fields, lib: Library)
    ensures Partly(SLOTS, ToValues(f, lib), |SLOTS| - 1) == ToValues(f.(repair := None), lib)
  {
  }

  predicate HasMember(members: seq<Member>, name: string) {
    exists i :: 0 <= i < |members| && members[i].name == name
  }

  lemma RepairMember(f: Fields, lib: Library)
    ensures HasMember(Document53(f, lib), "Repair") && !HasMember(Document52(f, lib), "Repair")
  {
    assert Document53(f, lib)[|SLOTS| - 1].name == "Repair";
    OnlyLastIsRepair();
  }

  lemma OnlyLastIsRepair()
    ensures forall i :: 0 <= i < |SLOTS| - 1 ==> SLOTS[i].name != "Repair"
  {
  }
}
