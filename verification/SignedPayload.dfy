/** The byte strings that the supervisor and the qualification run sign (internal/contracts/provider.go):
    text fields and decimal numbers joined by NUL bytes. */
module SignedPayload {
  import opened LaunchJson

  const NUL := '\0'

  // ----- Decimal numbers, as %d prints them -----

  function Digits(n: nat): (s: string)
    ensures s != "" && forall i :: 0 <= i < |s| ==> '0' <= s[i] <= '9'
  {
    if n < 10 then ['0' + n as char] else Digits(n / 10) + ['0' + (n % 10) as char]
  }

  function Decimal(n: int): string {
    if n < 0 then "-" + Digits(-n) else Digits(n)
  }

  function Value(s: string): int {
    if s == "" then 0 else Value(s[..|s| - 1]) * 10 + (s[|s| - 1] as int - '0' as int)
  }

  lemma {:induction false} DigitsValue(n: nat)
    ensures Value(Digits(n)) == n
  {
    if n >= 10 {
      DigitsValue(n / 10);
      var s := Digits(n);
      assert s[..|s| - 1] == Digits(n / 10);
    } else {
      assert Digits(n)[..0] == "";
    }
  }

  lemma DecimalInjective(a: int, b: int)
    requires Decimal(a) == Decimal(b)
    ensures a == b
  {
    assert Digits(if a < 0 then -a else a) != "" && Digits(if b < 0 then -b else b) != "";
    assert (a < 0) == (Decimal(a)[0] == '-') && (b < 0) == (Decimal(b)[0] == '-');
    if a < 0 {
      assert Decimal(a)[1..] == Digits(-a) && Decimal(b)[1..] == Digits(-b);
    }
    DigitsValue(if a < 0 then -a else a);
    DigitsValue(if b < 0 then -b else b);
  }

  // ----- NUL-joined fields -----

  predicate Clean(s: string) {
    NUL !in s
  }

  predicate CleanTexts(texts: seq<string>) {
    forall i :: 0 <= i < |texts| ==> Clean(texts[i])
  }

  function Joined(fields: seq<string>): string
    requires fields != []
  {
    if |fields| == 1 then fields[0] else fields[0] + [NUL] + Joined(fields[1..])
  }

  predicate FirstNul(s: string, k: nat) {
    k < |s| && s[k] == NUL && forall j :: 0 <= j < k ==> s[j] != NUL
  }

  lemma CleanThenNul(a: string, x: string)
    requires Clean(a)
    ensures FirstNul(a + [NUL] + x, |a|)
  {
    var s := a + [NUL] + x;
    forall j | 0 <= j < |a| ensures s[j] != NUL {
      assert s[j] == a[j];
    }
  }

  /** The first NUL tells where the first field ends. */
  lemma FirstField(a: string, b: string, x: string, y: string)
    requires Clean(a) && Clean(b) && a + [NUL] + x == b + [NUL] + y
    ensures a == b && x == y
  {
    var s := a + [NUL] + x;
    CleanThenNul(a, x);
    CleanThenNul(b, y);
    assert |a| == |b|;
    assert s[..|a|] == a && s[..|b|] == b && s[|a| + 1..] == x && s[|b| + 1..] == y;
  }

  lemma SeveralFields(fields: seq<string>)
    requires fields != [] && CleanTexts(fields)
    ensures NUL in Joined(fields) <==> |fields| > 1
  {
    if |fields| > 1 {
      assert Joined(fields)[|fields[0]|] == NUL;
    }
  }

  lemma {:induction false} JoinedInjective(a: seq<string>, b: seq<string>)
    requires a != [] && b != [] && Joined(a) == Joined(b) && CleanTexts(a) && CleanTexts(b)
    ensures a == b
    decreases |a|
  {
    SeveralFields(a);
    SeveralFields(b);
    if |a| > 1 {
      FirstField(a[0], b[0], Joined(a[1..]), Joined(b[1..]));
      JoinedInjective(a[1..], b[1..]);
      assert a == [a[0]] + a[1..] && b == [b[0]] + b[1..];
    }
  }

  // ----- Splitting at NUL bytes -----

  /** The pieces between NUL bytes. */
  function Pieces(s: string): (r: seq<string>)
    ensures r != []
  {
    if s == "" then [""]
    else
      var rest := Pieces(s[1..]);
      if s[0] == NUL then [""] + rest else [[s[0]] + rest[0]] + rest[1..]
  }

  lemma {:induction false} PiecesClean(s: string)
    ensures CleanTexts(Pieces(s)) && Joined(Pieces(s)) == s
  {
    if s != "" {
      PiecesClean(s[1..]);
      var rest := Pieces(s[1..]);
      if s[0] == NUL {
        assert ([""] + rest)[1..] == rest;
        assert s == "" + [NUL] + s[1..];
      } else {
        var all := [[s[0]] + rest[0]] + rest[1..];
        assert all[1..] == rest[1..];
        assert |rest| > 1 ==> Joined(all) == [s[0]] + Joined(rest);
        assert s == [s[0]] + s[1..];
      }
    }
  }

  /** A clean string is its only piece, and the only kind of string with one piece. */
  lemma OnePiece(s: string)
    ensures Clean(s) <==> |Pieces(s)| == 1
    ensures Clean(s) ==> Pieces(s) == [s]
  {
    PiecesClean(s);
    SeveralFields(Pieces(s));
    assert |Pieces(s)| == 1 ==> Pieces(s) == [Joined(Pieces(s))];
  }

  lemma JoinedHead(first: string, rest: seq<string>)
    requires rest != []
    ensures Joined([first] + rest) == first + [NUL] + Joined(rest)
  {
    assert ([first] + rest)[1..] == rest;
  }

  /** A run of fields may be joined first. */
  lemma {:induction false} JoinedGroup(front: seq<string>, group: seq<string>, rest: seq<string>)
    requires group != []
    ensures Joined(front + [Joined(group)] + rest) == Joined(front + group + rest)
    decreases |front| + |group|
  {
    hide Joined;
    if front != [] {
      var a, b := front[1..] + [Joined(group)] + rest, front[1..] + group + rest;
      JoinedGroup(front[1..], group, rest);
      JoinedHead(front[0], a);
      JoinedHead(front[0], b);
      assert front + [Joined(group)] + rest == [front[0]] + a && front + group + rest == [front[0]] + b;
    } else if |group| == 1 {
      JoinedOne(group);
    } else {
      var tail := group[1..];
      JoinedGroup([], tail, rest);
      JoinedHead(group[0], tail);
      JoinedHead(group[0], tail + rest);
      assert group == [group[0]] + tail && [] + group + rest == [group[0]] + (tail + rest);
      JoinedTail(Joined(group), rest);
      JoinedTail(Joined(tail), rest);
      assert [] + tail + rest == tail + rest;
    }
  }

  lemma JoinedOne(group: seq<string>)
    requires |group| == 1
    ensures [Joined(group)] == group
  {
  }

  lemma JoinedTail(first: string, rest: seq<string>)
    ensures Joined([] + [first] + rest) == if rest == [] then first else first + [NUL] + Joined(rest)
  {
    assert ([] + [first] + rest)[1..] == rest;
  }

  /** All pieces of all fields. */
  function AllPieces(fields: seq<string>): (r: seq<string>)
    ensures |r| >= |fields|
  {
    if fields == [] then [] else Pieces(fields[0]) + AllPieces(fields[1..])
  }

  lemma {:induction false} AllPiecesJoin(fields: seq<string>)
    requires fields != []
    ensures CleanTexts(AllPieces(fields)) && AllPieces(fields) != [] && Joined(AllPieces(fields)) == Joined(fields)
  {
    hide Pieces;
    var first, rest := Pieces(fields[0]), AllPieces(fields[1..]);
    PiecesClean(fields[0]);
    if |fields| == 1 {
      assert rest == [] && first + rest == first;
    } else {
      AllPiecesJoin(fields[1..]);
      JoinedGroup([], first, rest);
      assert [] + first + rest == first + rest;
      JoinedTail(fields[0], rest);
    }
  }

  lemma PiecesAssociate(x: seq<string>, y: seq<string>, z: seq<string>)
    ensures x + (y + z) == (x + y) + z
  {
  }

  lemma {:induction false} AllPiecesConcat(a: seq<string>, b: seq<string>)
    ensures AllPieces(a + b) == AllPieces(a) + AllPieces(b)
  {
    hide Pieces;
    if a == [] {
      assert a + b == b;
    } else {
      AllPiecesConcat(a[1..], b);
      assert (a + b)[1..] == a[1..] + b;
      PiecesAssociate(Pieces(a[0]), AllPieces(a[1..]), AllPieces(b));
    }
  }

  /** Clean fields are their own pieces, and only clean fields have so few. */
  lemma {:induction false} AllPiecesClean(fields: seq<string>)
    ensures CleanTexts(fields) <==> |AllPieces(fields)| == |fields|
    ensures CleanTexts(fields) ==> AllPieces(fields) == fields
  {
    if fields != [] {
      OnePiece(fields[0]);
      AllPiecesClean(fields[1..]);
      assert CleanTexts(fields) <==> Clean(fields[0]) && CleanTexts(fields[1..]) by {
        assert forall i :: 1 <= i < |fields| ==> fields[i] == fields[1..][i - 1];
        assert forall i :: 0 <= i < |fields[1..]| ==> fields[1..][i] == fields[i + 1];
      }
    }
  }

  /** Equal joins have the same pieces. */
  lemma JoinedFixesPieces(a: seq<string>, b: seq<string>)
    requires a != [] && b != [] && Joined(a) == Joined(b)
    ensures AllPieces(a) == AllPieces(b)
  {
    AllPiecesJoin(a);
    AllPiecesJoin(b);
    JoinedInjective(AllPieces(a), AllPieces(b));
  }

  /** Clean fields are told from any other list of as many fields, clean or not. */
  lemma CleanFieldsAreFixed(a: seq<string>, b: seq<string>)
    requires CleanTexts(a) && |a| == |b| > 0 && Joined(a) == Joined(b)
    ensures a == b
  {
    JoinedFixesPieces(a, b);
    AllPiecesClean(a);
    AllPiecesClean(b);
  }

  lemma JoinedPair(u: string, v: string)
    ensures Joined([u, v]) == u + [NUL] + v
  {
    assert [u, v][1..] == [v];
  }

  lemma JoinedMoves(front: seq<string>, p: string, q: string, t: string, rest: seq<string>)
    ensures Joined(front + [p + [NUL] + q, t] + rest) == Joined(front + [p, q + [NUL] + t] + rest)
  {
    hide Joined;
    JoinedPair(p, q);
    JoinedPair(q, t);
    JoinedGroup(front, [p, q], [t] + rest);
    JoinedGroup(front + [p], [q, t], rest);
    assert front + [p + [NUL] + q, t] + rest == front + [p + [NUL] + q] + ([t] + rest);
    assert front + [p, q + [NUL] + t] + rest == (front + [p]) + [q + [NUL] + t] + rest;
    assert front + [p, q] + ([t] + rest) == (front + [p]) + [q, t] + rest;
  }

  /** Among two or more texts a NUL can always move into a neighbour. */
  lemma NulMoves(front: seq<string>, texts: seq<string>, rest: seq<string>) returns (other: seq<string>)
    requires |texts| >= 2 && !CleanTexts(texts)
    ensures |other| == |texts| && other != texts && Joined(front + other + rest) == Joined(front + texts + rest)
  {
    hide Joined;
    var i :| 0 <= i < |texts| && !Clean(texts[i]);
    var k :| 0 <= k < |texts[i]| && texts[i][k] == NUL;
    var p, q := texts[i][..k], texts[i][k + 1..];
    assert texts[i] == p + [NUL] + q;
    if i + 1 < |texts| {
      var t, before, after := texts[i + 1], front + texts[..i], texts[i + 2..] + rest;
      other := texts[..i] + [p, q + [NUL] + t] + texts[i + 2..];
      JoinedMoves(before, p, q, t, after);
      assert texts == texts[..i] + [p + [NUL] + q, t] + texts[i + 2..];
      assert front + texts + rest == before + [p + [NUL] + q, t] + after;
      assert front + other + rest == before + [p, q + [NUL] + t] + after;
      assert |other[i]| < |texts[i]|;
    } else {
      var t, before := texts[i - 1], front + texts[..i - 1];
      other := texts[..i - 1] + [t + [NUL] + p, q];
      JoinedMoves(before, t, p, q, rest);
      assert texts == texts[..i - 1] + [t, p + [NUL] + q];
      assert front + texts + rest == before + [t, p + [NUL] + q] + rest;
      assert front + other + rest == before + [t + [NUL] + p, q] + rest;
      assert |other[i]| < |texts[i]|;
    }
  }

  lemma DecimalClean(n: int)
    ensures Clean(Decimal(n))
  {
  }

  // ----- Drain requests -----

  datatype DrainRequest = DrainRequest(claimID: int, ref: TicketRef, phase: string, role: string, identity: Identity,
                                       leaseKey: string, bindingDigest: string, binaryDigest: string,
                                       policyDigest: string, authDigest: string, authMode: string, repository: string,
                                       worktree: string, worktreeIdentity: string, baseSHA: string,
                                       requestDigest: string, leaderEpoch: nat, runnerEpoch: nat,
                                       expectedVersion: nat, attempt: int)

  function DrainTexts(r: DrainRequest): seq<string> {
    [r.ref.channel, r.ref.project, r.ref.ticket, r.phase, r.role, r.identity.provider, r.identity.model,
     r.identity.family, r.identity.version, r.leaseKey, r.bindingDigest, r.binaryDigest, r.policyDigest, r.authDigest,
     r.authMode, r.repository, r.worktree, r.worktreeIdentity, r.baseSHA, r.requestDigest]
  }

  function DrainNumbers(r: DrainRequest): seq<string> {
    [Decimal(r.leaderEpoch), Decimal(r.runnerEpoch), Decimal(r.expectedVersion), Decimal(r.attempt)]
  }

  function DrainFields(r: DrainRequest): seq<string> {
    [Decimal(r.claimID)] + DrainTexts(r) + DrainNumbers(r)
  }

  function DrainPayload(r: DrainRequest): string {
    Joined(DrainFields(r))
  }

  lemma DrainFieldsClean(r: DrainRequest)
    requires CleanTexts(DrainTexts(r))
    ensures CleanTexts(DrainFields(r))
  {
    hide Decimal;
    DecimalClean(r.claimID);
    DecimalClean(r.leaderEpoch);
    DecimalClean(r.runnerEpoch);
    DecimalClean(r.expectedVersion);
    DecimalClean(r.attempt);
    var texts, numbers := DrainTexts(r), DrainNumbers(r);
    forall i | 0 <= i < 25 ensures Clean(DrainFields(r)[i]) {
      if 1 <= i < 21 {
        assert DrainFields(r)[i] == texts[i - 1];
      } else if 21 <= i {
        assert DrainFields(r)[i] == numbers[i - 21];
      }
    }
  }

  lemma DrainParts(a: DrainRequest, b: DrainRequest)
    requires DrainFields(a) == DrainFields(b)
    ensures Decimal(a.claimID) == Decimal(b.claimID)
    ensures DrainTexts(a) == DrainTexts(b) && DrainNumbers(a) == DrainNumbers(b)
  {
    hide Decimal;
    assert DrainFields(a)[0] == Decimal(a.claimID) && DrainFields(b)[0] == Decimal(b.claimID);
    assert DrainFields(a)[1..21] == DrainTexts(a) && DrainFields(b)[1..21] == DrainTexts(b);
    assert DrainFields(a)[21..] == DrainNumbers(a) && DrainFields(b)[21..] == DrainNumbers(b);
  }

  lemma TextsFixRequest(a: DrainRequest, b: DrainRequest)
    requires DrainTexts(a) == DrainTexts(b)
    ensures a.(claimID := b.claimID, leaderEpoch := b.leaderEpoch, runnerEpoch := b.runnerEpoch,
               expectedVersion := b.expectedVersion, attempt := b.attempt) == b
  {
    var s, t := DrainTexts(a), DrainTexts(b);
    assert forall i :: 0 <= i < 20 ==> s[i] == t[i];
    assert s[0] == t[0] && s[1] == t[1] && s[2] == t[2] && s[3] == t[3] && s[4] == t[4] && s[5] == t[5] && s[6] == t[6]
        && s[7] == t[7] && s[8] == t[8] && s[9] == t[9] && s[10] == t[10] && s[11] == t[11] && s[12] == t[12]
        && s[13] == t[13] && s[14] == t[14] && s[15] == t[15] && s[16] == t[16] && s[17] == t[17]
        && s[18] == t[18] && s[19] == t[19];
  }

  /** A signature over a request with clean texts fits no other request, clean or not. */
  lemma DrainPayloadInjective(a: DrainRequest, b: DrainRequest)
    requires CleanTexts(DrainTexts(a)) && DrainPayload(a) == DrainPayload(b)
    ensures a == b
  {
    hide Decimal, Joined;
    DrainFieldsClean(a);
    DrainFieldsAgree(a, b);
    DrainParts(a, b);
    TextsFixRequest(a, b);
    NumbersAgree(a, b);
  }

  lemma DrainFieldsAgree(a: DrainRequest, b: DrainRequest)
    requires CleanTexts(DrainFields(a)) && DrainPayload(a) == DrainPayload(b)
    ensures DrainFields(a) == DrainFields(b)
  {
    CleanFieldsAreFixed(DrainFields(a), DrainFields(b));
  }

  function WithDrainTexts(r: DrainRequest, t: seq<string>): (b: DrainRequest)
    requires |t| == |DrainTexts(r)|
    ensures DrainTexts(b) == t && b.claimID == r.claimID && DrainNumbers(b) == DrainNumbers(r)
  {
    r.(ref := TicketRef(t[0], t[1], t[2]), phase := t[3], role := t[4], identity := Identity(t[5], t[6], t[7], t[8]),
       leaseKey := t[9], bindingDigest := t[10], binaryDigest := t[11], policyDigest := t[12], authDigest := t[13],
       authMode := t[14], repository := t[15], worktree := t[16], worktreeIdentity := t[17], baseSHA := t[18],
       requestDigest := t[19])
  }

  /** Another request with the same payload. */
  ghost predicate DrainCollides(a: DrainRequest) {
    exists b :: b != a && DrainPayload(b) == DrainPayload(a)
  }

  /** The exact condition: a payload belongs to a second request if and only if some text field holds a NUL. */
  lemma DrainCollidesExactly(a: DrainRequest)
    ensures DrainCollides(a) <==> !CleanTexts(DrainTexts(a))
  {
    hide Decimal, Joined, DrainTexts;
    if CleanTexts(DrainTexts(a)) {
      forall b | DrainPayload(b) == DrainPayload(a) ensures b == a {
        DrainPayloadInjective(a, b);
      }
    } else {
      TextCount(a);
      var other := NulMoves([Decimal(a.claimID)], DrainTexts(a), DrainNumbers(a));
      var b := WithDrainTexts(a, other);
      assert DrainPayload(b) == DrainPayload(a) && b != a;
    }
  }

  lemma TextCount(r: DrainRequest)
    ensures |DrainTexts(r)| == 20
  {
  }

  lemma NumbersAgree(a: DrainRequest, b: DrainRequest)
    requires Decimal(a.claimID) == Decimal(b.claimID) && DrainNumbers(a) == DrainNumbers(b)
    ensures a.claimID == b.claimID && a.leaderEpoch == b.leaderEpoch && a.runnerEpoch == b.runnerEpoch
         && a.expectedVersion == b.expectedVersion && a.attempt == b.attempt
  {
    hide Decimal;
    var s, t := DrainNumbers(a), DrainNumbers(b);
    assert s[0] == t[0] && s[1] == t[1] && s[2] == t[2] && s[3] == t[3];
    DecimalInjective(a.claimID, b.claimID);
    DecimalInjective(a.leaderEpoch, b.leaderEpoch);
    DecimalInjective(a.runnerEpoch, b.runnerEpoch);
    DecimalInjective(a.expectedVersion, b.expectedVersion);
    DecimalInjective(a.attempt, b.attempt);
  }

  // ----- Qualification attestations -----

  datatype Attestation = Attestation(channel: string, runID: string, identity: Identity, binaryDigest: string,
                                     policyDigest: string, fixtureDigest: string, authDigest: string, authMode: string,
                                     probeDigest: string, profile: string, createdUnixNanos: int, leaderEpoch: nat,
                                     nonce: string, signature: string)

  const TAG := "sf-qualification/v2"

  function AttestationTexts(v: Attestation): seq<string> {
    [v.channel, v.runID, v.identity.provider, v.identity.model, v.identity.family, v.identity.version, v.binaryDigest,
     v.policyDigest, v.fixtureDigest, v.authDigest, v.authMode, v.probeDigest, v.profile]
  }

  function AttestationFields(v: Attestation): seq<string> {
    [TAG] + AttestationTexts(v) + [Decimal(v.createdUnixNanos), Decimal(v.leaderEpoch), v.nonce]
  }

  function QualificationPayload(v: Attestation): string {
    Joined(AttestationFields(v))
  }

  predicate CleanAttestation(v: Attestation) {
    CleanTexts(AttestationTexts(v)) && Clean(v.nonce)
  }

  lemma AttestationFieldsClean(v: Attestation)
    requires CleanAttestation(v)
    ensures CleanTexts(AttestationFields(v))
  {
    hide Decimal;
    DecimalClean(v.createdUnixNanos);
    DecimalClean(v.leaderEpoch);
    assert Clean(TAG);
    var texts, fields := AttestationTexts(v), AttestationFields(v);
    forall i | 0 <= i < 17 ensures Clean(fields[i]) {
      if 1 <= i < 14 {
        assert fields[i] == texts[i - 1];
      }
    }
  }

  lemma AttestationParts(a: Attestation, b: Attestation)
    requires AttestationFields(a) == AttestationFields(b)
    ensures AttestationTexts(a) == AttestationTexts(b) && Decimal(a.createdUnixNanos) == Decimal(b.createdUnixNanos)
         && Decimal(a.leaderEpoch) == Decimal(b.leaderEpoch) && a.nonce == b.nonce
  {
    hide Decimal;
    var s, t := AttestationFields(a), AttestationFields(b);
    assert s[1..14] == AttestationTexts(a) && t[1..14] == AttestationTexts(b);
    assert s[14] == t[14] && s[15] == t[15] && s[16] == t[16];
  }

  /** The same attestation but for the signature. */
  predicate SameClaims(a: Attestation, b: Attestation) {
    a.(signature := b.signature) == b
  }

  lemma PartsFixClaims(a: Attestation, b: Attestation)
    requires AttestationTexts(a) == AttestationTexts(b) && a.createdUnixNanos == b.createdUnixNanos
    requires a.leaderEpoch == b.leaderEpoch && a.nonce == b.nonce
    ensures SameClaims(a, b)
  {
    var s, t := AttestationTexts(a), AttestationTexts(b);
    assert s[0] == t[0] && s[1] == t[1] && s[2] == t[2] && s[3] == t[3] && s[4] == t[4] && s[5] == t[5] && s[6] == t[6]
        && s[7] == t[7] && s[8] == t[8] && s[9] == t[9] && s[10] == t[10] && s[11] == t[11] && s[12] == t[12];
  }

  /** A signed clean attestation determines everything but its signature, against any other attestation. */
  lemma QualificationPayloadInjective(a: Attestation, b: Attestation)
    requires CleanAttestation(a) && QualificationPayload(a) == QualificationPayload(b)
    ensures SameClaims(a, b)
  {
    hide Decimal, Joined, SameClaims, AttestationTexts;
    AttestationFieldsClean(a);
    FieldCount(a);
    FieldCount(b);
    CleanFieldsAreFixed(AttestationFields(a), AttestationFields(b));
    AttestationParts(a, b);
    DecimalInjective(a.createdUnixNanos, b.createdUnixNanos);
    DecimalInjective(a.leaderEpoch, b.leaderEpoch);
    PartsFixClaims(a, b);
  }

  lemma FieldCount(v: Attestation)
    ensures |AttestationTexts(v)| == 13 && |AttestationFields(v)| == 17
  {
  }

  // ----- What is signed and verified -----

  const PROFILE := "qualified_guarded"
  const INT64 := 0x8000_0000_0000_0000
  const UINT64 := 0x1_0000_0000_0000_0000

  /** The validation in front of every signature and every verification, with the widths of the two numbers. */
  predicate Signable(v: Attestation) {
    && v.channel in {"stable", "dev"} && v.runID != ""
    && v.identity.provider != "" && v.identity.model != "" && v.identity.family != "" && v.identity.version != ""
    && 1 <= |v.authMode| <= 64
    && 0 < v.createdUnixNanos < INT64 && 0 < v.leaderEpoch < UINT64
    && v.nonce != "" && v.profile == PROFILE
    && |v.binaryDigest| == |v.policyDigest| == |v.fixtureDigest| == |v.authDigest| == |v.probeDigest| == 64
  }

  /** What follows the channel. */
  function Body(v: Attestation): (fields: seq<string>)
    ensures |fields| == 15
  {
    [v.runID, v.identity.provider, v.identity.model, v.identity.family, v.identity.version, v.binaryDigest,
     v.policyDigest, v.fixtureDigest, v.authDigest, v.authMode, v.probeDigest, v.profile,
     Decimal(v.createdUnixNanos), Decimal(v.leaderEpoch), v.nonce]
  }

  /** A printed positive number below the bound. */
  predicate Number(s: string, bound: nat) {
    0 < Value(s) < bound && s == Digits(Value(s))
  }

  /** The same validation on fifteen texts. */
  predicate Acceptable(f: seq<string>)
    requires |f| == 15
  {
    && f[0] != "" && f[1] != "" && f[2] != "" && f[3] != "" && f[4] != ""
    && |f[5]| == |f[6]| == |f[7]| == |f[8]| == |f[10]| == 64
    && 1 <= |f[9]| <= 64 && f[11] == PROFILE
    && Number(f[12], INT64) && Number(f[13], UINT64) && f[14] != ""
  }

  lemma NumbersPrinted(v: Attestation)
    requires Signable(v)
    ensures Number(Decimal(v.createdUnixNanos), INT64) && Number(Decimal(v.leaderEpoch), UINT64)
  {
    DigitsValue(v.createdUnixNanos);
    DigitsValue(v.leaderEpoch);
  }

  lemma SignableBody(v: Attestation)
    requires Signable(v)
    ensures Acceptable(Body(v))
  {
    hide Decimal, Number;
    NumbersPrinted(v);
  }

  /** The attestation with these fifteen texts. */
  function WithBody(v: Attestation, f: seq<string>): (b: Attestation)
    requires Signable(v) && |f| == 15 && Acceptable(f)
    ensures Signable(b) && Body(b) == f && b.channel == v.channel && b.signature == v.signature
  {
    v.(runID := f[0], identity := Identity(f[1], f[2], f[3], f[4]), binaryDigest := f[5], policyDigest := f[6],
       fixtureDigest := f[7], authDigest := f[8], authMode := f[9], probeDigest := f[10], profile := f[11],
       createdUnixNanos := Value(f[12]), leaderEpoch := Value(f[13]), nonce := f[14])
  }

  lemma BodyFixesClaims(a: Attestation, b: Attestation)
    requires Body(a) == Body(b) && a.channel == b.channel
    ensures SameClaims(a, b)
  {
    hide Decimal;
    var s, t := Body(a), Body(b);
    assert s[0] == t[0] && s[1] == t[1] && s[2] == t[2] && s[3] == t[3] && s[4] == t[4] && s[5] == t[5] && s[6] == t[6]
        && s[7] == t[7] && s[8] == t[8] && s[9] == t[9] && s[10] == t[10] && s[11] == t[11] && s[12] == t[12]
        && s[13] == t[13] && s[14] == t[14];
    DecimalInjective(a.createdUnixNanos, b.createdUnixNanos);
    DecimalInjective(a.leaderEpoch, b.leaderEpoch);
  }

  lemma PayloadBody(v: Attestation)
    ensures QualificationPayload(v) == TAG + [NUL] + (v.channel + [NUL] + Joined(Body(v)))
  {
    hide Decimal, Joined;
    assert AttestationFields(v) == [TAG] + ([v.channel] + Body(v));
    JoinedHead(TAG, [v.channel] + Body(v));
    JoinedHead(v.channel, Body(v));
  }

  /** Channels are clean, so equal payloads have equal channels and equal bodies. */
  lemma PayloadFixesBody(a: Attestation, b: Attestation)
    requires Signable(a) && Signable(b) && QualificationPayload(a) == QualificationPayload(b)
    ensures a.channel == b.channel && Joined(Body(a)) == Joined(Body(b))
  {
    hide Joined, Body, QualificationPayload;
    PayloadBody(a);
    PayloadBody(b);
    TagClean();
    FirstField(TAG, TAG, a.channel + [NUL] + Joined(Body(a)), b.channel + [NUL] + Joined(Body(b)));
    ChannelClean(a);
    ChannelClean(b);
    FirstField(a.channel, b.channel, Joined(Body(a)), Joined(Body(b)));
  }

  lemma ChannelClean(v: Attestation)
    requires Signable(v)
    ensures Clean(v.channel)
  {
  }

  lemma TagClean()
    ensures Clean(TAG)
  {
  }

  // ----- Cutting bytes into fields of given lengths -----

  function Lengths(fields: seq<string>): (r: seq<nat>)
    ensures |r| == |fields|
  {
    if fields == [] then [] else [|fields[0]|] + Lengths(fields[1..])
  }

  /** Fields of these lengths, with a NUL between any two, fill the bytes. */
  predicate Fits(s: string, lengths: seq<nat>)
    requires lengths != []
  {
    if |lengths| == 1 then |s| == lengths[0]
    else lengths[0] < |s| && s[lengths[0]] == NUL && Fits(s[lengths[0] + 1..], lengths[1..])
  }

  function Cut(s: string, lengths: seq<nat>): (r: seq<string>)
    requires lengths != [] && Fits(s, lengths)
    ensures |r| == |lengths|
  {
    if |lengths| == 1 then [s] else [s[..lengths[0]]] + Cut(s[lengths[0] + 1..], lengths[1..])
  }

  lemma {:induction false} CutJoins(s: string, lengths: seq<nat>)
    requires lengths != [] && Fits(s, lengths)
    ensures Joined(Cut(s, lengths)) == s && Lengths(Cut(s, lengths)) == lengths
  {
    if |lengths| == 1 {
      assert [s][1..] == [] && lengths == [lengths[0]];
    } else {
      var rest := Cut(s[lengths[0] + 1..], lengths[1..]);
      CutJoins(s[lengths[0] + 1..], lengths[1..]);
      assert Cut(s, lengths)[1..] == rest;
      assert s == s[..lengths[0]] + [NUL] + s[lengths[0] + 1..];
    }
  }

  lemma {:induction false} JoinedCuts(fields: seq<string>)
    requires fields != []
    ensures Fits(Joined(fields), Lengths(fields)) && Cut(Joined(fields), Lengths(fields)) == fields
  {
    var s, n := Joined(fields), Lengths(fields);
    if |fields| == 1 {
      assert fields == [fields[0]];
    } else {
      JoinedCuts(fields[1..]);
      assert s[..n[0]] == fields[0] && s[n[0] + 1..] == Joined(fields[1..]) && n[1..] == Lengths(fields[1..]);
      assert fields == [fields[0]] + fields[1..];
    }
  }

  // ----- Exactly when a signed attestation's payload is shared -----

  /** Another attestation that can be signed, not merely another signature, with the same payload. */
  ghost predicate QualificationCollides(a: Attestation) {
    exists b :: Signable(b) && !SameClaims(a, b) && QualificationPayload(a) == QualificationPayload(b)
  }

  /** The bytes also fit these fifteen lengths, and the fields so cut pass validation. */
  predicate Frames(s: string, lengths: seq<nat>) {
    |lengths| == 15 && Fits(s, lengths) && Acceptable(Cut(s, lengths))
  }

  ghost predicate Reframes(s: string, own: seq<nat>) {
    exists lengths :: lengths != own && Frames(s, lengths)
  }

  /** The exact condition, on the attestation's own bytes: they can be cut in a second way that passes validation. */
  lemma QualificationCollidesExactly(a: Attestation)
    requires Signable(a)
    ensures QualificationCollides(a) <==> Reframes(Joined(Body(a)), Lengths(Body(a)))
  {
    hide Joined, Body, Lengths, Acceptable, Fits, Cut, Signable, SameClaims, QualificationPayload;
    var s, own := Joined(Body(a)), Lengths(Body(a));
    if QualificationCollides(a) {
      var b :| Signable(b) && !SameClaims(a, b) && QualificationPayload(a) == QualificationPayload(b);
      var other := Lengths(Body(b));
      PayloadFixesBody(a, b);
      JoinedCuts(Body(a));
      JoinedCuts(Body(b));
      SignableBody(b);
      if other == own {
        BodyFixesClaims(a, b);
      }
      assert Frames(s, other);
    }
    if Reframes(s, own) {
      var lengths :| lengths != own && Frames(s, lengths);
      CutJoins(s, lengths);
      var b := WithBody(a, Cut(s, lengths));
      PayloadBody(a);
      PayloadBody(b);
      ClaimsHaveBody(a, b);
      assert QualificationPayload(a) == QualificationPayload(b);
    }
  }

  lemma ClaimsHaveBody(a: Attestation, b: Attestation)
    ensures SameClaims(a, b) ==> Body(a) == Body(b)
  {
  }

  /** The nonce holds the profile, two printed numbers and more, as a body's end does. */
  predicate ResumesAt(nonce: string, i: nat) {
    var p := Pieces(nonce);
    i + 3 < |p| && p[i] == PROFILE && Number(p[i + 1], INT64) && Number(p[i + 2], UINT64)
  }

  lemma AttestationPieces(v: Attestation)
    ensures AllPieces(AttestationFields(v)) == [TAG] + AllPieces(AttestationTexts(v))
              + [Decimal(v.createdUnixNanos), Decimal(v.leaderEpoch)] + Pieces(v.nonce)
  {
    hide Decimal, Pieces, AttestationTexts, Clean;
    var texts, created, epoch := AttestationTexts(v), Decimal(v.createdUnixNanos), Decimal(v.leaderEpoch);
    DecimalClean(v.createdUnixNanos);
    DecimalClean(v.leaderEpoch);
    OnePiece(TAG);
    OnePiece(created);
    OnePiece(epoch);
    TagClean();
    assert AttestationFields(v) == ([TAG] + texts) + ([created] + ([epoch] + [v.nonce]));
    AllPiecesConcat([TAG] + texts, [created] + ([epoch] + [v.nonce]));
    AllPiecesConcat([TAG], texts);
    AllPiecesConcat([created], [epoch] + [v.nonce]);
    AllPiecesConcat([epoch], [v.nonce]);
    PiecesOfOne(TAG);
    PiecesOfOne(created);
    PiecesOfOne(epoch);
    PiecesOfOne(v.nonce);
  }

  lemma PiecesOfOne(s: string)
    ensures AllPieces([s]) == Pieces(s)
  {
    assert [s][1..] == [];
  }

  lemma PiecesFix(s: string, t: string)
    requires Pieces(s) == Pieces(t)
    ensures s == t
  {
    PiecesClean(s);
    PiecesClean(t);
  }

  lemma Aligned(a: seq<string>, b: seq<string>, x: seq<string>, y: seq<string>)
    requires [TAG] + a + x == [TAG] + b + y && |a| == |b|
    ensures a == b && x == y
  {
    var s, t := [TAG] + a + x, [TAG] + b + y;
    assert a == s[1..|a| + 1] && b == t[1..|a| + 1] && x == s[|a| + 1..] && y == t[|a| + 1..];
  }

  /** The texts end with the profile, so their pieces do. */
  lemma ProfileIsLast(v: Attestation)
    requires Signable(v)
    ensures |AllPieces(AttestationTexts(v))| >= 13
    ensures AllPieces(AttestationTexts(v))[|AllPieces(AttestationTexts(v))| - 1] == PROFILE
  {
    hide AllPieces, Pieces;
    var texts := AttestationTexts(v);
    LastText(v);
    AllPiecesConcat(texts[..12], [PROFILE]);
    PiecesOfOne(PROFILE);
    ProfileClean();
    OnePiece(PROFILE);
  }

  lemma LastText(v: Attestation)
    requires Signable(v)
    ensures |AttestationTexts(v)| == 13 && AttestationTexts(v) == AttestationTexts(v)[..12] + [PROFILE]
  {
  }

  lemma ProfileClean()
    ensures Clean(PROFILE)
  {
  }

  lemma ProfileIsNoNumber(n: int)
    ensures Decimal(n) != PROFILE
  {
    assert Decimal(n)[0] != 'q';
  }

  /** Where only the nonce may hold NULs, a shared payload means that the nonce repeats the end of a body. */
  lemma CleanTextsShareByNonce(a: Attestation, b: Attestation)
    requires Signable(a) && Signable(b) && CleanTexts(AttestationTexts(a))
    requires QualificationPayload(a) == QualificationPayload(b)
    ensures SameClaims(a, b) || exists i: nat :: ResumesAt(a.nonce, i)
  {
    hide Decimal, Pieces, AttestationTexts, SameClaims, CleanTexts, Signable, AllPieces;
    var s, mine, theirs := AllPieces(AttestationFields(a)), AttestationTexts(a), AllPieces(AttestationTexts(b));
    FieldCount(a);
    FieldCount(b);
    JoinedFixesPieces(AttestationFields(a), AttestationFields(b));
    AttestationPieces(a);
    AttestationPieces(b);
    AllPiecesClean(mine);
    var endA := [Decimal(a.createdUnixNanos), Decimal(a.leaderEpoch)] + Pieces(a.nonce);
    var endB := [Decimal(b.createdUnixNanos), Decimal(b.leaderEpoch)] + Pieces(b.nonce);
    assert s == [TAG] + mine + endA == [TAG] + theirs + endB;
    ProfileIsLast(b);
    if |theirs| == 13 {
      Aligned(mine, theirs, endA, endB);
      EndsFix(a, b, mine, theirs);
    } else {
      Shifted(mine, theirs, endA, endB);
      ProfileIsNoNumber(a.createdUnixNanos);
      ProfileIsNoNumber(a.leaderEpoch);
      var i := |theirs| - 16;
      assert Pieces(a.nonce) == endA[2..];
      NumbersPrinted(b);
      assert ResumesAt(a.nonce, i);
    }
  }

  /** What a signer can check for safety: no NUL before the numbers, and a nonce that does not repeat a body's end. */
  lemma CleanTextsAreSafe(a: Attestation)
    requires Signable(a) && CleanTexts(AttestationTexts(a)) && forall i: nat :: !ResumesAt(a.nonce, i)
    ensures !QualificationCollides(a)
  {
    hide Signable, SameClaims, ResumesAt, CleanTexts, AttestationTexts, QualificationPayload;
    forall b | Signable(b) && QualificationPayload(a) == QualificationPayload(b) ensures SameClaims(a, b) {
      CleanTextsShareByNonce(a, b);
    }
  }

  lemma EndsFix(a: Attestation, b: Attestation, mine: seq<string>, theirs: seq<string>)
    requires mine == AttestationTexts(a) == theirs == AllPieces(AttestationTexts(b)) && |theirs| == 13
    requires [Decimal(a.createdUnixNanos), Decimal(a.leaderEpoch)] + Pieces(a.nonce)
          == [Decimal(b.createdUnixNanos), Decimal(b.leaderEpoch)] + Pieces(b.nonce)
    ensures SameClaims(a, b)
  {
    hide Decimal, Pieces, SameClaims, AttestationTexts;
    var x := [Decimal(a.createdUnixNanos), Decimal(a.leaderEpoch)] + Pieces(a.nonce);
    var y := [Decimal(b.createdUnixNanos), Decimal(b.leaderEpoch)] + Pieces(b.nonce);
    assert x[0] == y[0] && x[1] == y[1] && Pieces(a.nonce) == x[2..] == y[2..] == Pieces(b.nonce);
    FieldCount(b);
    AllPiecesClean(AttestationTexts(b));
    DecimalInjective(a.createdUnixNanos, b.createdUnixNanos);
    DecimalInjective(a.leaderEpoch, b.leaderEpoch);
    PiecesFix(a.nonce, b.nonce);
    PartsFixClaims(a, b);
  }

  /** The longer front runs into the other end. */
  lemma Shifted(a: seq<string>, b: seq<string>, x: seq<string>, y: seq<string>)
    requires [TAG] + a + x == [TAG] + b + y && |a| < |b| && |y| >= 3
    ensures var d := |b| - |a|; d + 2 < |x| && x[d - 1] == b[|b| - 1] && x[d] == y[0] && x[d + 1] == y[1]
  {
    var s, t := [TAG] + a + x, [TAG] + b + y;
    var d := |b| - |a|;
    assert x[d - 1] == s[|b|] && t[|b|] == b[|b| - 1];
    assert x[d] == s[|b| + 1] && t[|b| + 1] == y[0];
    assert x[d + 1] == s[|b| + 2] && t[|b| + 2] == y[1];
  }

  // ----- Witnesses -----

  /** A run id with a NUL behind a non-empty part: the rest can begin the provider's name instead, and both
      attestations can be signed. */
  lemma RunIDCollides(v: Attestation, u: string, w: string)
    requires Signable(v) && u != ""
    ensures var a := v.(runID := u + [NUL] + w);
            var b := v.(runID := u, identity := v.identity.(provider := w + [NUL] + v.identity.provider));
            && Signable(a) && Signable(b) && !SameClaims(a, b) && QualificationPayload(a) == QualificationPayload(b)
            && QualificationCollides(a)
  {
    hide Decimal, Joined;
    var a := v.(runID := u + [NUL] + w);
    var b := v.(runID := u, identity := v.identity.(provider := w + [NUL] + v.identity.provider));
    var rest := Body(v)[2..];
    PayloadBody(a);
    PayloadBody(b);
    JoinedMoves([], u, w, v.identity.provider, rest);
    assert Body(a) == [] + [u + [NUL] + w, v.identity.provider] + rest;
    assert Body(b) == [] + [u, w + [NUL] + v.identity.provider] + rest;
    assert |a.runID| != |b.runID|;
  }

  /** Clean texts are not enough: a nonce that repeats the rest of the body shares its payload with an attestation whose
      version swallows the first copy, and both can be signed. */
  lemma NonceCollides(v: Attestation)
    requires Signable(v)
    ensures var end := Body(v)[5..];
            var a := v.(nonce := Joined(["x"] + end));
            var version := Joined([v.identity.version] + end[..9] + ["x"]);
            var b := v.(identity := v.identity.(version := version));
            && Signable(a) && Signable(b) && !SameClaims(a, b) && QualificationPayload(a) == QualificationPayload(b)
            && AttestationTexts(a) == AttestationTexts(v) && QualificationCollides(a)
  {
    hide Decimal, Joined, Body;
    var front, end := Body(v)[..4], Body(v)[5..];
    var swallowed := [v.identity.version] + end[..9] + ["x"];
    var a := v.(nonce := Joined(["x"] + end));
    var b := v.(identity := v.identity.(version := Joined(swallowed)));
    LongerJoined(["x"] + end);
    LongerJoined(swallowed);
    PayloadBody(a);
    PayloadBody(b);
    JoinedGroup(front, swallowed, end);
    JoinedGroup(Body(v)[..14], ["x"] + end, []);
    BodiesDiffer(v, a.nonce, b.identity.version);
    TwoCopies(Body(v));
  }

  lemma BodiesDiffer(v: Attestation, nonce: string, version: string)
    ensures Body(v.(nonce := nonce)) == Body(v)[..14] + [nonce] + []
    ensures Body(v.(identity := v.identity.(version := version))) == Body(v)[..4] + [version] + Body(v)[5..]
    ensures Body(v)[4] == v.identity.version
  {
    hide Decimal;
  }

  lemma TwoCopies(body: seq<string>)
    requires |body| == 15
    ensures var end := body[5..];
            body[..14] + (["x"] + end) + [] == body[..4] + ([body[4]] + end[..9] + ["x"]) + end
  {
    var end := body[5..];
    assert body[..14] == body[..4] + [body[4]] + end[..9];
  }

  lemma LongerJoined(fields: seq<string>)
    requires |fields| >= 2
    ensures |Joined(fields)| > |fields[0]|
  {
  }

  /** Concrete failures: a NUL in any request's phase, and one in the run id of any attestation that can be signed. */
  lemma NulCollides(r: DrainRequest, v: Attestation)
    requires Signable(v)
    ensures DrainCollides(r.(phase := "build\0"))
    ensures Signable(v.(runID := "r\0s")) && QualificationCollides(v.(runID := "r\0s"))
  {
    hide DrainCollides, QualificationCollides, Signable;
    var a := r.(phase := "build\0");
    assert a.phase[5] == NUL && DrainTexts(a)[3] == a.phase;
    DrainCollidesExactly(a);
    assert "r" + [NUL] + "s" == "r\0s";
    RunIDCollides(v, "r", "s");
  }

  // ----- Reading a payload back -----

  lemma CleanPieces(fields: seq<string>)
    requires fields != [] && CleanTexts(fields)
    ensures Pieces(Joined(fields)) == fields
  {
    PiecesClean(Joined(fields));
    JoinedInjective(Pieces(Joined(fields)), fields);
  }

  /** A printed number, read by its sign and its digits. */
  function Read(s: string): int {
    if s != "" && s[0] == '-' then -Value(s[1..]) else Value(s)
  }

  lemma DecimalReads(n: int)
    ensures Read(Decimal(n)) == n
  {
    DigitsValue(if n < 0 then -n else n);
    if n < 0 {
      assert Decimal(n)[1..] == Digits(-n);
    }
  }

  /** A request, read from the twenty-five pieces of its payload. */
  function DrainRead(f: seq<string>): DrainRequest
    requires |f| == 25 && Read(f[21]) >= 0 && Read(f[22]) >= 0 && Read(f[23]) >= 0
  {
    DrainRequest(claimID := Read(f[0]), ref := TicketRef(channel := f[1], project := f[2], ticket := f[3]),
                 phase := f[4], role := f[5],
                 identity := Identity(provider := f[6], model := f[7], family := f[8], version := f[9]),
                 leaseKey := f[10], bindingDigest := f[11], binaryDigest := f[12], policyDigest := f[13],
                 authDigest := f[14], authMode := f[15], repository := f[16], worktree := f[17],
                 worktreeIdentity := f[18], baseSHA := f[19], requestDigest := f[20], leaderEpoch := Read(f[21]),
                 runnerEpoch := Read(f[22]), expectedVersion := Read(f[23]), attempt := Read(f[24]))
  }

  /** Splitting a clean request's payload at its NULs gives the request back, every field in its place. */
  lemma DrainReadsBack(r: DrainRequest)
    requires CleanTexts(DrainTexts(r))
    ensures var f := Pieces(DrainPayload(r));
            |f| == 25 && Read(f[21]) >= 0 && Read(f[22]) >= 0 && Read(f[23]) >= 0 && DrainRead(f) == r
  {
    hide Decimal, Read, Pieces, Joined;
    DrainFieldsClean(r);
    CleanPieces(DrainFields(r));
    DecimalReads(r.claimID);
    DecimalReads(r.leaderEpoch);
    DecimalReads(r.runnerEpoch);
    DecimalReads(r.expectedVersion);
    DecimalReads(r.attempt);
  }

  /** An attestation, read from the sixteen pieces behind the tag of its payload. */
  function QualificationRead(f: seq<string>): Attestation
    requires |f| == 17 && Read(f[15]) >= 0
  {
    Attestation(channel := f[1], runID := f[2],
                identity := Identity(provider := f[3], model := f[4], family := f[5], version := f[6]),
                binaryDigest := f[7], policyDigest := f[8], fixtureDigest := f[9], authDigest := f[10],
                authMode := f[11], probeDigest := f[12], profile := f[13], createdUnixNanos := Read(f[14]),
                leaderEpoch := Read(f[15]), nonce := f[16], signature := "")
  }

  /** The same for a clean attestation, but for the signature, which is not part of what is signed. */
  lemma QualificationReadsBack(v: Attestation)
    requires CleanAttestation(v)
    ensures var f := Pieces(QualificationPayload(v));
            && |f| == 17 && f[0] == "sf-qualification/v2" && Read(f[15]) >= 0
            && QualificationRead(f) == v.(signature := "")
  {
    hide Decimal, Read, Pieces, Joined;
    AttestationFieldsClean(v);
    CleanPieces(AttestationFields(v));
    DecimalReads(v.createdUnixNanos);
    DecimalReads(v.leaderEpoch);
  }

  // ----- The kinds of payload one key signs -----

  const REJECTION_TAG := "sf-provider-server-rejection/v1\0"

  /** A rejection is a tag before a JSON object, an authoring proof a JSON object. */
  predicate JsonObject(s: string) {
    s != "" && s[0] == '{'
  }

  function RejectionPayload(json: string): string {
    REJECTION_TAG + json
  }

  lemma DrainStarts(r: DrainRequest)
    ensures DrainPayload(r) != "" && ('0' <= DrainPayload(r)[0] <= '9' || DrainPayload(r)[0] == '-')
  {
    var d := DrainFields(r);
    assert DrainPayload(r) == Decimal(r.claimID) + [NUL] + Joined(d[1..]);
    assert Decimal(r.claimID) != "" && ('0' <= Decimal(r.claimID)[0] <= '9' || Decimal(r.claimID)[0] == '-');
  }

  lemma QualificationStarts(v: Attestation)
    ensures |QualificationPayload(v)| > 3 && QualificationPayload(v)[0] == 's' && QualificationPayload(v)[3] == 'q'
  {
    hide Joined, QualificationPayload;
    PayloadBody(v);
    assert TAG[0] == 's' && TAG[3] == 'q';
  }

  /** No signature over a payload of one kind is one over a payload of another, whatever their texts hold. */
  lemma PayloadKindsAreApart(r: DrainRequest, v: Attestation, rejection: string, proof: string)
    requires JsonObject(proof)
    ensures DrainPayload(r) != QualificationPayload(v)
    ensures DrainPayload(r) != RejectionPayload(rejection) && QualificationPayload(v) != RejectionPayload(rejection)
    ensures proof != DrainPayload(r) && proof != QualificationPayload(v) && proof != RejectionPayload(rejection)
  {
    hide DrainPayload, QualificationPayload;
    DrainStarts(r);
    QualificationStarts(v);
    assert RejectionPayload(rejection)[0] == 's' && RejectionPayload(rejection)[3] == 'p';
  }
}
