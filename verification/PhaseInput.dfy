/** The versioned canonical form of a provider's launch input (internal/contracts/provider.go). A payload is either in
    the current form, which always has a Repair member, or in the one before it, which never has. */
module PhaseInput {
  import opened Wrappers
  import opened LaunchJson

  type Bytes = string

  datatype Result<T> = Ok(value: T) | Err

  /** `legacy` is the private marker: the exact older bytes this value was decoded from. */
  datatype Input = Input(launch: Launch, requestDigest: string, repair: Option<Repair>, legacy: Option<Bytes>)

  /** JSON text, the library below it, and SHA-256. */
  datatype Codec = Codec(text: seq<Member> -> Bytes, parse: Bytes -> Option<seq<Member>>, library: Library,
                         digest: Bytes -> string)

  /** What is assumed: text and base64 are read back, field names are told apart, digests have 64 characters. */
  ghost predicate Lawful(c: Codec) {
    && (forall d :: c.parse(c.text(d)) == Some(d))
    && GoodLibrary(c.library)
    && (forall b :: |c.digest(b)| == 64)
  }

  /** The current wire shape. */
  function Marshal53(c: Codec, l: Launch, digest: string, repair: Option<Repair>): Bytes {
    c.text(Document53(Fields(l, digest, repair), c.library))
  }

  /** The shape before v53. */
  function Marshal52(c: Codec, l: Launch, digest: string): Bytes {
    c.text(Document52(Fields(l, digest, None), c.library))
  }

  function Unmarshal(c: Codec, payload: Bytes): Option<Fields> {
    if c.parse(payload).None? then None else Read(c.parse(payload).value, c.library)
  }

  predicate Mentions(c: Codec, payload: Bytes, name: string) {
    c.parse(payload).Some? && HasMember(c.parse(payload).value, name)
  }

  lemma Unmarshal53(c: Codec, l: Launch, digest: string, repair: Option<Repair>)
    requires Lawful(c)
    ensures Unmarshal(c, Marshal53(c, l, digest, repair)) == Some(Fields(l, digest, repair))
    ensures Mentions(c, Marshal53(c, l, digest, repair), "Repair")
  {
    hide Document53, Document52, HasMember, Read;
    Read53(Fields(l, digest, repair), c.library);
    RepairMember(Fields(l, digest, repair), c.library);
  }

  lemma Unmarshal52(c: Codec, l: Launch, digest: string)
    requires Lawful(c)
    ensures Unmarshal(c, Marshal52(c, l, digest)) == Some(Fields(l, digest, None))
    ensures c.parse(Marshal52(c, l, digest)).Some? && !Mentions(c, Marshal52(c, l, digest), "Repair")
  {
    hide Document53, Document52, HasMember, Read;
    Read52(Fields(l, digest, None), c.library);
    RepairMember(Fields(l, digest, None), c.library);
  }

  function CanonicalV52(c: Codec, input: Input): Bytes {
    Marshal52(c, input.launch, "")
  }

  function Canonical(c: Codec, input: Input): Result<(Bytes, string)> {
    if input.legacy.Some? then
      if input.repair.Some? then Err
      else
        var older := CanonicalV52(c, input);
        if older != input.legacy.value then Err else Ok((older, c.digest(older)))
    else
      var payload := Marshal53(c, input.launch, "", input.repair);
      Ok((payload, c.digest(payload)))
  }

  function Decode(c: Codec, payload: Bytes): Result<Input> {
    var parsed := Unmarshal(c, payload);
    if parsed.None? then Err
    else
      var input := Input(parsed.value.launch, parsed.value.requestDigest, parsed.value.repair, None);
      if Canonical(c, input).Ok? && Canonical(c, input).value.0 == payload then Ok(input)
      else if input.repair.Some? || c.parse(payload).None? then Err
      else if Mentions(c, payload, "Repair") then Err
      else if CanonicalV52(c, input) != payload then Err
      else Ok(input.(legacy := Some(CanonicalV52(c, input))))
  }

  function DigestMatches(c: Codec, input: Input, digest: string): bool {
    Canonical(c, input).Ok? && |digest| == 64 && Canonical(c, input).value.1 == digest
  }

  function MatchesAuthenticatedClaim(c: Codec, proposed: Input, claim: Input, digest: string): bool {
    if |digest| != 64 then false
    else if Canonical(c, claim).Err? || Canonical(c, claim).value.1 != digest then false
    else proposed.(requestDigest := "", legacy := None) == claim.(requestDigest := "", legacy := None)
  }

  // ----- The two payload languages -----

  ghost predicate Current(c: Codec, payload: Bytes) {
    exists l, r :: payload == Marshal53(c, l, "", r)
  }

  ghost predicate Older(c: Codec, payload: Bytes) {
    exists l :: payload == Marshal52(c, l, "")
  }

  lemma CurrentHasRepair(c: Codec, payload: Bytes)
    requires Lawful(c) && Current(c, payload)
    ensures Mentions(c, payload, "Repair")
  {
    var l, r :| payload == Marshal53(c, l, "", r);
    Unmarshal53(c, l, "", r);
  }

  lemma OlderHasNoRepair(c: Codec, payload: Bytes)
    requires Lawful(c) && Older(c, payload)
    ensures !Mentions(c, payload, "Repair")
  {
    var l :| payload == Marshal52(c, l, "");
    Unmarshal52(c, l, "");
  }

  /** No payload is readable in both ways. */
  lemma LanguagesAreDisjoint(c: Codec, payload: Bytes)
    requires Lawful(c)
    ensures !(Current(c, payload) && Older(c, payload))
  {
    hide Lawful, Current, Older, Mentions;
    if Current(c, payload) {
      CurrentHasRepair(c, payload);
    }
    if Older(c, payload) {
      OlderHasNoRepair(c, payload);
    }
  }

  /** Decoding accepts exactly the two languages, and the marker tells which one a payload was in. */
  lemma DecodesExactlyCanonical(c: Codec, payload: Bytes)
    requires Lawful(c)
    ensures Decode(c, payload).Ok? <==> Current(c, payload) || Older(c, payload)
    ensures Decode(c, payload).Ok? ==> (Decode(c, payload).value.legacy == None <==> Current(c, payload))
    ensures Decode(c, payload).Ok? ==> (Decode(c, payload).value.legacy == Some(payload) <==> Older(c, payload))
  {
    LanguagesAreDisjoint(c, payload);
    if Current(c, payload) {
      var l, r :| payload == Marshal53(c, l, "", r);
      CurrentDecodes(c, l, r);
    }
    if Older(c, payload) {
      var l :| payload == Marshal52(c, l, "");
      OlderDecodes(c, l);
    }
  }

  lemma CurrentDecodes(c: Codec, l: Launch, r: Option<Repair>)
    requires Lawful(c)
    ensures Decode(c, Marshal53(c, l, "", r)) == Ok(Input(l, "", r, None))
  {
    hide Marshal53, Marshal52, Unmarshal, Mentions;
    Unmarshal53(c, l, "", r);
  }

  lemma OlderDecodes(c: Codec, l: Launch)
    requires Lawful(c)
    ensures Decode(c, Marshal52(c, l, "")) == Ok(Input(l, "", None, Some(Marshal52(c, l, ""))))
  {
    var payload := Marshal52(c, l, "");
    hide Marshal53, Marshal52, Unmarshal, Mentions;
    Unmarshal52(c, l, "");
    Unmarshal53(c, l, "", None);
  }

  /** What decodes re-encodes to the same bytes: no durable payload is ever normalised. */
  lemma DecodedReencodes(c: Codec, payload: Bytes)
    requires Lawful(c) && Decode(c, payload).Ok?
    ensures Canonical(c, Decode(c, payload).value) == Ok((payload, c.digest(payload)))
    ensures Decode(c, payload).value.requestDigest == ""
  {
    DecodesExactlyCanonical(c, payload);
    if Current(c, payload) {
      var l, r :| payload == Marshal53(c, l, "", r);
      CurrentDecodes(c, l, r);
    } else {
      var l :| payload == Marshal52(c, l, "");
      OlderDecodes(c, l);
    }
  }

  /** What encodes decodes to the same input, apart from the digest that is not part of itself. */
  lemma EncodedDecodes(c: Codec, input: Input)
    requires Lawful(c) && Canonical(c, input).Ok?
    ensures Decode(c, Canonical(c, input).value.0) == Ok(input.(requestDigest := ""))
  {
    if input.legacy.Some? {
      OlderDecodes(c, input.launch);
    } else {
      CurrentDecodes(c, input.launch, input.repair);
    }
  }

  /** Beside the marker of a decoded older input, only the request digest may change. */
  lemma LegacyIsFrozen(c: Codec, payload: Bytes, changed: Input)
    requires Lawful(c) && Decode(c, payload).Ok? && Decode(c, payload).value.legacy.Some?
    requires changed.legacy == Decode(c, payload).value.legacy
    ensures Canonical(c, changed).Ok? <==>
              changed == Decode(c, payload).value.(requestDigest := changed.requestDigest)
    ensures Canonical(c, changed).Ok? ==> Canonical(c, changed) == Ok((payload, c.digest(payload)))
  {
    var original := Decode(c, payload).value;
    DecodedReencodes(c, payload);
    DecodesExactlyCanonical(c, payload);
    if Canonical(c, changed).Ok? {
      Unmarshal52(c, changed.launch, "");
      Unmarshal52(c, original.launch, "");
    }
  }

  // ----- Claims -----

  /** The fields a caller reconstructs. */
  predicate SameRequest(a: Input, b: Input) {
    a.launch == b.launch && a.repair == b.repair
  }

  /** These two payloads are not a collision of the digest. */
  predicate NoCollision(c: Codec, a: Bytes, b: Bytes) {
    c.digest(a) == c.digest(b) ==> a == b
  }

  /** Against a claim read from its stored payload, matching is agreement on every logical field and the digest of
      exactly those bytes, whichever of the two forms they are in. */
  lemma ClaimMatching(c: Codec, proposed: Input, payload: Bytes, digest: string)
    requires Lawful(c) && Decode(c, payload).Ok?
    ensures MatchesAuthenticatedClaim(c, proposed, Decode(c, payload).value, digest) <==>
              SameRequest(proposed, Decode(c, payload).value) && digest == c.digest(payload)
  {
    DecodedReencodes(c, payload);
  }

  /** An input's own digest matches, and no other text does. */
  lemma OwnDigestMatches(c: Codec, input: Input, digest: string)
    requires Lawful(c) && Canonical(c, input).Ok?
    ensures DigestMatches(c, input, digest) <==> digest == c.digest(Canonical(c, input).value.0)
  {
  }

  /** A digest fixes the request: two proposals accepted under it, even against different claims, agree. */
  lemma DigestFixesRequest(c: Codec, p: Input, q: Input, payloadP: Bytes, payloadQ: Bytes, digest: string)
    requires Lawful(c) && NoCollision(c, payloadP, payloadQ) && Decode(c, payloadP).Ok? && Decode(c, payloadQ).Ok?
    requires MatchesAuthenticatedClaim(c, p, Decode(c, payloadP).value, digest)
    requires MatchesAuthenticatedClaim(c, q, Decode(c, payloadQ).value, digest)
    ensures SameRequest(p, q) && payloadP == payloadQ
  {
    ClaimMatching(c, p, payloadP, digest);
    ClaimMatching(c, q, payloadQ, digest);
  }

  /** A fresh proposal equals an older claim on every field, matches it, and still has another digest of its own. */
  lemma OlderClaimKeepsItsDigest(c: Codec, proposed: Input, payload: Bytes)
    requires Lawful(c) && Older(c, payload) && Decode(c, payload).Ok?
    requires NoCollision(c, Marshal53(c, proposed.launch, "", proposed.repair), payload)
    requires proposed.legacy == None && SameRequest(proposed, Decode(c, payload).value)
    ensures MatchesAuthenticatedClaim(c, proposed, Decode(c, payload).value, c.digest(payload))
    ensures !DigestMatches(c, proposed, c.digest(payload))
  {
    DecodesExactlyCanonical(c, payload);
    ClaimMatching(c, proposed, payload, c.digest(payload));
    LanguagesAreDisjoint(c, payload);
    var own := Marshal53(c, proposed.launch, "", proposed.repair);
    assert Current(c, own);
    assert own != payload;
  }
}
