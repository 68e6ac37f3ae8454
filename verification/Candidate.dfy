/** Evidence of a candidate's gates and its invalidation (internal/candidate/candidate.go). The digest of a snapshot
    is an arbitrary function with non-empty values. */
module Candidate {

  datatype Gate = Intent | Proof | Checks | Review | Approval | Unknown(name: string)

  datatype Snapshot = Snapshot(generation: nat, baseSHA: string, headSHA: string, treeSHA: string, sourceDigest: string,
                               intentDigest: string, proofDigest: string, commandPolicyDigest: string,
                               builderEvidenceDigest: string)

  datatype Evidence = Evidence(intent: string, proof: string, checks: string, review: string, approval: string)

  datatype Result<T> = Ok(value: T) | Stale(gate: Gate) | UnknownGate(gate: Gate) | InvalidSnapshot

  const NO_EVIDENCE := Evidence("", "", "", "", "")
  const DOWNSTREAM := [Proof, Checks, Review, Approval]
  const ALL_GATES := [Intent, Proof, Checks, Review, Approval]

  predicate Valid(s: Snapshot) {
    && s.generation > 0
    && s.baseSHA != "" && s.headSHA != "" && s.treeSHA != "" && s.sourceDigest != "" && s.intentDigest != ""
    && s.proofDigest != "" && s.commandPolicyDigest != "" && s.builderEvidenceDigest != ""
  }

  /** What a gate recorded. */
  function Slot(e: Evidence, gate: Gate): string {
    match gate
    case Intent => e.intent
    case Proof => e.proof
    case Checks => e.checks
    case Review => e.review
    case Approval => e.approval
    case Unknown(_) => ""
  }

  function Invalidated(previous: Snapshot, next: Snapshot, filesChanged: bool): seq<Gate> {
    if previous == next && !filesChanged then []
    else if filesChanged || previous.intentDigest != next.intentDigest then ALL_GATES
    else DOWNSTREAM
  }

  /** Sets the slot of a known gate. */
  function Filled(e: Evidence, gate: Gate, value: string): Evidence {
    match gate
    case Intent => e.(intent := value)
    case Proof => e.(proof := value)
    case Checks => e.(checks := value)
    case Review => e.(review := value)
    case Approval => e.(approval := value)
    case Unknown(_) => e
  }

  /** The evidence without these gates. */
  function Without(e: Evidence, gates: seq<Gate>): Evidence {
    Evidence(if Intent in gates then "" else e.intent, if Proof in gates then "" else e.proof,
             if Checks in gates then "" else e.checks, if Review in gates then "" else e.review,
             if Approval in gates then "" else e.approval)
  }

  lemma WithoutOneMore(e: Evidence, gates: seq<Gate>, gate: Gate)
    ensures Without(e, gates + [gate]) == Filled(Without(e, gates), gate, "")
  {
  }

  lemma WithoutSlots(e: Evidence, gates: seq<Gate>)
    ensures forall g :: Slot(Without(e, gates), g) == if g in gates then "" else Slot(e, g)
  {
  }

  method ApplyInvalidation(evidence: Evidence, invalidated: seq<Gate>) returns (r: Evidence)
    ensures r == Without(evidence, invalidated)
    ensures forall g :: Slot(r, g) == if g in invalidated then "" else Slot(evidence, g)
  {
    hide Without, Filled, Slot;
    r := evidence;
    WithoutNone(evidence);
    for k := 0 to |invalidated|
      invariant r == Without(evidence, invalidated[..k])
    {
      assert invalidated[..k + 1] == invalidated[..k] + [invalidated[k]];
      WithoutOneMore(evidence, invalidated[..k], invalidated[k]);
      r := Filled(r, invalidated[k], "");
    }
    assert invalidated[..|invalidated|] == invalidated;
    WithoutSlots(evidence, invalidated);
  }

  lemma WithoutNone(e: Evidence)
    ensures Without(e, []) == e
  {
  }

  /** What the gate has to have recorded for this snapshot. */
  function Wanted(s: Snapshot, gate: Gate, digest: Snapshot -> string): string {
    if gate == Intent then s.intentDigest else digest(s)
  }

  predicate Current(s: Snapshot, e: Evidence, gate: Gate, digest: Snapshot -> string) {
    !gate.Unknown? && Slot(e, gate) == Wanted(s, gate, digest)
  }

  /** Passes exactly when every requested gate is current, and otherwise names the first one that is not. */
  method RequireCurrent(s: Snapshot, evidence: Evidence, gates: seq<Gate>,
                        digest: Snapshot -> string) returns (r: Result<()>)
    ensures r.InvalidSnapshot? <==> !Valid(s)
    ensures r.Ok? <==> Valid(s) && forall k :: 0 <= k < |gates| ==> Current(s, evidence, gates[k], digest)
    ensures r.Stale? || r.UnknownGate? ==>
              exists k :: 0 <= k < |gates| && gates[k] == r.gate && !Current(s, evidence, r.gate, digest)
                          && (r.UnknownGate? <==> r.gate.Unknown?)
                          && forall j :: 0 <= j < k ==> Current(s, evidence, gates[j], digest)
  {
    if !Valid(s) {
      return InvalidSnapshot;
    }
    var d := digest(s);
    for k := 0 to |gates|
      invariant forall j :: 0 <= j < k ==> Current(s, evidence, gates[j], digest)
    {
      var gate, actual := gates[k], "";
      match gate {
        case Intent =>
          actual := evidence.intent;
          if actual != s.intentDigest {
            return Stale(gate);
          }
        case Proof => actual := evidence.proof;
        case Checks => actual := evidence.checks;
        case Review => actual := evidence.review;
        case Approval => actual := evidence.approval;
        case Unknown(_) => return UnknownGate(gate);
      }
      if gate != Intent && actual != d {
        return Stale(gate);
      }
    }
    return Ok(());
  }

  function Bind(s: Snapshot, e: Evidence, gate: Gate, digest: Snapshot -> string): Result<Evidence> {
    if !Valid(s) then InvalidSnapshot
    else if gate.Unknown? then UnknownGate(gate)
    else Ok(Filled(e, gate, Wanted(s, gate, digest)))
  }

  /** A snapshot is refused exactly without a generation or with an empty identity. */
  lemma RefusedExactly(s: Snapshot, e: Evidence, gate: Gate, digest: Snapshot -> string)
    ensures Bind(s, e, gate, digest).InvalidSnapshot? <==>
              s.generation == 0 || "" in [s.baseSHA, s.headSHA, s.treeSHA, s.sourceDigest, s.intentDigest,
                                          s.proofDigest, s.commandPolicyDigest, s.builderEvidenceDigest]
    ensures Bind(s, e, gate, digest).UnknownGate? <==> Valid(s) && gate.Unknown?
  {
  }

  // ----- Runs -----

  /** A candidate change, whose invalidation is applied, or a gate that completes. A failed binding changes nothing. */
  datatype Event = Change(next: Snapshot, filesChanged: bool) | Complete(gate: Gate)

  datatype State = State(snapshot: Snapshot, evidence: Evidence)

  function Step(s: State, e: Event, digest: Snapshot -> string): State {
    match e
    case Change(next, filesChanged) =>
      State(next, Without(s.evidence, Invalidated(s.snapshot, next, filesChanged)))
    case Complete(gate) =>
      var bound := Bind(s.snapshot, s.evidence, gate, digest);
      if bound.Ok? then s.(evidence := bound.value) else s
  }

  /** After `n` events, from a first snapshot without evidence. */
  function After(first: Snapshot, events: seq<Event>, n: nat, digest: Snapshot -> string): State
    requires n <= |events|
  {
    if n == 0 then State(first, NO_EVIDENCE) else Step(After(first, events, n - 1, digest), events[n - 1], digest)
  }

  function SnapshotAt(first: Snapshot, events: seq<Event>, n: nat): Snapshot
    requires n <= |events|
  {
    if n == 0 then first
    else if events[n - 1].Change? then events[n - 1].next
    else SnapshotAt(first, events, n - 1)
  }

  lemma {:induction false} SnapshotAfter(first: Snapshot, events: seq<Event>, n: nat, digest: Snapshot -> string)
    requires n <= |events|
    ensures After(first, events, n, digest).snapshot == SnapshotAt(first, events, n)
  {
    if n > 0 {
      SnapshotAfter(first, events, n - 1, digest);
    }
  }

  /** The event takes this gate's evidence away from a candidate at `s`. */
  predicate Disturbs(s: Snapshot, e: Event, gate: Gate) {
    && e.Change?
    && (e.filesChanged || if gate == Intent then e.next.intentDigest != s.intentDigest else e.next != s)
  }

  /** At moment `t` the gate completed at a valid candidate, and until `n` nothing disturbed it. */
  ghost predicate Standing(first: Snapshot, events: seq<Event>, t: nat, n: nat, gate: Gate) {
    && t < n <= |events|
    && events[t] == Complete(gate) && Valid(SnapshotAt(first, events, t))
    && forall u :: t < u < n ==> !Disturbs(SnapshotAt(first, events, u), events[u], gate)
  }

  ghost predicate Fresh(first: Snapshot, events: seq<Event>, n: nat, gate: Gate) {
    exists t: nat :: Standing(first, events, t, n, gate)
  }

  /** The last event decides freshness: it binds the gate, or it must leave it undisturbed. */
  lemma FreshStep(first: Snapshot, events: seq<Event>, n: nat, gate: Gate)
    requires n < |events|
    ensures var s := SnapshotAt(first, events, n);
            Fresh(first, events, n + 1, gate) <==>
              || (events[n] == Complete(gate) && Valid(s))
              || (Fresh(first, events, n, gate) && !Disturbs(s, events[n], gate))
  {
    hide Valid, Disturbs, SnapshotAt;
    var s := SnapshotAt(first, events, n);
    if Fresh(first, events, n + 1, gate) {
      var t: nat :| Standing(first, events, t, n + 1, gate);
      assert t < n ==> Standing(first, events, t, n, gate);
    }
    if events[n] == Complete(gate) && Valid(s) {
      assert Standing(first, events, n, n + 1, gate);
    } else if Fresh(first, events, n, gate) && !Disturbs(s, events[n], gate) {
      var t: nat :| Standing(first, events, t, n, gate);
      assert Standing(first, events, t, n + 1, gate);
    }
  }

  /** One event's effect on one slot. */
  lemma StepSlot(s: State, e: Event, gate: Gate, digest: Snapshot -> string)
    requires !gate.Unknown?
    ensures var next := Step(s, e, digest);
            Slot(next.evidence, gate) ==
              if e == Complete(gate) && Valid(s.snapshot) then Wanted(s.snapshot, gate, digest)
              else if Disturbs(s.snapshot, e, gate) then "" else Slot(s.evidence, gate)
    ensures var next := Step(s, e, digest);
            e.Complete? || !Disturbs(s.snapshot, e, gate) ==>
              Wanted(next.snapshot, gate, digest) == Wanted(s.snapshot, gate, digest)
  {
    hide Valid;
  }

  lemma NothingAtStart(first: Snapshot, events: seq<Event>, gate: Gate)
    ensures !Fresh(first, events, 0, gate) && Slot(NO_EVIDENCE, gate) == ""
  {
  }

  /** In every run the recorded value is the one wanted of the present snapshot, or empty, as freshness says. */
  lemma {:induction false} SlotsFollowFreshness(first: Snapshot, events: seq<Event>, n: nat, gate: Gate,
                                                digest: Snapshot -> string)
    requires n <= |events| && !gate.Unknown?
    ensures var s := After(first, events, n, digest);
            Slot(s.evidence, gate) == if Fresh(first, events, n, gate) then Wanted(s.snapshot, gate, digest) else ""
  {
    hide Fresh, Valid, Step, Slot, Disturbs, Wanted;
    if n == 0 {
      NothingAtStart(first, events, gate);
    } else {
      SlotsFollowFreshness(first, events, n - 1, gate, digest);
      SnapshotAfter(first, events, n - 1, digest);
      FreshStep(first, events, n - 1, gate);
      StepSlot(After(first, events, n - 1, digest), events[n - 1], gate, digest);
    }
  }

  /** After every run a gate is current exactly when it completed at a valid candidate and nothing has disturbed it
      since. No strength of the digest is needed for this. */
  lemma CurrentExactlyWhenFresh(first: Snapshot, events: seq<Event>, gate: Gate, digest: Snapshot -> string)
    requires !gate.Unknown? && forall s :: digest(s) != ""
    ensures var s := After(first, events, |events|, digest);
            Valid(s.snapshot) ==>
              (Current(s.snapshot, s.evidence, gate, digest) <==> Fresh(first, events, |events|, gate))
  {
    SlotsFollowFreshness(first, events, |events|, gate, digest);
  }

  /** The candidate a standing gate completed at is the present one; for the intent, their intents agree. */
  lemma {:induction false} StandingKeepsCandidate(first: Snapshot, events: seq<Event>, t: nat, n: nat, gate: Gate)
    requires Standing(first, events, t, n, gate)
    ensures var before, now := SnapshotAt(first, events, t), SnapshotAt(first, events, n);
            now.intentDigest == before.intentDigest && (gate != Intent ==> now == before)
    decreases n
  {
    if n > t + 1 {
      assert Standing(first, events, t, n - 1, gate);
      StandingKeepsCandidate(first, events, t, n - 1, gate);
      assert !Disturbs(SnapshotAt(first, events, n - 1), events[n - 1], gate);
    }
  }

  /** Where invalidation was forgotten, a collision-free digest still catches every change of the candidate. */
  lemma StaleWithoutInvalidation(bound: Snapshot, now: Snapshot, e: Evidence, gate: Gate, digest: Snapshot -> string)
    requires Bind(bound, e, gate, digest).Ok? && (digest(bound) == digest(now) ==> bound == now)
    ensures Current(now, Bind(bound, e, gate, digest).value, gate, digest) <==>
              if gate == Intent then bound.intentDigest == now.intentDigest else bound == now
  {
  }

  /** Completing one gate never revives another. */
  lemma BindTouchesOneGate(s: Snapshot, e: Evidence, gate: Gate, other: Gate, digest: Snapshot -> string)
    requires Bind(s, e, gate, digest).Ok? && other != gate
    ensures Slot(Bind(s, e, gate, digest).value, other) == Slot(e, other)
    ensures Current(s, Bind(s, e, gate, digest).value, gate, digest)
  {
  }
}
