/** Layered configuration and its frozen snapshot (internal/config/config.go) and the clamping of the built-in
    defaults (internal/config/load.go). The settings that resolution only copies are one value of type S,
    judged by an arbitrary predicate. */
module ConfigResolve {

  const MAX_FILE_BYTES := 64 * 1024
  const MINUTE := 60_000_000_000

  datatype Machine = Machine(concurrency: int, phaseTimeout: int, ticketTimeout: int, cost: int, allowAutonomous: bool)

  datatype Project<S> =
    Project(settings: S, mergeMode: string, concurrency: int, phaseTimeout: int, ticketTimeout: int, cost: int)

  /** What one ticket may narrow: "" and zero mean no override. */
  datatype Override = Override(mergeMode: string, phaseTimeout: int, ticketTimeout: int, cost: int)

  datatype Effective<S> = Effective(project: Project<S>, machine: Machine)

  datatype Reason = BadMachine | BadProject | BadMergeMode | MergeModeExceeds | PhaseExceeds | TicketExceeds
                  | CostExceeds | NegativeCost | Incomplete | DigestMismatch | Malformed | NotCanonical

  datatype Result<T> = Ok(value: T) | Err(reason: Reason)

  const NO_OVERRIDE := Override("", 0, 0, 0)

  predicate ValidMode(mode: string) {
    mode == "manual" || mode == "guarded" || mode == "autonomous"
  }

  function MergeRank(mode: string): int {
    if mode == "manual" then 0 else if mode == "guarded" then 1 else if mode == "autonomous" then 2 else 99
  }

  predicate ValidMachine(m: Machine) {
    && m.concurrency >= 1
    && m.phaseTimeout > 0 && m.ticketTimeout > 0 && m.phaseTimeout <= m.ticketTimeout
    && m.cost > 0
  }

  predicate ValidProject<S>(m: Machine, p: Project<S>, allowed: S -> bool) {
    && allowed(p.settings)
    && ValidMode(p.mergeMode) && (p.mergeMode == "autonomous" ==> m.allowAutonomous)
    && 1 <= p.concurrency <= m.concurrency
    && 0 < p.phaseTimeout <= m.phaseTimeout
    && 0 < p.cost <= m.cost
    && 0 < p.ticketTimeout <= m.ticketTimeout && p.phaseTimeout <= p.ticketTimeout
  }

  function Chosen(override: int, inherited: int): int {
    if override > 0 then override else inherited
  }

  function Resolve<S>(m: Machine, given: Project<S>, o: Override, allowed: S -> bool): Result<Effective<S>> {
    var p := if given.cost == 0 then given.(cost := m.cost) else given;
    if !ValidMachine(m) then Err(BadMachine)
    else if !ValidProject(m, p, allowed) then Err(BadProject)
    else if o.mergeMode != "" && !ValidMode(o.mergeMode) then Err(BadMergeMode)
    else if o.mergeMode != "" && MergeRank(o.mergeMode) > MergeRank(p.mergeMode) then Err(MergeModeExceeds)
    else if o.phaseTimeout > 0 && o.phaseTimeout > p.phaseTimeout then Err(PhaseExceeds)
    else if o.ticketTimeout > 0 && o.ticketTimeout > p.ticketTimeout then Err(TicketExceeds)
    else if o.cost > 0 && o.cost > p.cost then Err(CostExceeds)
    else if o.cost < 0 then Err(NegativeCost)
    else
      Ok(Effective(p.(mergeMode := if o.mergeMode != "" then o.mergeMode else p.mergeMode,
                      phaseTimeout := Chosen(o.phaseTimeout, p.phaseTimeout),
                      ticketTimeout := Chosen(o.ticketTimeout, p.ticketTimeout),
                      cost := Chosen(o.cost, p.cost)), m))
  }

  // ----- No layer can widen what the layer above it grants -----

  /** `inner` grants at most what `outer` grants. */
  predicate Within<S>(inner: Project<S>, outer: Project<S>) {
    && MergeRank(inner.mergeMode) <= MergeRank(outer.mergeMode)
    && inner.concurrency <= outer.concurrency
    && inner.phaseTimeout <= outer.phaseTimeout
    && inner.ticketTimeout <= outer.ticketTimeout
    && inner.cost <= outer.cost
  }

  predicate WithinMachine<S>(p: Project<S>, m: Machine) {
    && 1 <= p.concurrency <= m.concurrency
    && 0 < p.phaseTimeout <= m.phaseTimeout
    && 0 < p.ticketTimeout <= m.ticketTimeout
    && 0 < p.cost <= m.cost
    && ValidMode(p.mergeMode) && (MergeRank(p.mergeMode) >= 2 ==> m.allowAutonomous)
  }

  /** A project that names no cost ceiling has the machine's. */
  function Granted<S>(p: Project<S>, m: Machine): Project<S> {
    if p.cost == 0 then p.(cost := m.cost) else p
  }

  lemma ResolvedNeverExceeds<S>(m: Machine, p: Project<S>, o: Override, allowed: S -> bool)
    requires Resolve(m, p, o, allowed).Ok?
    ensures var r := Resolve(m, p, o, allowed).value;
            && r.machine == m && r.project.settings == p.settings
            && Within(r.project, Granted(p, m)) && WithinMachine(r.project, m)
  {
  }

  /** What an override asks for is granted at most. */
  predicate Respects<S>(p: Project<S>, o: Override) {
    && (o.mergeMode != "" ==> MergeRank(p.mergeMode) <= MergeRank(o.mergeMode))
    && (o.phaseTimeout > 0 ==> p.phaseTimeout <= o.phaseTimeout)
    && (o.ticketTimeout > 0 ==> p.ticketTimeout <= o.ticketTimeout)
    && (o.cost > 0 ==> p.cost <= o.cost)
  }

  /** The result respects the override and, among all configurations within both project and override, grants most. */
  lemma ResolvedIsGreatest<S>(m: Machine, p: Project<S>, o: Override, allowed: S -> bool, other: Project<S>)
    requires Resolve(m, p, o, allowed).Ok?
    ensures var r := Resolve(m, p, o, allowed).value.project;
            Respects(r, o) && (Within(other, Granted(p, m)) && Respects(other, o) ==> Within(other, r))
  {
  }

  /** An override the project allows: known, not negative, and nowhere above the project. */
  predicate Narrows<S>(o: Override, p: Project<S>) {
    && (o.mergeMode == "" || (ValidMode(o.mergeMode) && MergeRank(o.mergeMode) <= MergeRank(p.mergeMode)))
    && o.phaseTimeout <= p.phaseTimeout && o.ticketTimeout <= p.ticketTimeout && 0 <= o.cost <= p.cost
  }

  /** Exactly what is refused. Negative timeouts are not: they count as no override. */
  lemma RefusedExactly<S>(m: Machine, p: Project<S>, o: Override, allowed: S -> bool)
    ensures Resolve(m, p, o, allowed).Ok? <==>
              ValidMachine(m) && ValidProject(m, Granted(p, m), allowed) && Narrows(o, Granted(p, m))
  {
  }

  /** Which merge modes a project's mode leaves to a ticket, by name. */
  predicate MayNarrowTo(project: string, ticket: string) {
    (project, ticket) in {("manual", "manual"), ("guarded", "manual"), ("guarded", "guarded"),
                          ("autonomous", "manual"), ("autonomous", "guarded"), ("autonomous", "autonomous")}
  }

  /** A manual project stays manual, a guarded one becomes at most guarded, an autonomous one needs the machine's leave;
      a mode that is given and admitted is the result. */
  lemma MergeModesNarrow<S>(m: Machine, p: Project<S>, o: Override, allowed: S -> bool)
    ensures var r := Resolve(m, p, o, allowed);
            && (r.Ok? ==> MayNarrowTo(p.mergeMode, r.value.project.mergeMode)
                          && (p.mergeMode == "autonomous" ==> m.allowAutonomous)
                          && r.value.project.mergeMode == if o.mergeMode == "" then p.mergeMode else o.mergeMode)
            && (Resolve(m, p, NO_OVERRIDE, allowed).Ok? ==>
                  (Resolve(m, p, Override(o.mergeMode, 0, 0, 0), allowed).Ok? <==>
                     o.mergeMode == "" || MayNarrowTo(p.mergeMode, o.mergeMode)))
  {
  }

  /** Exactly what is resolved, limit by limit; a project without a cost ceiling has the machine's. */
  lemma AdmittedExactly<S>(m: Machine, p: Project<S>, allowed: S -> bool)
    ensures Resolve(m, p, NO_OVERRIDE, allowed).Ok? <==>
              && m.concurrency >= 1 && 0 < m.phaseTimeout <= m.ticketTimeout && m.cost > 0
              && allowed(p.settings)
              && (p.mergeMode == "manual" || p.mergeMode == "guarded"
                  || (p.mergeMode == "autonomous" && m.allowAutonomous))
              && 1 <= p.concurrency <= m.concurrency && 0 < p.phaseTimeout <= m.phaseTimeout
              && p.phaseTimeout <= p.ticketTimeout <= m.ticketTimeout && 0 <= p.cost <= m.cost
    ensures Resolve(m, p, NO_OVERRIDE, allowed).Ok? ==>
              Resolve(m, p, NO_OVERRIDE, allowed).value ==
              Effective(p.(cost := if p.cost == 0 then m.cost else p.cost), m)
  {
  }

  /** Resolving what was resolved, under any further override, still stays within the first grant. */
  lemma NarrowingComposes<S>(m: Machine, p: Project<S>, first: Override, second: Override, allowed: S -> bool)
    requires Resolve(m, p, first, allowed).Ok?
    requires Resolve(m, Resolve(m, p, first, allowed).value.project, second, allowed).Ok?
    ensures var once := Resolve(m, p, first, allowed).value.project;
            Within(Resolve(m, once, second, allowed).value.project, Granted(p, m))
  {
    ResolvedNeverExceeds(m, p, first, allowed);
    ResolvedNeverExceeds(m, Resolve(m, p, first, allowed).value.project, second, allowed);
  }

  // ----- The frozen snapshot -----

  /** Encoder, strict decoder and digest of one build. */
  datatype Codec<!S> =
    Codec(encode: Effective<S> -> string, decode: string -> Result<Effective<S>>, digest: string -> string)

  /** The decoder reads back whatever the encoder wrote, and an encoding is never empty. */
  ghost predicate Lawful<S(!new)>(c: Codec<S>) {
    forall e: Effective<S> :: c.decode(c.encode(e)) == Ok(e) && c.encode(e) != ""
  }

  function Snapshot<S>(e: Effective<S>, c: Codec<S>): (string, string) {
    (c.encode(e), c.digest(c.encode(e)))
  }

  function DecodeSnapshot<S>(data: string, want: string, allowed: S -> bool, c: Codec<S>): Result<Effective<S>> {
    if data == "" || |data| > MAX_FILE_BYTES then Err(Incomplete)
    else if c.digest(data) != want then Err(DigestMismatch)
    else if c.decode(data).Err? then Err(Malformed)
    else
      var value := c.decode(data).value;
      var resolved := Resolve(value.machine, value.project, NO_OVERRIDE, allowed);
      if resolved.Err? then resolved
      else if Snapshot(resolved.value, c).0 != data then Err(NotCanonical)
      else resolved
  }

  function Thawed<S>(e: Effective<S>, allowed: S -> bool, c: Codec<S>): Result<Effective<S>> {
    DecodeSnapshot(Snapshot(e, c).0, Snapshot(e, c).1, allowed, c)
  }

  /** Resolution accepts its own result again exactly when a phase may not outlive its ticket. */
  lemma ResolvedAgain<S>(m: Machine, p: Project<S>, o: Override, allowed: S -> bool)
    requires Resolve(m, p, o, allowed).Ok?
    ensures var e := Resolve(m, p, o, allowed).value;
            var again := Resolve(e.machine, e.project, NO_OVERRIDE, allowed);
            if e.project.phaseTimeout <= e.project.ticketTimeout then again == Ok(e) else again == Err(BadProject)
  {
  }

  /** What a caller can see before resolving: the ticket asks for less time than one of its phases gets. */
  predicate PhaseOutlives<S>(p: Project<S>, o: Override) {
    0 < o.ticketTimeout < Chosen(o.phaseTimeout, p.phaseTimeout)
  }

  lemma OutlivesAfterResolution<S>(m: Machine, p: Project<S>, o: Override, allowed: S -> bool)
    requires Resolve(m, p, o, allowed).Ok?
    ensures var e := Resolve(m, p, o, allowed).value;
            e.project.phaseTimeout > e.project.ticketTimeout <==> PhaseOutlives(p, o)
  {
  }

  /** A frozen configuration thaws to itself if and only if the override left every phase inside its ticket and the
      encoding fits; otherwise it does not thaw at all. */
  lemma SnapshotRoundTrip<S(!new)>(m: Machine, p: Project<S>, o: Override, allowed: S -> bool, c: Codec<S>)
    requires Lawful(c) && Resolve(m, p, o, allowed).Ok?
    ensures var e := Resolve(m, p, o, allowed).value;
            && (Thawed(e, allowed, c) == Ok(e) <==> !PhaseOutlives(p, o) && |c.encode(e)| <= MAX_FILE_BYTES)
            && (Thawed(e, allowed, c) != Ok(e) ==> Thawed(e, allowed, c).Err?)
  {
    var e := Resolve(m, p, o, allowed).value;
    OutlivesAfterResolution(m, p, o, allowed);
    ResolvedAgain(m, p, o, allowed);
    assert c.decode(c.encode(e)) == Ok(e);
  }

  /** A legal override whose frozen configuration can never be read back: a one-minute ticket under the defaults. */
  lemma ShortTicketCannotThaw<S(!new)>(s: S, allowed: S -> bool, c: Codec<S>)
    requires Lawful(c) && allowed(s)
    ensures var m := Machine(2, 45 * MINUTE, 240 * MINUTE, 100_000_000, false);
            var p := Project(s, "guarded", 2, 45 * MINUTE, 240 * MINUTE, 100_000_000);
            var r := Resolve(m, p, Override("", 0, MINUTE, 0), allowed);
            r.Ok? && Thawed(r.value, allowed, c).Err?
  {
    var m := Machine(2, 45 * MINUTE, 240 * MINUTE, 100_000_000, false);
    var p := Project(s, "guarded", 2, 45 * MINUTE, 240 * MINUTE, 100_000_000);
    SnapshotRoundTrip(m, p, Override("", 0, MINUTE, 0), allowed, c);
  }

  /** Short of a digest collision, only the frozen bytes thaw, only to what re-encodes to them, and always within
      bounds. */
  lemma ThawedIsAuthentic<S(!new)>(data: string, want: string, frozen: Effective<S>, allowed: S -> bool, c: Codec<S>)
    requires Lawful(c) && (c.digest(data) == c.digest(c.encode(frozen)) ==> data == c.encode(frozen))
    requires DecodeSnapshot(data, want, allowed, c).Ok?
    ensures var e := DecodeSnapshot(data, want, allowed, c).value;
            && c.encode(e) == data && ValidMachine(e.machine) && ValidProject(e.machine, e.project, allowed)
            && (want == Snapshot(frozen, c).1 ==> e == frozen)
  {
    var e := DecodeSnapshot(data, want, allowed, c).value;
    assert c.decode(c.encode(e)) == Ok(e);
    assert c.decode(c.encode(frozen)) == Ok(frozen);
  }

  // ----- Clamped defaults -----

  function Min(a: int, b: int): int {
    if a <= b then a else b
  }

  function DefaultProject<S>(s: S): Project<S> {
    Project(s, "guarded", 2, 45 * MINUTE, 240 * MINUTE, 100_000_000)
  }

  /** The successive field assignments before the document is read. */
  method ClampDefaults<S>(s: S, m: Machine) returns (p: Project<S>)
    ensures p == Clamped(s, m)
  {
    p := DefaultProject(s);
    p := p.(concurrency := Min(p.concurrency, m.concurrency));
    p := p.(phaseTimeout := Min(p.phaseTimeout, m.phaseTimeout));
    p := p.(ticketTimeout := Min(p.ticketTimeout, m.ticketTimeout));
    p := p.(phaseTimeout := Min(p.phaseTimeout, p.ticketTimeout));
    p := p.(cost := Min(p.cost, m.cost));
  }

  /** The componentwise meet of the defaults and the machine's limits, with the phase inside the ticket. */
  function Clamped<S>(s: S, m: Machine): Project<S> {
    var d := DefaultProject(s);
    Project(s, d.mergeMode, Min(d.concurrency, m.concurrency),
            Min(Min(d.phaseTimeout, m.phaseTimeout), Min(d.ticketTimeout, m.ticketTimeout)),
            Min(d.ticketTimeout, m.ticketTimeout), Min(d.cost, m.cost))
  }

  /** Under every valid machine policy the clamped defaults resolve to themselves, thaw from their snapshot, and no
      project within both the defaults and the machine grants more. */
  lemma ClampedDefaultsResolve<S(!new)>(s: S, m: Machine, allowed: S -> bool, c: Codec<S>, other: Project<S>)
    requires ValidMachine(m) && allowed(s) && Lawful(c)
    ensures Resolve(m, Clamped(s, m), NO_OVERRIDE, allowed) == Ok(Effective(Clamped(s, m), m))
    ensures |c.encode(Effective(Clamped(s, m), m))| <= MAX_FILE_BYTES ==>
              Thawed(Effective(Clamped(s, m), m), allowed, c) == Ok(Effective(Clamped(s, m), m))
    ensures WithinMachine(other, m) && Within(other, DefaultProject(s)) ==> Within(other, Clamped(s, m))
  {
    SnapshotRoundTrip(m, Clamped(s, m), NO_OVERRIDE, allowed, c);
  }

  /** Under a machine that allows more, the defaults are 2 tickets, 45 minutes, 4 hours and 100 dollars; under a
      stricter one each limit is the machine's. */
  lemma DefaultsInNumbers<S>(s: S, m: Machine)
    ensures m.concurrency >= 2 && m.phaseTimeout >= 2_700_000_000_000 && m.ticketTimeout >= 14_400_000_000_000
            && m.cost >= 100_000_000 ==>
              Clamped(s, m) == Project(s, "guarded", 2, 2_700_000_000_000, 14_400_000_000_000, 100_000_000)
    ensures m.concurrency <= 2 && m.phaseTimeout <= 2_700_000_000_000 && m.ticketTimeout <= 14_400_000_000_000
            && m.cost <= 100_000_000 && ValidMachine(m) ==>
              Clamped(s, m) == Project(s, "guarded", m.concurrency, m.phaseTimeout, m.ticketTimeout, m.cost)
  {
  }

  /** The clamp of the phase by the ticket is never what decides under a valid machine policy. */
  lemma PhaseClampIsRedundant<S>(s: S, m: Machine)
    requires ValidMachine(m)
    ensures Clamped(s, m).phaseTimeout == Min(DefaultProject(s).phaseTimeout, m.phaseTimeout)
  {
  }
}
