/** The protected-base refresh (internal/baserefresh/coordinator.go) over an arbitrary Store and Git. Every call is an
    action in a log, answered by an adversary. */
module BaseRefresh {
  import opened Wrappers

  datatype Claim = Claim(key: string, epoch: nat)
  datatype Reservation = Reservation(key: string, payload: string)
  datatype EffectState = Planned | Executing | Confirmed | Uncertain

  /** One call of the coordinator with its outcome. */
  datatype Action =
    | Begin(base: string)
    | ReadPending(found: Option<Reservation>, ok: bool)
    | ProofIntent(base: string, ok: bool)
    | PlanEffect(key: string, state: EffectState, ok: bool)
    | Issue(claim: Claim, ok: bool)
    | ReclaimProof(base: string, claim: Claim, ok: bool)
    | Reclaim(claim: Claim, ok: bool)
    | Verify(claim: Claim, ok: bool)
    | Confirm(claim: Claim, ok: bool)
    | MarkUncertain(claim: Claim, ok: bool)
    | Reserve(base: string, reservation: Reservation, ok: bool)
    | ReadEffect(key: string, state: EffectState, ok: bool)
    | ReadFacts(key: string, prepared: bool, ok: bool)
    | Prepare(reservation: Reservation, claim: Claim, ok: bool, recorded: bool)
    | Apply(reservation: Reservation, claim: Claim, ok: bool)
    | Complete(claim: Claim, ok: bool)
    | End
    | Crash

  // ----- What an observer of the log allows -----

  /** Where the base of the running refresh comes from. */
  datatype Source = Unknown | Caller | Fixed(reservation: Reservation)

  /** `effect` is the last known state of the effect in hand, `confirmed` the claim confirmed last, and `facts` what
      this invocation last learned about the prepared object of a key. */
  datatype Watch = Watch(base: string, source: Source, effect: Option<EffectState>, open: Option<Claim>, earned: bool,
                         confirmed: Option<Claim>, facts: Option<(string, bool)>)

  const IDLE := Watch("", Unknown, None, None, false, None, None)

  function Grants(a: Action): Option<Claim> {
    match a
    case Issue(claim, ok) => if ok then Some(claim) else None
    case ReclaimProof(_, claim, ok) => if ok then Some(claim) else None
    case Reclaim(claim, ok) => if ok then Some(claim) else None
    case _ => None
  }

  predicate GitSucceeds(a: Action, claim: Claim) {
    match a
    case Verify(c, ok) => c == claim && ok
    case Apply(_, c, ok) => c == claim && ok
    case _ => false
  }

  /** A confirmed claim, or one whose uncertainty was at least reported. */
  predicate Settles(a: Action, claim: Claim) {
    match a
    case Confirm(c, ok) => c == claim && ok
    case MarkUncertain(c, _) => c == claim
    case _ => false
  }

  function BaseOf(a: Action): Option<string> {
    match a
    case ProofIntent(base, _) => Some(base)
    case ReclaimProof(base, _, _) => Some(base)
    case Reserve(base, _, _) => Some(base)
    case _ => None
  }

  predicate Allowed(w: Watch, a: Action) {
    && (Grants(a).Some? ==> w.open == None)
    && (BaseOf(a).Some? ==> w.source == Caller && BaseOf(a).value == w.base)
    && match a
       case Begin(_) => w.open == None
       case End => w.open == None
       case Issue(_, _) => w.effect == Some(Planned)
       case ReclaimProof(_, _, _) => w.effect == Some(Uncertain)
       case Reclaim(_, _) => w.effect.Some? && w.effect != Some(Planned)
       case Reserve(_, _, _) => w.effect == Some(Confirmed)
       case Complete(claim, _) => w.confirmed == Some(claim)
       case Confirm(claim, _) => w.open == Some(claim) && w.earned
       case MarkUncertain(claim, _) => w.open == Some(claim)
       case Verify(claim, _) => w.open == Some(claim)
       case Prepare(r, claim, ok, recorded) =>
         w.open == Some(claim) && w.source == Fixed(r) && w.facts == Some((r.key, false)) && (ok ==> recorded)
       case Apply(r, claim, _) => w.open == Some(claim) && w.source == Fixed(r) && w.facts == Some((r.key, true))
       case _ => true
  }

  function Seen(w: Watch, a: Action): Watch {
    if Grants(a).Some? then w.(open := Grants(a), earned := false)
    else
      match a
      case Begin(base) => Watch(base, Unknown, None, w.open, w.earned, None, None)
      case PlanEffect(_, state, ok) => if ok && w.source == Caller then w.(effect := Some(state)) else w
      case ReadEffect(_, state, ok) => if ok && w.source.Fixed? then w.(effect := Some(state)) else w
      case ReadPending(found, ok) =>
        if !ok then w else w.(source := if found.Some? then Fixed(found.value) else Caller, effect := None)
      case Reserve(_, r, ok) => if ok then w.(source := Fixed(r), effect := None) else w
      case Verify(claim, ok) => w.(earned := w.earned || ok)
      case Apply(_, claim, ok) => w.(earned := w.earned || ok)
      case ReadFacts(key, prepared, ok) => if ok then w.(facts := Some((key, prepared))) else w
      case Prepare(r, _, _, recorded) => if recorded then w.(facts := Some((r.key, true))) else w
      case Confirm(claim, ok) =>
        if ok then w.(open := None, earned := false, effect := Some(Confirmed), confirmed := Some(claim)) else w
      case MarkUncertain(_, _) => w.(open := None, earned := false)
      case Crash => Watch(w.base, Unknown, None, None, false, None, None)
      case _ => w
  }

  function Watched(log: seq<Action>): Watch {
    if log == [] then IDLE else Seen(Watched(log[..|log| - 1]), log[|log| - 1])
  }

  predicate Accepted(log: seq<Action>) {
    log != [] ==> Accepted(log[..|log| - 1]) && Allowed(Watched(log[..|log| - 1]), log[|log| - 1])
  }

  // ----- The environment -----

  datatype Answer = Answer(ok: bool, decodes: bool, pending: Option<Reservation>, key: string, state: EffectState,
                           epoch: nat, reservation: Reservation, prepared: bool, recorded: bool)

  /** Nothing fails from call `from` on. */
  ghost predicate Favourable(oracle: nat -> Answer, from: nat) {
    forall n: nat :: n >= from ==> oracle(n).ok && oracle(n).decodes
  }

  class World {
    const oracle: nat -> Answer
    var log: seq<Action>

    constructor (answers: nat -> Answer)
      ensures log == [] && oracle == answers && Accepted(log) && Watched(log) == IDLE
    {
      oracle, log := answers, [];
    }

    /** The adversary's answer to the next call. */
    function Ask(): Answer
      reads this
    {
      oracle(|log|)
    }

    method Record(a: Action)
      requires Accepted(log) && Allowed(Watched(log), a)
      modifies this
      ensures log == old(log) + [a] && Accepted(log) && Watched(log) == Seen(old(Watched(log)), a)
    {
      log := log + [a];
      assert log[..|log| - 1] == old(log);
    }

    /** A crash discards the calls that were never made. */
    method CrashAt(cut: nat)
      requires cut <= |log| && Accepted(log)
      modifies this
      ensures log == old(log)[..cut] + [Crash] && Accepted(log) && Watched(log).open == None
    {
      AcceptedPrefix(log, cut);
      log := log[..cut];
      Record(Crash);
    }
  }

  lemma {:induction false} AcceptedPrefix(log: seq<Action>, cut: nat)
    requires cut <= |log| && Accepted(log)
    ensures Accepted(log[..cut])
    decreases |log|
  {
    if cut == |log| {
      assert log[..cut] == log;
    } else {
      AcceptedPrefix(log[..|log| - 1], cut);
      assert log[..|log| - 1][..cut] == log[..cut];
    }
  }

  // ----- The coordinator -----

  /** Reports the uncertainty of a claim; the report itself may fail. */
  method MarkedUncertain(world: World, claim: Claim)
    requires Accepted(world.log) && Watched(world.log).open == Some(claim)
    modifies world
    ensures Accepted(world.log) && old(world.log) <= world.log && Watched(world.log).open == None
    ensures Watched(world.log).base == old(Watched(world.log)).base
    ensures Watched(world.log).source == old(Watched(world.log)).source
  {
    hide Watched, Accepted;
    world.Record(MarkUncertain(claim, world.Ask().ok));
  }

  method Refresh(world: World, newBase: string) returns (completed: bool)
    requires Accepted(world.log) && Watched(world.log).open == None
    modifies world
    ensures Accepted(world.log) && old(world.log) <= world.log && Watched(world.log).open == None
    ensures completed ==> Finished(world.log)
    ensures Favourable(world.oracle, |old(world.log)|) ==>
              (completed <==> world.oracle(|old(world.log)| + 1).pending.Some?
                              || world.oracle(|old(world.log)| + 3).state != Executing)
  {
    hide Watched, Accepted;
    world.Record(Begin(newBase));
    completed := Refreshed(world, newBase);
    world.Record(End);
  }

  /** The last calls of a completed refresh. */
  predicate Finished(log: seq<Action>) {
    && |log| >= 3 && log[|log| - 1] == End
    && log[|log| - 2].Complete? && log[|log| - 2].ok
    && log[|log| - 3] == Confirm(log[|log| - 2].claim, true)
  }

  method Refreshed(world: World, newBase: string) returns (completed: bool)
    requires Accepted(world.log) && Watched(world.log).open == None && Watched(world.log).base == newBase
    modifies world
    ensures Accepted(world.log) && old(world.log) <= world.log && Watched(world.log).open == None
    ensures completed ==> Finished(world.log + [End])
    ensures Favourable(world.oracle, |old(world.log)|) ==>
              (completed <==> world.oracle(|old(world.log)|).pending.Some?
                              || world.oracle(|old(world.log)| + 2).state != Executing)
  {
    hide Watched, Accepted;
    var answer := world.Ask();
    world.Record(ReadPending(answer.pending, answer.ok));
    if !answer.ok {
      return false;
    }
    var reservation;
    if answer.pending.Some? {
      reservation := answer.pending.value;
    } else {
      var proved := Prove(world, newBase);
      if !proved {
        return false;
      }
      answer := world.Ask();
      world.Record(Reserve(newBase, answer.reservation, answer.ok));
      if !answer.ok {
        return false;
      }
      reservation := answer.reservation;
    }
    completed := ApplyReservation(world, reservation);
  }

  /** The private-ref proof of the caller's base. */
  method Prove(world: World, newBase: string) returns (proved: bool)
    requires Accepted(world.log) && Watched(world.log).open == None
    requires Watched(world.log).base == newBase && Watched(world.log).source == Caller
    modifies world
    ensures Accepted(world.log) && old(world.log) <= world.log && Watched(world.log).open == None
    ensures Watched(world.log).base == newBase && Watched(world.log).source == Caller
    ensures proved ==> Watched(world.log).effect == Some(Confirmed)
    ensures Favourable(world.oracle, |old(world.log)|) ==>
              (proved <==> world.oracle(|old(world.log)| + 1).state != Executing)
  {
    hide Watched, Accepted;
    var answer := world.Ask();
    world.Record(ProofIntent(newBase, answer.ok));
    if !answer.ok {
      return false;
    }
    var key, decodes := answer.key, answer.decodes;
    answer := world.Ask();
    world.Record(PlanEffect(key, answer.state, answer.ok));
    if !answer.ok {
      return false;
    }
    if answer.state == Confirmed {
      return true;
    }
    var claimed, claim := ClaimProof(world, newBase, key, answer.state);
    if claimed {
      proved := ConfirmProof(world, claim, decodes);
    } else {
      proved := false;
    }
  }

  /** A planned proof is issued and an uncertain one reclaimed; one in execution is left alone. */
  method ClaimProof(world: World, newBase: string, key: string, state: EffectState)
    returns (claimed: bool, claim: Claim)
    requires Accepted(world.log) && Watched(world.log).open == None && Watched(world.log).effect == Some(state)
    requires Watched(world.log).base == newBase && Watched(world.log).source == Caller && state != Confirmed
    modifies world
    ensures Accepted(world.log) && old(world.log) <= world.log
    ensures Watched(world.log).open == if claimed then Some(claim) else None
    ensures Watched(world.log).base == newBase && Watched(world.log).source == Caller
    ensures claimed <==> world.oracle(|old(world.log)|).ok && state != Executing
  {
    hide Watched, Accepted;
    var answer := world.Ask();
    claimed, claim := answer.ok, Claim(key, answer.epoch);
    match state {
      case Planned => world.Record(Issue(claim, answer.ok));
      case Uncertain => world.Record(ReclaimProof(newBase, claim, answer.ok));
      case _ => claimed := false;
    }
  }

  /** From the claim to its confirmation. */
  method ConfirmProof(world: World, claim: Claim, decodes: bool) returns (proved: bool)
    requires Accepted(world.log) && Watched(world.log).open == Some(claim)
    modifies world
    ensures Accepted(world.log) && old(world.log) <= world.log && Watched(world.log).open == None
    ensures Watched(world.log).base == old(Watched(world.log)).base
    ensures Watched(world.log).source == old(Watched(world.log)).source
    ensures proved ==> Watched(world.log).effect == Some(Confirmed)
    ensures Favourable(world.oracle, |old(world.log)|) && decodes ==> proved
  {
    hide Watched, Accepted;
    if !decodes {
      MarkedUncertain(world, claim);
      return false;
    }
    var answer := world.Ask();
    world.Record(Verify(claim, answer.ok));
    if !answer.ok {
      MarkedUncertain(world, claim);
      return false;
    }
    answer := world.Ask();
    world.Record(Confirm(claim, answer.ok));
    if !answer.ok {
      MarkedUncertain(world, claim);
      return false;
    }
    return true;
  }

  method ApplyReservation(world: World, reservation: Reservation) returns (completed: bool)
    requires Accepted(world.log) && Watched(world.log).open == None && Watched(world.log).source == Fixed(reservation)
    modifies world
    ensures Accepted(world.log) && old(world.log) <= world.log && Watched(world.log).open == None
    ensures completed ==> Finished(world.log + [End])
    ensures Favourable(world.oracle, |old(world.log)|) ==> completed
  {
    hide Watched, Accepted, Finished;
    var claimed, claim := ClaimEffect(world, reservation);
    if !claimed {
      return false;
    }
    var answer := world.Ask();
    world.Record(ReadFacts(reservation.key, answer.prepared, answer.ok));
    if !answer.ok {
      MarkedUncertain(world, claim);
      return false;
    }
    if !answer.prepared {
      answer := world.Ask();
      world.Record(Prepare(reservation, claim, answer.ok, answer.ok || answer.recorded));
      if !answer.ok {
        MarkedUncertain(world, claim);
        return false;
      }
    }
    completed := ApplyPrepared(world, reservation, claim);
  }

  /** From the prepared object to the admitted Builder. */
  method ApplyPrepared(world: World, reservation: Reservation, claim: Claim) returns (completed: bool)
    requires Accepted(world.log) && Watched(world.log).open == Some(claim)
    requires Watched(world.log).source == Fixed(reservation)
    requires Watched(world.log).facts == Some((reservation.key, true))
    modifies world
    ensures Accepted(world.log) && old(world.log) <= world.log && Watched(world.log).open == None
    ensures completed ==> Finished(world.log + [End])
    ensures Favourable(world.oracle, |old(world.log)|) ==> completed
  {
    hide Watched, Accepted, Finished;
    var answer := world.Ask();
    world.Record(Apply(reservation, claim, answer.ok));
    if !answer.ok || !answer.decodes {
      MarkedUncertain(world, claim);
      return false;
    }
    answer := world.Ask();
    world.Record(Confirm(claim, answer.ok));
    if !answer.ok {
      MarkedUncertain(world, claim);
      return false;
    }
    completed := CompleteClaim(world, claim);
  }

  /** The Builder is admitted right after the confirmation. */
  method CompleteClaim(world: World, claim: Claim) returns (completed: bool)
    requires Accepted(world.log) && Watched(world.log).open == None && Watched(world.log).confirmed == Some(claim)
    requires world.log != [] && world.log[|world.log| - 1] == Confirm(claim, true)
    modifies world
    ensures Accepted(world.log) && old(world.log) <= world.log && Watched(world.log).open == None
    ensures completed ==> Finished(world.log + [End])
    ensures Favourable(world.oracle, |old(world.log)|) ==> completed
  {
    hide Watched, Accepted;
    var answer := world.Ask();
    world.Record(Complete(claim, answer.ok));
    return answer.ok;
  }

  /** An effect found in any other state than planned, by a crash or a failure, is reclaimed; a planned one is planned
      again and then issued. A failed call ends the attempt. */
  predicate TakesOver(calls: seq<Action>, key: string) {
    && |calls| >= 1 && calls[0].ReadEffect? && calls[0].key == key
    && (!calls[0].ok ==> |calls| == 1)
    && (calls[0].ok && calls[0].state != Planned ==> |calls| == 2 && calls[1].Reclaim? && calls[1].claim.key == key)
    && (calls[0].ok && calls[0].state == Planned ==>
          && |calls| >= 2 && calls[1].PlanEffect? && calls[1].key == key
          && (if calls[1].ok then |calls| == 3 && calls[2].Issue? && calls[2].claim.key == key else |calls| == 2))
  }

  /** Issues the reserved effect, or takes over an earlier claim of it. */
  method ClaimEffect(world: World, reservation: Reservation) returns (claimed: bool, claim: Claim)
    requires Accepted(world.log) && Watched(world.log).open == None && Watched(world.log).source == Fixed(reservation)
    modifies world
    ensures Accepted(world.log) && old(world.log) <= world.log && Watched(world.log).source == Fixed(reservation)
    ensures Watched(world.log).open == if claimed then Some(claim) else None
    ensures Favourable(world.oracle, |old(world.log)|) ==> claimed
    ensures TakesOver(world.log[|old(world.log)|..], reservation.key)
  {
    hide Watched, Accepted;
    var answer := world.Ask();
    claim := Claim(reservation.key, answer.epoch);
    world.Record(ReadEffect(reservation.key, answer.state, answer.ok));
    if !answer.ok {
      return false, claim;
    }
    if answer.state == Planned {
      answer := world.Ask();
      world.Record(PlanEffect(reservation.key, answer.state, answer.ok));
      if !answer.ok {
        return false, claim;
      }
      answer := world.Ask();
      claim := Claim(reservation.key, answer.epoch);
      world.Record(Issue(claim, answer.ok));
    } else {
      answer := world.Ask();
      claim := Claim(reservation.key, answer.epoch);
      world.Record(Reclaim(claim, answer.ok));
    }
    return answer.ok, claim;
  }

  // ----- Whole runs -----

  /** One invocation, cut short after some number of its calls or not at all. */
  datatype Invocation = Invocation(base: string, crash: Option<nat>)

  method Run(world: World, invocations: seq<Invocation>)
    requires Accepted(world.log) && Watched(world.log).open == None
    modifies world
    ensures Accepted(world.log) && old(world.log) <= world.log && Watched(world.log).open == None
  {
    hide Watched, Accepted;
    for n := 0 to |invocations|
      invariant Accepted(world.log) && old(world.log) <= world.log && Watched(world.log).open == None
    {
      var start := |world.log|;
      var completed := Refresh(world, invocations[n].base);
      var crash := invocations[n].crash;
      if crash.Some? && start + crash.value < |world.log| {
        world.CrashAt(start + crash.value);
      }
    }
  }

  // ----- What every accepted log, and so every run, shows -----

  lemma {:induction false} StepAt(log: seq<Action>, n: nat)
    requires Accepted(log) && n < |log|
    ensures Allowed(Watched(log[..n]), log[n]) && Watched(log[..n + 1]) == Seen(Watched(log[..n]), log[n])
  {
    AcceptedPrefix(log, n + 1);
    assert log[..n + 1][..n] == log[..n];
  }

  /** From position k until n the claim is held: nothing settled it and no other was granted. */
  ghost predicate HeldSince(log: seq<Action>, claim: Claim, k: nat, n: nat) {
    && k < n <= |log| && Grants(log[k]) == Some(claim)
    && forall m :: k < m < n ==> Grants(log[m]).None? && !Settles(log[m], claim) && log[m] != Crash
  }

  ghost predicate SettledAfter(log: seq<Action>, claim: Claim, k: nat) {
    exists j: nat :: HeldSince(log, claim, k, j) && j < |log| && (Settles(log[j], claim) || log[j] == Crash)
  }

  lemma {:induction false} SettlesFrom(log: seq<Action>, claim: Claim, k: nat, n: nat)
    requires Accepted(log) && Watched(log).open == None
    requires HeldSince(log, claim, k, n) && Watched(log[..n]).open == Some(claim)
    ensures SettledAfter(log, claim, k)
    decreases |log| - n
  {
    assert log[..|log|] == log;
    StepAt(log, n);
    if Settles(log[n], claim) || log[n] == Crash {
    } else {
      assert Watched(log[..n + 1]).open == Some(claim);
      SettlesFrom(log, claim, k, n + 1);
    }
  }

  /** Every claim ends confirmed or with an attempt to mark it uncertain, unless the process died holding it. */
  lemma EveryClaimSettles(log: seq<Action>, k: nat)
    requires Accepted(log) && Watched(log).open == None && k < |log| && Grants(log[k]).Some?
    ensures SettledAfter(log, Grants(log[k]).value, k)
  {
    StepAt(log, k);
    SettlesFrom(log, Grants(log[k]).value, k, k + 1);
  }

  /** A held claim has a grant, and an earned one a Git success since. */
  ghost predicate HeldFrom(log: seq<Action>, claim: Claim, n: nat, earned: bool) {
    exists k: nat :: HeldSince(log, claim, k, n) && (earned ==> SucceededBetween(log, claim, k, n))
  }

  ghost predicate SucceededBetween(log: seq<Action>, claim: Claim, k: nat, n: nat) {
    exists i :: k < i < n <= |log| && GitSucceeds(log[i], claim)
  }

  /** Where an open claim and its success come from, one call back. */
  lemma OpenStep(w: Watch, a: Action)
    requires Allowed(w, a) && Seen(w, a).open.Some?
    ensures var claim := Seen(w, a).open.value;
            if Grants(a).Some? then Grants(a) == Some(claim) && !Seen(w, a).earned
            else w.open == Some(claim) && !Settles(a, claim) && a != Crash
                 && (Seen(w, a).earned ==> w.earned || GitSucceeds(a, claim))
  {
  }

  lemma {:induction false} OpenWasGranted(log: seq<Action>, n: nat)
    requires Accepted(log) && n <= |log| && Watched(log[..n]).open.Some?
    ensures HeldFrom(log, Watched(log[..n]).open.value, n, Watched(log[..n]).earned)
  {
    hide Watched, Accepted, Allowed, Seen, Grants, Settles, GitSucceeds;
    assert n > 0 by { WatchedEmpty(log[..n]); }
    var w, claim := Watched(log[..n - 1]), Watched(log[..n]).open.value;
    StepAt(log, n - 1);
    OpenStep(w, log[n - 1]);
    if Grants(log[n - 1]).Some? {
      assert HeldSince(log, claim, n - 1, n);
    } else {
      OpenWasGranted(log, n - 1);
      var k: nat :| HeldSince(log, claim, k, n - 1) && (w.earned ==> SucceededBetween(log, claim, k, n - 1));
      assert HeldSince(log, claim, k, n);
      if w.earned {
        var i :| k < i < n - 1 && GitSucceeds(log[i], claim);
      } else if Watched(log[..n]).earned {
        assert GitSucceeds(log[n - 1], claim);
      }
    }
  }

  lemma WatchedEmpty(log: seq<Action>)
    ensures Watched(log).open.Some? ==> log != []
  {
  }

  /** Every confirmation attempt follows a Git success for the same claim, granted before it and held throughout. */
  lemma ConfirmIsEarned(log: seq<Action>, j: nat)
    requires Accepted(log) && j < |log| && log[j].Confirm?
    ensures HeldFrom(log, log[j].claim, j, true)
  {
    StepAt(log, j);
    OpenWasGranted(log, j);
  }

  /** No new invocation and no other reading of the pending reservation in between. */
  ghost predicate SameInvocation(log: seq<Action>, q: nat, i: nat) {
    q < i <= |log| && forall m :: q < m < i ==> !log[m].Begin? && !log[m].ReadPending? && log[m] != Crash
  }

  /** Within an invocation nothing replaces a fixed reservation. */
  lemma SourceStays(w: Watch, a: Action)
    requires Allowed(w, a) && w.source.Fixed? && !a.Begin? && !a.ReadPending? && a != Crash
    ensures Seen(w, a).source == w.source
  {
  }

  lemma PendingFixes(w: Watch, a: Action)
    requires a.ReadPending? && a.ok && a.found.Some?
    ensures Seen(w, a).source == Fixed(a.found.value)
  {
  }

  lemma {:induction false} ReservationStays(log: seq<Action>, q: nat, n: nat)
    requires Accepted(log) && SameInvocation(log, q, n) && log[q].ReadPending? && log[q].ok && log[q].found.Some?
    ensures Watched(log[..n]).source == Fixed(log[q].found.value)
    decreases n
  {
    hide Watched, Accepted, Allowed, Seen;
    StepAt(log, n - 1);
    if n > q + 1 {
      ReservationStays(log, q, n - 1);
      SourceStays(Watched(log[..n - 1]), log[n - 1]);
    } else {
      PendingFixes(Watched(log[..q]), log[q]);
    }
  }

  /** Once a pending reservation is found, the caller's base is never used, and only that reservation is prepared or
      applied. */
  lemma PendingIsNotReplaced(log: seq<Action>, q: nat, i: nat)
    requires Accepted(log) && i < |log| && SameInvocation(log, q, i)
    requires log[q].ReadPending? && log[q].ok && log[q].found.Some?
    ensures BaseOf(log[i]) == None
    ensures log[i].Prepare? || log[i].Apply? ==> log[i].reservation == log[q].found.value
  {
    ReservationStays(log, q, i);
    StepAt(log, i);
  }

  ghost predicate RecordedBefore(log: seq<Action>, key: string, n: nat) {
    exists i :: 0 <= i < n <= |log| && log[i].Prepare? && log[i].recorded && log[i].reservation.key == key
  }

  /** What the Store is trusted for: its facts tell whether Git has recorded an object for the key. */
  ghost predicate Truthful(log: seq<Action>) {
    forall i :: 0 <= i < |log| && log[i].ReadFacts? && log[i].ok ==>
      (log[i].prepared <==> RecordedBefore(log, log[i].key, i))
  }

  lemma RecordedNext(log: seq<Action>, key: string, n: nat)
    requires n < |log|
    ensures RecordedBefore(log, key, n + 1) <==>
              RecordedBefore(log, key, n) || (log[n].Prepare? && log[n].recorded && log[n].reservation.key == key)
  {
    if RecordedBefore(log, key, n) {
      var i :| 0 <= i < n && log[i].Prepare? && log[i].recorded && log[i].reservation.key == key;
    }
  }

  /** What an invocation learned stays true until it prepares the object itself. */
  lemma {:induction false} FactsHold(log: seq<Action>, n: nat)
    requires Accepted(log) && Truthful(log) && n <= |log|
    ensures var facts := Watched(log[..n]).facts;
            facts.Some? ==> (facts.value.1 <==> RecordedBefore(log, facts.value.0, n))
  {
    hide Accepted, RecordedBefore;
    if n > 0 {
      FactsHold(log, n - 1);
      StepAt(log, n - 1);
      var facts := Watched(log[..n]).facts;
      if facts.Some? {
        RecordedNext(log, facts.value.0, n - 1);
      }
    }
  }

  /** Over a truthful Store a recorded object is never prepared again, across invocations and crashes, and only a
      recorded one is applied. */
  lemma PreparedOnce(log: seq<Action>, j: nat)
    requires Accepted(log) && Truthful(log) && j < |log|
    ensures log[j].Prepare? ==> !RecordedBefore(log, log[j].reservation.key, j)
    ensures log[j].Apply? ==> RecordedBefore(log, log[j].reservation.key, j)
  {
    hide RecordedBefore;
    StepAt(log, j);
    FactsHold(log, j);
  }

  /** A confirmation, or the Store's report of an earlier one. */
  predicate Proves(a: Action) {
    (a.Confirm? && a.ok) || (a.PlanEffect? && a.ok && a.state == Confirmed)
  }

  ghost predicate ProvedBefore(log: seq<Action>, q: nat, n: nat) {
    exists i :: q < i < n <= |log| && Proves(log[i])
  }

  lemma {:induction false} ConfirmedWasProved(log: seq<Action>, q: nat, n: nat)
    requires Accepted(log) && SameInvocation(log, q, n) && log[q].ReadPending? && log[q].ok
    ensures Watched(log[..n]).source == Caller && Watched(log[..n]).effect == Some(Confirmed) ==>
              ProvedBefore(log, q, n)
    decreases n
  {
    hide Watched, Accepted, Allowed;
    StepAt(log, n - 1);
    if n > q + 1 {
      ConfirmedWasProved(log, q, n - 1);
      if ProvedBefore(log, q, n - 1) {
        var i :| q < i < n - 1 && Proves(log[i]);
        assert q < i < n;
      }
    }
  }

  /** The caller's base is reserved only after its proof was confirmed, by this invocation or as the Store reports. */
  lemma ReservationIsProved(log: seq<Action>, q: nat, j: nat)
    requires Accepted(log) && j < |log| && log[j].Reserve?
    requires SameInvocation(log, q, j) && log[q].ReadPending? && log[q].ok
    ensures ProvedBefore(log, q, j)
  {
    StepAt(log, j);
    ConfirmedWasProved(log, q, j);
  }
}
