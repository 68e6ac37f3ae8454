/** The workflow engine's generic front door (internal/engine/engine.go) over an arbitrary transition
    table (internal/statemachine/spec.go) and a compare-and-swap ticket store with other writers. */
module Engine {
  import opened Wrappers

  const STATES: set<string> :=
    {"queued", "planning", "verifying", "building", "publishing", "waiting_ci", "reviewing", "waiting_approval",
     "waiting_manual_merge", "merging", "reconciling", "stopping", "cancelling", "paused", "blocked", "done",
     "external_merged", "cancelled"}

  predicate ProviderState(state: string) {
    state in {"planning", "verifying", "building", "reviewing"}
  }

  // ----- The transition table -----

  datatype Row = Row(id: string, from: seq<string>, trigger: string, guards: seq<string>, to: string,
                     resumeState: string, phaseDisposition: string, invalidates: seq<string>)

  datatype Spec = Spec(transitions: seq<Row>, invalidationSets: map<string, seq<string>>)

  predicate Matches(row: Row, from: string, trigger: string, guards: set<string>) {
    row.trigger == trigger && from in row.from && forall guard :: guard in row.guards ==> guard in guards
  }

  function Matching(rows: seq<Row>, from: string, trigger: string, guards: set<string>): seq<Row> {
    if rows == [] then []
    else
      (if Matches(rows[0], from, trigger, guards) then [rows[0]] else [])
      + Matching(rows[1..], from, trigger, guards)
  }

  /** The one matching row; none when there is none or more than one. */
  function Select(spec: Spec, from: string, trigger: string, guards: set<string>): Option<Row> {
    var matches := Matching(spec.transitions, from, trigger, guards);
    if |matches| == 1 then Some(matches[0]) else None
  }

  function ResolveTarget(target: string, from: string, resume: string): Option<string> {
    var value := if target == "$same" || target == "$from" then from
                 else if target == "$resume_state" || target == "$stored" then resume else target;
    if value in STATES then Some(value) else None
  }

  // ----- Requests and decisions -----

  datatype Ticket = Ticket(version: nat, state: string, resumeState: string)

  /** `changeKind` is the change_kind member of the event payload, when the payload decodes. */
  datatype Request = Request(version: nat, from: string, trigger: string, attributes: map<string, string>,
                             changeKind: Option<string>)

  datatype Route = Persist | CompleteControl | InvalidateRunner | PublishedResume | GuardedMergeResume
                 | ReconcileResume | MergeObserved

  datatype Submission = Submission(route: Route, expectedVersion: nat, from: string, to: string,
                                   resumeState: string, trigger: string)

  datatype Refusal = EvidenceConflict | NoTransition | AmbiguousTransition | StaleFence | UnknownTarget
  datatype Decision = Refuse(reason: Refusal) | Submit(submission: Submission)

  predicate Holds(request: Request, attribute: string) {
    attribute in request.attributes && request.attributes[attribute] == "true"
  }

  predicate SourceResume(request: Request) {
    && request.from == "paused" && request.trigger == "operator_resume"
    && (|| Holds(request, "takeover_source_commit_valid")
        || Holds(request, "takeover_source_diff_valid")
        || Holds(request, "verification_files_unchanged")
        || request.changeKind == Some("source_commit")
        || request.changeKind == Some("source_changes"))
  }

  /** Triggers that only a typed path with its own Store proof may persist. */
  predicate Reserved(request: Request) {
    || request.trigger in {"postbuild_repair", "external_merge_observed", "verification_amendment_requested",
                           "amendment_accepted", "amendment_rejected", "review_repair"}
    || SourceResume(request)
    || (request.trigger == "phase_pass" && request.from in {"planning", "verifying", "building"})
    || (request.trigger == "retry_or_correction_exhausted" && ProviderState(request.from))
  }

  predicate RetriesPause(request: Request) {
    request.from == "paused" && request.trigger == "operator_retry"
  }

  function Guards(request: Request): set<string> {
    set key | key in request.attributes && request.attributes[key] == "true"
  }

  /** The resume field a row asks the Store to keep. */
  function ResumeField(row: Row, from: string, stored: string): string {
    if row.resumeState == "$from" then from
    else if row.resumeState == "$resume_state" || row.resumeState == "$stored" then stored
    else row.resumeState
  }

  function StartsWith(value: string, prefix: string): bool {
    prefix <= value
  }

  /** Which Store entry point takes the transition. */
  function RouteOf(row: Row, from: string, to: string, trigger: string): Route {
    var resuming := trigger == "operator_resume" || trigger == "operator_retry";
    if row.id == "stopped" || row.id == "cancelled" then CompleteControl
    else if StartsWith(row.phaseDisposition, "invalidate_runner_epoch") then InvalidateRunner
    else if ((from == "paused" && resuming) || (from == "blocked" && trigger == "operator_recover"))
            && (to == "publishing" || to == "waiting_ci") then PublishedResume
    else if from == "paused" && to == "merging" && resuming then GuardedMergeResume
    else if from == "paused" && to == "reconciling" && resuming then ReconcileResume
    else if from == "merging" && to == "reconciling" && trigger == "merge_observed" then MergeObserved
    else Persist
  }

  /** From a selected row and the second ticket read to what is handed to the Store. */
  function Prepare(spec: Spec, request: Request, ticket: Ticket, targetResume: bool): Decision {
    match Select(spec, request.from, request.trigger, Guards(request))
    case None =>
      var none := Matching(spec.transitions, request.from, request.trigger, Guards(request)) == [];
      Refuse(if none then NoTransition else AmbiguousTransition)
    case Some(row) =>
      if ticket.state != request.from || ticket.version != request.version then Refuse(StaleFence)
      else
        match ResolveTarget(row.to, request.from, ticket.resumeState)
        case None => Refuse(UnknownTarget)
        case Some(target) =>
          var resume := if targetResume then target else ResumeField(row, request.from, ticket.resumeState);
          Submit(Submission(RouteOf(row, request.from, target, request.trigger), request.version, request.from, target,
                            resume, request.trigger))
  }

  /** Transition and Signal, from their two ticket reads. */
  function Decide(spec: Spec, request: Request, first: Ticket, second: Ticket): Decision {
    if Reserved(request) then Refuse(EvidenceConflict)
    else if RetriesPause(request) && ProviderState(first.resumeState) then Refuse(EvidenceConflict)
    else Prepare(spec, request, second, false)
  }

  /** The typed path replaces the caller's attributes by its own. */
  function TypedRetry(request: Request): Request {
    request.(attributes := map["operator_identity_authenticated" := "true", "pause_reason_retryable" := "true",
                               "typed_prerequisites_satisfied" := "true", "runner_epoch_current" := "true"])
  }

  /** The typed provider retry, which alone may reopen a provider phase. */
  function DecideProviderRetry(spec: Spec, request: Request, first: Ticket, second: Ticket): Decision {
    if !RetriesPause(request) || !ProviderState(first.resumeState) then Refuse(EvidenceConflict)
    else Prepare(spec, TypedRetry(request), second, true)
  }

  // ----- The ticket store and its other writers -----

  /** Every write strictly increases the version. */
  predicate Growing(history: seq<Ticket>) {
    forall i, j :: 0 <= i < j < |history| ==> history[i].version < history[j].version
  }

  /** A persisted request, what was submitted for it and the value it replaced. */
  datatype Entry = Entry(request: Request, submission: Submission, replaced: Ticket)

  /** One ticket's successive values, and what has been persisted through the engine. */
  class TicketStore {
    var history: seq<Ticket>
    var persisted: seq<Entry>

    ghost predicate Valid()
      reads this
    {
      history != [] && Growing(history)
    }

    function Current(): Ticket
      requires history != []
      reads this
    {
      history[|history| - 1]
    }

    /** Other writers run here. */
    method Interfere(writes: seq<Ticket>)
      requires Valid() && Growing(history + writes)
      modifies this`history
      ensures history == old(history) + writes && Valid()
    {
      history := history + writes;
    }

    /** Compare-and-swap on the expected version and state; the Store may refuse for reasons of its own. */
    method CompareAndSwap(request: Request, submission: Submission, admitted: bool) returns (ok: bool)
      requires Valid()
      modifies this
      ensures Valid()
      ensures var ticket := old(Current());
              ok <==> admitted && ticket.version == submission.expectedVersion && ticket.state == submission.from
      ensures ok ==> persisted == old(persisted) + [Entry(request, submission, old(Current()))]
                     && history == old(history) + [Written(submission)]
      ensures !ok ==> history == old(history) && persisted == old(persisted)
    {
      var ticket := Current();
      if !admitted || ticket.version != submission.expectedVersion || ticket.state != submission.from {
        return false;
      }
      persisted := persisted + [Entry(request, submission, ticket)];
      history := history + [Written(submission)];
      ok := true;
    }
  }

  /** The generic entry point with writers between its reads (`between`) and before its write (`after`).
      Whatever they write, a persisted request replaces a ticket it was decided on, and one that carries an
      already observed version replaces the ticket its guard read. */
  method Transition(store: TicketStore, spec: Spec, request: Request, between: seq<Ticket>, after: seq<Ticket>,
                    admitted: bool)
    returns (decision: Decision, ok: bool)
    requires store.Valid() && Growing(store.history + between + after)
    modifies store
    ensures store.Valid()
    ensures decision == Decide(spec, request, old(store.Current()), Last(old(store.history) + between))
    ensures ok <==> decision.Submit? && admitted && after == []
    ensures !ok ==> store.persisted == old(store.persisted)
    ensures ok ==> decision.Submit? && |store.persisted| == |old(store.persisted)| + 1
                   && store.persisted[..|old(store.persisted)|] == old(store.persisted)
                   && store.persisted[|old(store.persisted)|].request == request
                   && store.persisted[|old(store.persisted)|].submission == decision.submission
    ensures ok ==> var replaced := store.persisted[|old(store.persisted)|].replaced;
                   && replaced == Last(old(store.history) + between)
                   && Later(old(store.Current()), replaced) && Admits(spec, request, old(store.Current()), replaced)
                   && !Reserved(request)
                   && (request.version <= old(store.Current()).version ==>
                         && replaced == old(store.Current())
                         && (RetriesPause(request) ==> !ProviderState(replaced.resumeState)))
  {
    hide Reserved, ProviderState, RetriesPause, Prepare;
    ok := false;
    if Reserved(request) {
      return Refuse(EvidenceConflict), false;
    }
    if RetriesPause(request) {
      var ticket := store.Current();
      if ProviderState(ticket.resumeState) {
        return Refuse(EvidenceConflict), false;
      }
    }
    ghost var first, middle := store.Current(), store.history + between;
    GrowingPrefix(middle, after);
    LastIsLater(store.history, between);
    store.Interfere(between);
    var second := store.Current();
    decision := Prepare(spec, request, second, false);
    if decision.Submit? {
      PreparedFor(spec, request, second, false);
      store.Interfere(after);
      ghost var final := store.history;
      ok := store.CompareAndSwap(request, decision.submission, admitted);
      assert after == [] ==> final == middle;
      if ok {
        assert final[|middle| - 1] == second;
        SameVersionSameTicket(final, |middle| - 1, |final| - 1);
        ReservedNeverPersisted(spec, request, first, second);
        if request.version <= first.version {
          ObservedVersionPinsTicket(spec, request, first, second);
        }
      }
    }
  }

  lemma PreparedFor(spec: Spec, request: Request, ticket: Ticket, targetResume: bool)
    requires Prepare(spec, request, ticket, targetResume).Submit?
    ensures var s := Prepare(spec, request, ticket, targetResume).submission;
            && s.expectedVersion == request.version == ticket.version
            && s.from == request.from == ticket.state && s.trigger == request.trigger && s.to in STATES
  {
  }

  function Last(history: seq<Ticket>): Ticket
    requires history != []
  {
    history[|history| - 1]
  }

  lemma LastIsLater(history: seq<Ticket>, writes: seq<Ticket>)
    requires history != [] && Growing(history + writes)
    ensures Later(Last(history), Last(history + writes))
  {
    var all := history + writes;
    assert all[|history| - 1] == Last(history);
    assert all[|all| - 1] == Last(all);
  }

  lemma GrowingPrefix(a: seq<Ticket>, b: seq<Ticket>)
    requires Growing(a + b)
    ensures Growing(a)
  {
    assert forall i :: 0 <= i < |a| ==> (a + b)[i] == a[i];
  }

  lemma SameVersionSameTicket(history: seq<Ticket>, i: nat, j: nat)
    requires Growing(history) && i < |history| && j < |history| && history[i].version == history[j].version
    ensures i == j
  {
  }

  // ----- What is never persisted -----

  /** The engine persists this request on that ticket. */
  ghost predicate Admits(spec: Spec, request: Request, first: Ticket, ticket: Ticket) {
    Decide(spec, request, first, ticket).Submit?
  }

  /** A later value of the same ticket, or the same one. */
  ghost predicate Later(first: Ticket, ticket: Ticket) {
    ticket == first || first.version < ticket.version
  }

  /** No table lets a reserved trigger through. */
  lemma ReservedNeverPersisted(spec: Spec, request: Request, first: Ticket, ticket: Ticket)
    requires Admits(spec, request, first, ticket)
    ensures !Reserved(request) && ticket.state == request.from && ticket.version == request.version
  {
  }

  /** A request for a version already observed is persisted only on the very ticket the guard read. */
  lemma ObservedVersionPinsTicket(spec: Spec, request: Request, first: Ticket, ticket: Ticket)
    requires Later(first, ticket) && request.version <= first.version && Admits(spec, request, first, ticket)
    ensures ticket == first
    ensures RetriesPause(request) ==> !ProviderState(ticket.resumeState)
  {
  }

  /** The row the typed retry selects returns to the stored state. */
  predicate ReturnsToStored(spec: Spec, request: Request) {
    var row := Select(spec, request.from, request.trigger, Guards(TypedRetry(request)));
    row.Some? && row.value.to in {"$resume_state", "$stored"}
  }

  /** The typed path replaces the ticket its guard read, whose resume state is a provider phase. It hands its target
      to the Store as the resume field, and a row that returns to the stored state reopens exactly that phase. */
  lemma TypedRetryReopensProviderPhase(spec: Spec, request: Request, first: Ticket, ticket: Ticket)
    requires Later(first, ticket) && request.version <= first.version
    requires DecideProviderRetry(spec, request, first, ticket).Submit?
    ensures ticket == first && ProviderState(ticket.resumeState)
    ensures var s := DecideProviderRetry(spec, request, first, ticket).submission;
            && s.resumeState == s.to && s.from == "paused" && s.expectedVersion == first.version
            && (ReturnsToStored(spec, request) ==> s.to == first.resumeState)
  {
    hide Select, RouteOf;
  }

  /** Two requests for one version, each read twice from one growing history: if the version was observed, at most one
      of the two doors persists, whatever the tables. */
  lemma RetryDoorsAreExclusive(history: seq<Ticket>, generic: Request, typed: Request, specs: (Spec, Spec),
                               i: nat, i': nat, j: nat, j': nat)
    requires Growing(history) && i <= i' < |history| && j <= j' < |history|
    requires RetriesPause(generic) && generic.version == typed.version
    requires generic.version <= history[i].version && typed.version <= history[j].version
    ensures !(Decide(specs.0, generic, history[i], history[i']).Submit?
              && DecideProviderRetry(specs.1, typed, history[j], history[j']).Submit?)
  {
    hide Reserved, ProviderState, RetriesPause, Select, RouteOf;
    var a := Decide(specs.0, generic, history[i], history[i']);
    var b := DecideProviderRetry(specs.1, typed, history[j], history[j']);
    if a.Submit? {
      ObservedPosition(history, generic.version, i, i');
      PreparedFor(specs.0, generic, history[i'], false);
    }
    if b.Submit? {
      ObservedPosition(history, typed.version, j, j');
      PreparedFor(specs.1, TypedRetry(typed), history[j'], true);
    }
    ObservedOnce(history, generic.version, i, j);
  }

  /** Not earlier than a version already observed, only the observed value itself can have it. */
  lemma ObservedPosition(history: seq<Ticket>, version: nat, i: nat, i': nat)
    requires Growing(history) && i <= i' < |history| && version <= history[i].version
    ensures history[i'].version == version ==> i' == i
  {
  }

  lemma ObservedOnce(history: seq<Ticket>, version: nat, i: nat, j: nat)
    requires Growing(history) && i < |history| && j < |history|
    ensures history[i].version == version == history[j].version ==> i == j
  {
  }

  /** What the Store's generic persistence refuses of a paused retry on its own: the provider phases but for review. */
  predicate StoreRefuses(s: Submission) {
    && s.route == Persist && s.from == "paused" && s.trigger == "operator_retry"
    && ProviderState(s.to) && s.to != "reviewing"
  }

  /** Some table and some interleaving bring this retry past the engine's guard and the Store's own refusal, on a ticket
      whose resume state is a provider phase. */
  ghost predicate CanSlip(request: Request, first: Ticket) {
    exists spec, ticket :: SlipsOn(spec, request, first, ticket)
  }

  ghost predicate SlipsOn(spec: Spec, request: Request, first: Ticket, ticket: Ticket) {
    && Later(first, ticket) && Admits(spec, request, first, ticket) && ProviderState(ticket.resumeState)
    && !StoreRefuses(Decide(spec, request, first, ticket).submission)
  }

  /** The guard on the first read is exact: it fails only for a version nobody has observed yet. */
  lemma SlipsExactlyForFutureVersions(request: Request, first: Ticket)
    requires RetriesPause(request)
    ensures CanSlip(request, first) <==> !ProviderState(first.resumeState) && request.version > first.version
  {
    if CanSlip(request, first) {
      var spec, ticket :| SlipsOn(spec, request, first, ticket);
      if request.version <= first.version {
        ObservedVersionPinsTicket(spec, request, first, ticket);
      }
    }
    if !ProviderState(first.resumeState) && request.version > first.version {
      var spec, ticket := RetryTable(), Ticket(request.version, "paused", "reviewing");
      RetryTableReturns(request, ticket);
      assert SlipsOn(spec, request, first, ticket);
    }
  }

  /** A table with the one row that returns a paused ticket to its stored state. */
  function RetryTable(): Spec {
    Spec([Row("retry", ["paused"], "operator_retry", [], "$resume_state", "", "", [])], map[])
  }

  lemma RetryTableReturns(request: Request, ticket: Ticket)
    requires RetriesPause(request) && ticket.state == "paused" && ticket.version == request.version
    requires ticket.resumeState in STATES
    ensures Prepare(RetryTable(), request, ticket, false).Submit?
    ensures Prepare(RetryTable(), request, ticket, false).submission.to == ticket.resumeState
  {
    var rows := RetryTable().transitions;
    assert rows[1..] == [];
    assert Matching(rows, "paused", "operator_retry", Guards(request)) == [rows[0]];
  }

  /** Of the retries that slip past the guard back into their provider phase by generic persistence, the Store lets
      only review through. */
  lemma StoreStopsOtherPhases(spec: Spec, request: Request, first: Ticket, ticket: Ticket)
    requires RetriesPause(request) && SlipsOn(spec, request, first, ticket)
    requires Decide(spec, request, first, ticket).submission.to == ticket.resumeState
    requires Decide(spec, request, first, ticket).submission.route == Persist
    ensures ticket.resumeState == "reviewing"
  {
    PreparedFor(spec, request, ticket, false);
  }

  // ----- Which row is taken -----

  /** The row is for this request: its trigger, its source among the row's, and every guard an attribute that
      is "true". */
  ghost predicate Fits(row: Row, request: Request) {
    && row.trigger == request.trigger && request.from in row.from
    && forall g :: 0 <= g < |row.guards| ==>
         row.guards[g] in request.attributes && request.attributes[row.guards[g]] == "true"
  }

  /** Exactly one row of the table fits, and it is row k. */
  ghost predicate FitsOnly(spec: Spec, request: Request, k: nat) {
    && k < |spec.transitions| && Fits(spec.transitions[k], request)
    && forall j :: 0 <= j < |spec.transitions| && Fits(spec.transitions[j], request) ==> j == k
  }

  lemma FitsMatches(row: Row, request: Request)
    ensures Fits(row, request) <==> Matches(row, request.from, request.trigger, Guards(request))
  {
    if Fits(row, request) {
      forall guard | guard in row.guards ensures guard in Guards(request) {
        var g :| 0 <= g < |row.guards| && row.guards[g] == guard;
      }
    }
    if Matches(row, request.from, request.trigger, Guards(request)) {
      forall g | 0 <= g < |row.guards|
        ensures row.guards[g] in request.attributes && request.attributes[row.guards[g]] == "true"
      {
        assert row.guards[g] in Guards(request);
      }
    }
  }

  lemma {:induction false} MatchingNone(rows: seq<Row>, request: Request)
    requires forall j :: 0 <= j < |rows| ==> !Fits(rows[j], request)
    ensures Matching(rows, request.from, request.trigger, Guards(request)) == []
  {
    if rows != [] {
      FitsMatches(rows[0], request);
      MatchingNone(rows[1..], request);
    }
  }

  lemma {:induction false} MatchingOne(rows: seq<Row>, request: Request, k: nat)
    requires k < |rows| && Fits(rows[k], request) && forall j :: 0 <= j < |rows| && j != k ==> !Fits(rows[j], request)
    ensures Matching(rows, request.from, request.trigger, Guards(request)) == [rows[k]]
  {
    FitsMatches(rows[0], request);
    if k == 0 {
      MatchingNone(rows[1..], request);
    } else {
      MatchingOne(rows[1..], request, k - 1);
    }
  }

  lemma {:induction false} MatchingSome(rows: seq<Row>, request: Request, k: nat)
    requires k < |rows| && Fits(rows[k], request)
    ensures Matching(rows, request.from, request.trigger, Guards(request)) != []
  {
    FitsMatches(rows[0], request);
    if k > 0 {
      MatchingSome(rows[1..], request, k - 1);
    }
  }

  lemma {:induction false} MatchingTwo(rows: seq<Row>, request: Request, i: nat, j: nat)
    requires i < j < |rows| && Fits(rows[i], request) && Fits(rows[j], request)
    ensures |Matching(rows, request.from, request.trigger, Guards(request))| >= 2
  {
    FitsMatches(rows[0], request);
    if i == 0 {
      MatchingSome(rows[1..], request, j - 1);
    } else {
      MatchingTwo(rows[1..], request, i - 1, j - 1);
    }
  }

  /** The table decides exactly when one row fits. */
  lemma SelectsTheOnlyRow(spec: Spec, request: Request)
    ensures var row := Select(spec, request.from, request.trigger, Guards(request));
            && (row.Some? <==> exists k: nat :: FitsOnly(spec, request, k))
            && forall k: nat :: FitsOnly(spec, request, k) ==> row == Some(spec.transitions[k])
  {
    hide Matching, Fits, Guards;
    var rows := spec.transitions;
    forall k: nat | FitsOnly(spec, request, k)
      ensures Select(spec, request.from, request.trigger, Guards(request)) == Some(rows[k])
    {
      MatchingOne(rows, request, k);
    }
    if !exists k: nat :: FitsOnly(spec, request, k) {
      if forall j :: 0 <= j < |rows| ==> !Fits(rows[j], request) {
        MatchingNone(rows, request);
      } else {
        var i :| 0 <= i < |rows| && Fits(rows[i], request);
        assert !FitsOnly(spec, request, i);
        var j :| 0 <= j < |rows| && Fits(rows[j], request) && j != i;
        if i < j {
          MatchingTwo(rows, request, i, j);
        } else {
          MatchingTwo(rows, request, j, i);
        }
      }
    }
  }

  /** Where a row leads: the source, the stored state, or the state it names. */
  function Target(row: Row, request: Request, ticket: Ticket): string {
    if row.to == "$same" || row.to == "$from" then request.from
    else if row.to == "$resume_state" || row.to == "$stored" then ticket.resumeState
    else row.to
  }

  /** What the ticket remembers for a later resume. */
  function Remembers(row: Row, request: Request, ticket: Ticket): string {
    if row.resumeState == "$from" then request.from
    else if row.resumeState == "$resume_state" || row.resumeState == "$stored" then ticket.resumeState
    else row.resumeState
  }

  /** Everything about a submitted request: it is unreserved, exactly one row fits it, the second read is the ticket it
      names, and it carries that row's target and memory. */
  lemma SubmittedExactly(spec: Spec, request: Request, first: Ticket, second: Ticket)
    ensures Decide(spec, request, first, second).Submit? <==>
              && !Reserved(request) && !(RetriesPause(request) && ProviderState(first.resumeState))
              && second.state == request.from && second.version == request.version
              && exists k: nat :: FitsOnly(spec, request, k) && Target(spec.transitions[k], request, second) in STATES
    ensures forall k: nat :: Decide(spec, request, first, second).Submit? && FitsOnly(spec, request, k) ==>
              var s, row := Decide(spec, request, first, second).submission, spec.transitions[k];
              && s.to == Target(row, request, second) && s.resumeState == Remembers(row, request, second)
              && s.from == request.from && s.trigger == request.trigger && s.expectedVersion == request.version
              && s.route == RouteOf(row, s.from, s.to, s.trigger)
  {
    hide Reserved, RetriesPause, ProviderState, Select, FitsOnly, Guards, RouteOf, STATES;
    SelectsTheOnlyRow(spec, request);
  }

  ghost predicate NoneFits(spec: Spec, request: Request) {
    forall j :: 0 <= j < |spec.transitions| ==> !Fits(spec.transitions[j], request)
  }

  ghost predicate TwoFit(spec: Spec, request: Request) {
    exists i, j :: 0 <= i < j < |spec.transitions| && Fits(spec.transitions[i], request)
      && Fits(spec.transitions[j], request)
  }

  /** With no fitting row an unreserved request has no transition, and with several it is ambiguous. */
  lemma NoTransitionExactly(spec: Spec, request: Request, first: Ticket, second: Ticket)
    requires !Reserved(request) && !(RetriesPause(request) && ProviderState(first.resumeState))
    ensures Decide(spec, request, first, second) == Refuse(NoTransition) <==> NoneFits(spec, request)
    ensures Decide(spec, request, first, second) == Refuse(AmbiguousTransition) <==> TwoFit(spec, request)
  {
    hide Reserved, RetriesPause, ProviderState, Fits, Guards, RouteOf, STATES, Matching;
    var rows := spec.transitions;
    SelectsTheOnlyRow(spec, request);
    if NoneFits(spec, request) {
      MatchingNone(rows, request);
    } else {
      var i :| 0 <= i < |rows| && Fits(rows[i], request);
      MatchingSome(rows, request, i);
      if FitsOnly(spec, request, i) {
        assert !TwoFit(spec, request);
      } else {
        var j :| 0 <= j < |rows| && Fits(rows[j], request) && j != i;
        assert TwoFit(spec, request) by {
          assert if i < j then 0 <= i < j < |rows| else 0 <= j < i < |rows|;
        }
      }
    }
  }

  /** With one fitting row, another state or version is a stale fence, and a target that is no workflow state is
      unknown. */
  lemma StaleOrUnknownExactly(spec: Spec, request: Request, first: Ticket, second: Ticket, k: nat)
    requires !Reserved(request) && !(RetriesPause(request) && ProviderState(first.resumeState))
    requires FitsOnly(spec, request, k)
    ensures Decide(spec, request, first, second) == Refuse(StaleFence) <==>
              second.state != request.from || second.version != request.version
    ensures Decide(spec, request, first, second) == Refuse(UnknownTarget) <==>
              && second.state == request.from && second.version == request.version
              && Target(spec.transitions[k], request, second) !in
                   {"queued", "planning", "verifying", "building", "reviewing", "publishing", "waiting_ci",
                    "waiting_approval", "waiting_manual_merge", "merging", "reconciling", "stopping", "cancelling",
                    "paused", "blocked", "done", "cancelled", "external_merged"}
  {
    hide Reserved, RetriesPause, ProviderState, Select, FitsOnly, Guards, RouteOf;
    SelectsTheOnlyRow(spec, request);
  }

  /** The Store entry points for resumed effects, by source, target and trigger. */
  const ENTRY_POINTS: map<(string, string, string), Route> :=
    map[("paused", "publishing", "operator_resume") := PublishedResume,
        ("paused", "publishing", "operator_retry") := PublishedResume,
        ("paused", "waiting_ci", "operator_resume") := PublishedResume,
        ("paused", "waiting_ci", "operator_retry") := PublishedResume,
        ("blocked", "publishing", "operator_recover") := PublishedResume,
        ("blocked", "waiting_ci", "operator_recover") := PublishedResume,
        ("paused", "merging", "operator_resume") := GuardedMergeResume,
        ("paused", "merging", "operator_retry") := GuardedMergeResume,
        ("paused", "reconciling", "operator_resume") := ReconcileResume,
        ("paused", "reconciling", "operator_retry") := ReconcileResume,
        ("merging", "reconciling", "merge_observed") := MergeObserved]

  ghost predicate Invalidating(row: Row) {
    exists rest :: row.phaseDisposition == "invalidate_runner_epoch" + rest
  }

  /** A row that ends control or invalidates the runner has its own entry point, whatever it leads to; any other has the
      one of its source, target and trigger, and is persisted plainly when there is none. */
  lemma RoutesExactly(row: Row, from: string, to: string, trigger: string)
    ensures RouteOf(row, from, to, trigger) ==
              if row.id in {"stopped", "cancelled"} then CompleteControl
              else if Invalidating(row) then InvalidateRunner
              else if (from, to, trigger) in ENTRY_POINTS then ENTRY_POINTS[(from, to, trigger)] else Persist
  {
    if StartsWith(row.phaseDisposition, "invalidate_runner_epoch") {
      var n := |"invalidate_runner_epoch"|;
      assert row.phaseDisposition == "invalidate_runner_epoch" + row.phaseDisposition[n..];
    }
  }

  /** A row the typed provider retry may take: only the four guards it vouches for. */
  ghost predicate RetryRow(row: Row) {
    && row.trigger == "operator_retry" && "paused" in row.from
    && forall g :: 0 <= g < |row.guards| ==>
         row.guards[g] in {"operator_identity_authenticated", "pause_reason_retryable",
                           "typed_prerequisites_satisfied", "runner_epoch_current"}
  }

  ghost predicate OnlyRetryRow(spec: Spec, k: nat) {
    && k < |spec.transitions| && RetryRow(spec.transitions[k])
    && forall j :: 0 <= j < |spec.transitions| && RetryRow(spec.transitions[j]) ==> j == k
  }

  lemma RetryRowFits(row: Row, request: Request)
    requires RetriesPause(request)
    ensures RetryRow(row) <==> Fits(row, TypedRetry(request))
  {
  }

  /** The typed retry is submitted exactly for a paused provider phase, at the named version, with one row for it; what
      the caller claims for itself does not matter. */
  lemma ProviderRetryExactly(spec: Spec, request: Request, first: Ticket, second: Ticket)
    ensures DecideProviderRetry(spec, request, first, second).Submit? <==>
              && request.from == "paused" && request.trigger == "operator_retry"
              && first.resumeState in {"planning", "verifying", "building", "reviewing"}
              && second.state == "paused" && second.version == request.version
              && exists k: nat :: OnlyRetryRow(spec, k) && Target(spec.transitions[k], request, second) in STATES
    ensures forall k: nat :: DecideProviderRetry(spec, request, first, second).Submit? && OnlyRetryRow(spec, k) ==>
              var s := DecideProviderRetry(spec, request, first, second).submission;
              s.to == s.resumeState == Target(spec.transitions[k], request, second)
  {
    hide Select, Guards, RouteOf, STATES, Fits, RetryRow;
    if RetriesPause(request) {
      SelectsTheOnlyRow(spec, TypedRetry(request));
      forall j | 0 <= j < |spec.transitions|
        ensures RetryRow(spec.transitions[j]) <==> Fits(spec.transitions[j], TypedRetry(request))
      {
        RetryRowFits(spec.transitions[j], request);
      }
      assert forall k: nat :: OnlyRetryRow(spec, k) <==> FitsOnly(spec, TypedRetry(request), k);
    }
  }

  predicate TrueAttribute(request: Request, name: string) {
    name in request.attributes && request.attributes[name] == "true"
  }

  /** What the generic door reserves for typed paths, case by case, and nothing else. */
  predicate TypedOnly(request: Request, first: Ticket) {
    || request.trigger in {"postbuild_repair", "external_merge_observed", "verification_amendment_requested",
                           "amendment_accepted", "amendment_rejected", "review_repair"}
    || (request.trigger == "phase_pass" && request.from in {"planning", "verifying", "building"})
    || (request.trigger == "retry_or_correction_exhausted"
        && request.from in {"planning", "verifying", "building", "reviewing"})
    || (request.trigger == "operator_resume" && request.from == "paused"
        && (|| TrueAttribute(request, "takeover_source_commit_valid")
            || TrueAttribute(request, "takeover_source_diff_valid")
            || TrueAttribute(request, "verification_files_unchanged")
            || request.changeKind == Some("source_commit") || request.changeKind == Some("source_changes")))
    || (request.trigger == "operator_retry" && request.from == "paused"
        && first.resumeState in {"planning", "verifying", "building", "reviewing"})
  }

  /** For every table and whatever the second read is, exactly those are refused as reserved. */
  lemma ReservedExactly(spec: Spec, request: Request, first: Ticket, second: Ticket)
    ensures Decide(spec, request, first, second) == Refuse(EvidenceConflict) <==> TypedOnly(request, first)
  {
    hide Select, RouteOf, STATES;
  }

  // ----- What the persisted fields mean -----

  /** The ticket a submission leaves behind. */
  function Written(s: Submission): Ticket {
    Ticket(s.expectedVersion + 1, s.to, s.resumeState)
  }

  /** A pause that remembers where it came from, followed by a resume to the remembered state, returns there. */
  lemma PauseThenResumeReturns(spec: Spec, pause: Request, resume: Request, ticket: Ticket)
    requires Decide(spec, pause, ticket, ticket).Submit?
    requires Select(spec, pause.from, pause.trigger, Guards(pause)).value.resumeState == "$from"
    requires var paused := Written(Decide(spec, pause, ticket, ticket).submission);
             Decide(spec, resume, paused, paused).Submit?
    requires Select(spec, resume.from, resume.trigger, Guards(resume)).Some?
             && Select(spec, resume.from, resume.trigger, Guards(resume)).value.to == "$resume_state"
    ensures var paused := Written(Decide(spec, pause, ticket, ticket).submission);
            var resumed := Written(Decide(spec, resume, paused, paused).submission);
            resumed.state == ticket.state && resumed.version == ticket.version + 2
  {
    hide Reserved, RetriesPause, Select, RouteOf;
    PreparedFor(spec, pause, ticket, false);
    var paused := Written(Decide(spec, pause, ticket, ticket).submission);
    PreparedFor(spec, resume, paused, false);
  }

  /** The selected row neither completes a control request nor invalidates the runner. */
  predicate PlainRow(spec: Spec, request: Request) {
    var row := Select(spec, request.from, request.trigger, Guards(request));
    && row.Some? && row.value.id !in {"stopped", "cancelled"}
    && !StartsWith(row.value.phaseDisposition, "invalidate_runner_epoch")
  }

  /** An operator who resumes or retries a pause reaches an effect-bearing phase through that phase's own Store path,
      and plain persistence is left for exactly the other phases. */
  lemma ResumedEffectsAreTyped(spec: Spec, request: Request, first: Ticket, second: Ticket)
    requires Decide(spec, request, first, second).Submit? && PlainRow(spec, request)
    requires request.from == "paused" && (request.trigger == "operator_resume" || request.trigger == "operator_retry")
    ensures var s := Decide(spec, request, first, second).submission;
            && (s.route == PublishedResume <==> s.to in {"publishing", "waiting_ci"})
            && (s.route == GuardedMergeResume <==> s.to == "merging")
            && (s.route == ReconcileResume <==> s.to == "reconciling")
            && (s.route == Persist <==> s.to !in {"publishing", "waiting_ci", "merging", "reconciling"})
  {
    hide Reserved, RetriesPause, Select, StartsWith;
  }

  // ----- Whole runs -----

  /** One call of the generic door with the writers around it. */
  datatype Call = Call(request: Request, between: seq<Ticket>, after: seq<Ticket>, admitted: bool)

  /** What may stand in the record of a run: no request of a typed path, and no retry into a provider phase. */
  predicate Harmless(entry: Entry) {
    && !Reserved(entry.request)
    && (RetriesPause(entry.request) ==> !ProviderState(entry.replaced.resumeState))
    && entry.submission.trigger == entry.request.trigger
    && entry.replaced.state == entry.submission.from == entry.request.from
    && entry.replaced.version == entry.submission.expectedVersion == entry.request.version
  }

  ghost predicate AllHarmless(persisted: seq<Entry>) {
    forall k :: 0 <= k < |persisted| ==> Harmless(persisted[k])
  }

  lemma PersistedIsHarmless(spec: Spec, request: Request, first: Ticket, ticket: Ticket)
    requires Later(first, ticket) && request.version <= first.version && Admits(spec, request, first, ticket)
    ensures Harmless(Entry(request, Decide(spec, request, first, ticket).submission, ticket))
  {
    ReservedNeverPersisted(spec, request, first, ticket);
    ObservedVersionPinsTicket(spec, request, first, ticket);
    PreparedFor(spec, request, ticket, false);
  }

  /** Any number of calls, each with a version already observed, among writers that only grow versions: the record
      stays harmless. */
  method Serve(store: TicketStore, spec: Spec, calls: seq<Call>)
    requires store.Valid() && AllHarmless(store.persisted)
    modifies store
    ensures store.Valid() && AllHarmless(store.persisted)
    ensures old(store.persisted) <= store.persisted
  {
    hide Harmless, Reserved, RetriesPause, ProviderState, Decide;
    for n := 0 to |calls|
      invariant store.Valid() && AllHarmless(store.persisted)
      invariant old(store.persisted) <= store.persisted
    {
      var c := calls[n];
      if Growing(store.history + c.between + c.after) && c.request.version <= store.Current().version {
        ghost var before, first := store.persisted, store.Current();
        var decision, ok := Transition(store, spec, c.request, c.between, c.after, c.admitted);
        if ok {
          ghost var entry := store.persisted[|before|];
          PersistedIsHarmless(spec, c.request, first, entry.replaced);
          assert store.persisted == before + [entry];
        } else {
          assert store.persisted == before;
        }
      }
    }
  }

  // ----- Invalidated gates -----

  /** The values named by a list of invalidation sets; an unknown name stands for itself. */
  function Expand(spec: Spec, sets: seq<string>): seq<string> {
    if sets == [] then []
    else Expand(spec, sets[..|sets| - 1]) + ValuesOf(spec, sets[|sets| - 1])
  }

  function ValuesOf(spec: Spec, name: string): seq<string> {
    if name in spec.invalidationSets then spec.invalidationSets[name] else [name]
  }

  /** Keep first occurrences. */
  function Dedup(values: seq<string>): seq<string> {
    if values == [] then []
    else
      var front, last := Dedup(values[..|values| - 1]), values[|values| - 1];
      if last in front then front else front + [last]
  }

  lemma {:induction false} DedupSpec(values: seq<string>)
    ensures forall i, j :: 0 <= i < j < |Dedup(values)| ==> Dedup(values)[i] != Dedup(values)[j]
    ensures forall v :: v in Dedup(values) <==> v in values
  {
    if values == [] {
    } else {
      DedupSpec(values[..|values| - 1]);
      assert values == values[..|values| - 1] + [values[|values| - 1]];
    }
  }

  lemma DedupNext(values: seq<string>, v: string)
    ensures Dedup(values + [v]) == if v in Dedup(values) then Dedup(values) else Dedup(values) + [v]
  {
    assert (values + [v])[..|values|] == values;
  }

  /** The inner loop: the values of one set, with the source's `seen` map as a set. */
  method AppendNew(values: seq<string>, ghost before: seq<string>, start: seq<string>, known: set<string>)
    returns (result: seq<string>, seen: set<string>)
    requires start == Dedup(before) && forall v :: v in known <==> v in start
    ensures result == Dedup(before + values)
    ensures forall v :: v in seen <==> v in result
  {
    hide Dedup;
    result, seen := start, known;
    assert before + values[..0] == before;
    for k := 0 to |values|
      invariant result == Dedup(before + values[..k])
      invariant forall v :: v in seen <==> v in result
    {
      ghost var done := before + values[..k];
      assert before + values[..k + 1] == done + [values[k]];
      DedupNext(done, values[k]);
      if values[k] !in seen {
        seen := seen + {values[k]};
        result := result + [values[k]];
      }
    }
    assert values[..|values|] == values;
  }

  /** What a transition reports as invalidated: every value of the named sets, once, in first-seen order. */
  method Invalidations(spec: Spec, sets: seq<string>) returns (result: seq<string>)
    ensures result == Dedup(Expand(spec, sets))
  {
    var seen: set<string> := {};
    result := [];
    for n := 0 to |sets|
      invariant result == Dedup(Expand(spec, sets[..n]))
      invariant forall v :: v in seen <==> v in result
    {
      assert sets[..n + 1][..n] == sets[..n];
      result, seen := AppendNew(ValuesOf(spec, sets[n]), Expand(spec, sets[..n]), result, seen);
    }
    assert sets[..|sets|] == sets;
  }
}
