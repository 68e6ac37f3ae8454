/** Every interleaving of the authoring requests, workers, timers and shutdown of
    internal/daemon/authoring.go, one lock-held region or one unlocked effect at a time. */
module AuthoringProtocol {
  import opened Authoring

  const TTL: nat := 1800

  /** Where a create request stands between its locked regions. */
  datatype Creator = Preparing | Saving | Saved(id: string) | Leaving

  /** Where a worker goroutine stands. A worker whose finish is not recorded is Unrecorded until it has
      quarantined the daemon; an Unwinding one removes its entry; a Gone one has only its wait-group count left. */
  datatype Phase = Running | Unrecorded | Unwinding | Gone
  datatype Worker = Worker(session: string, key: string, phase: Phase)

  /** `timers` remembers every published session's expiry, `fired` the timers that ran, `issued` the ids the
      Store has saved. `started` counts workers ever started, `lost` records that some finish was not recorded,
      `closed` that close has returned without error. */
  datatype State = State(d: Shared, creators: map<nat, Creator>, workers: map<nat, Worker>, now: nat,
                         timers: map<string, int>, fired: set<string>, issued: set<string>,
                         started: nat, lost: bool, closed: bool)

  function Start(quarantined: bool): State {
    State(Shared(map[], map[], 0, quarantined, false), map[], map[], 0, map[], {}, {}, 0, false, false)
  }

  datatype Step =
    | Tick
    | CreateBegin(c: nat, supervised: bool)
    | CreateRecheck(c: nat, cancelled: bool)
    | CreateFail(c: nat)
    | CreateSave(c: nat, id: string)
    | CreatePublish(c: nat, digest: string)
    | CreateEnd(c: nat)
    | Turn(w: nat, request: TurnRequest)
    | Cancel(session: string, key: string)
    | Finish(w: nat, recorded: bool)
    | Quarantine(w: nat)
    | Exit(w: nat)
    | Done(w: nat)
    | Fire(id: string)
    | CloseBegin
    | CloseReturn

  /** When a step can happen. */
  predicate Enabled(s: State, step: Step) {
    match step
    case Tick => true
    case CreateBegin(c, supervised) => c !in s.creators && MayCreate(s.d, supervised)
    case CreateRecheck(c, _) => c in s.creators && s.creators[c].Preparing?
    case CreateFail(c) => c in s.creators && (s.creators[c].Preparing? || s.creators[c].Saving?)
    case CreateSave(c, id) => c in s.creators && s.creators[c].Saving? && AuthoringId(id) && id !in s.issued
    case CreatePublish(c, _) => c in s.creators && s.creators[c].Saved?
    case CreateEnd(c) => c in s.creators && s.creators[c].Leaving? && s.d.creating > 0
    case Turn(w, request) => w !in s.workers && MayStart(s.d, request, s.now)
    case Cancel(_, _) => true
    case Finish(w, _) => w in s.workers && s.workers[w].phase.Running?
    case Quarantine(w) => w in s.workers && s.workers[w].phase.Unrecorded?
    case Exit(w) => w in s.workers && s.workers[w].phase.Unwinding?
    case Done(w) => w in s.workers && s.workers[w].phase.Gone?
    case Fire(id) => id in s.timers && id !in s.fired && s.timers[id] <= s.now
    case CloseBegin => true
    case CloseReturn => s.d.stopping && s.workers == map[]
  }

  /** What it does. */
  function Effect(s: State, step: Step): State
    requires Enabled(s, step)
  {
    match step
    case Tick => s.(now := s.now + 1)
    case CreateBegin(c, _) => s.(d := BeginCreate(s.d), creators := s.creators[c := Preparing])
    case CreateRecheck(c, cancelled) =>
      s.(creators := s.creators[c := if MaySave(s.d, cancelled) then Saving else Leaving])
    case CreateFail(c) => s.(creators := s.creators[c := Leaving])
    case CreateSave(c, id) => s.(creators := s.creators[c := Saved(id)], issued := s.issued + {id})
    case CreatePublish(c, digest) =>
      var id, expires := s.creators[c].id, s.now + TTL;
      s.(d := Publish(s.d, id, Snapshot(expires, digest)), creators := s.creators[c := Leaving],
         timers := s.timers[id := expires])
    case CreateEnd(c) => s.(d := EndCreate(s.d), creators := s.creators - {c})
    case Turn(w, r) => s.(d := StartWorker(s.d, r.session, r.key), started := s.started + 1,
                          workers := s.workers[w := Worker(r.session, r.key, Running)])
    case Cancel(session, key) => s.(d := CancelWorker(s.d, session, key))
    case Finish(w, recorded) =>
      s.(workers := s.workers[w := s.workers[w].(phase := if recorded then Unwinding else Unrecorded)],
         lost := s.lost || !recorded)
    case Quarantine(w) => s.(d := SetQuarantine(s.d), workers := s.workers[w := s.workers[w].(phase := Unwinding)])
    case Exit(w) => s.(d := ExitWorker(s.d, s.workers[w].session, s.workers[w].key, s.now),
                       workers := s.workers[w := s.workers[w].(phase := Gone)])
    case Done(w) => s.(workers := s.workers - {w})
    case Fire(id) => s.(d := FireTimer(s.d, id), fired := s.fired + {id})
    case CloseBegin => s.(d := BeginClose(s.d))
    case CloseReturn => s.(d := FinishClose(s.d), closed := true)
  }

  /** A run is any sequence of steps; one that is not enabled does nothing. */
  function Run(s: State, steps: seq<Step>): State {
    if steps == [] then s
    else
      var before := Run(s, steps[..|steps| - 1]);
      var step := steps[|steps| - 1];
      if Enabled(before, step) then Effect(before, step) else before
  }

  lemma RunNext(s: State, steps: seq<Step>, step: Step)
    ensures Run(s, steps + [step])
            == if Enabled(Run(s, steps), step) then Effect(Run(s, steps), step) else Run(s, steps)
  {
    assert (steps + [step])[..|steps|] == steps;
  }

  // ----- The invariant -----

  ghost predicate Present(s: State, w: nat) {
    w in s.workers && !s.workers[w].phase.Gone?
  }

  /** Worker entries and goroutines agree, and there is at most one of each. */
  ghost predicate OneWorker(s: State) {
    && (forall v, w :: Present(s, v) && Present(s, w) ==> v == w)
    && (forall w :: Present(s, w) ==> s.d.workers.Keys == {WorkerKey(s.workers[w].session, s.workers[w].key)}
                                      && AuthoringId(s.workers[w].session))
    && ((forall w :: !Present(s, w)) ==> s.d.workers == map[])
  }

  /** A lost finish either has quarantined the daemon or its worker is still present. */
  ghost predicate LossGuarded(s: State) {
    s.lost ==> s.d.quarantined || exists w :: Present(s, w) && s.workers[w].phase.Unrecorded?
  }

  /** Create requests that may still publish. */
  ghost function Unpublished(s: State): set<nat> {
    set c | c in s.creators && !s.creators[c].Leaving?
  }

  ghost predicate Counted(s: State) {
    && s.d.creating == |s.creators| <= CAPACITY
    && |s.d.sessions| + |Unpublished(s)| <= CAPACITY
  }

  /** Saved but unpublished sessions have ids of their own, which the Store issued and no timer knows. */
  ghost predicate SavedIds(creators: map<nat, Creator>, issued: set<string>, timers: map<string, int>) {
    && (forall c :: c in creators && creators[c].Saved? ==> creators[c].id in issued && creators[c].id !in timers)
    && (forall b, c :: b in creators && c in creators && creators[b].Saved? && creators[b] == creators[c] ==> b == c)
  }

  /** Sessions, timers and Store ids agree, and a session whose timer fired is still in use. */
  ghost predicate Timed(s: State) {
    && s.timers.Keys <= s.issued
    && s.fired <= s.timers.Keys
    && (forall id :: id in s.issued ==> AuthoringId(id))
    && (forall id :: id in s.d.sessions ==> id in s.timers && s.d.sessions[id].expires == s.timers[id])
    && (forall id :: id in s.fired ==> s.timers[id] <= s.now)
    && SavedIds(s.creators, s.issued, s.timers)
    && (forall id :: id in s.fired && id in s.d.sessions ==> SessionActive(s.d, id))
  }

  ghost predicate Closed(s: State) {
    s.closed ==> s.d.stopping && s.workers == map[]
  }

  ghost predicate Inv(s: State) {
    OneWorker(s) && LossGuarded(s) && Counted(s) && Timed(s) && Closed(s)
  }

  lemma StartInv(quarantined: bool)
    ensures Inv(Start(quarantined))
  {
    assert Unpublished(Start(quarantined)) == {};
  }

  // ----- Each part is kept by every step -----

  lemma TurnFindsNoWorker(s: State, step: Step)
    requires OneWorker(s) && Enabled(s, step) && step.Turn?
    ensures s.d.workers == map[] && forall w :: !Present(s, w)
  {
    assert s.d.workers == map[];
    assert s.d.workers.Keys == {};
  }

  /** A step that leaves the workers alone. */
  lemma OneWorkerFrame(s: State, t: State)
    requires OneWorker(s) && t.workers == s.workers && t.d.workers.Keys == s.d.workers.Keys
    ensures OneWorker(t)
  {
    assert forall v :: Present(t, v) <==> Present(s, v);
    assert s.d.workers == map[] ==> t.d.workers.Keys == {};
  }

  lemma OneWorkerTurn(s: State, w: nat, r: TurnRequest)
    requires OneWorker(s) && Enabled(s, Turn(w, r))
    ensures OneWorker(Effect(s, Turn(w, r)))
  {
    var t := Effect(s, Turn(w, r));
    TurnFindsNoWorker(s, Turn(w, r));
    assert forall v :: Present(t, v) ==> v == w || Present(s, v);
    assert Present(t, w);
    assert t.d.workers.Keys == {WorkerKey(r.session, r.key)};
  }

  /** A present worker stays present. */
  lemma OneWorkerStays(s: State, t: State, w: nat, phase: Phase)
    requires OneWorker(s) && Present(s, w) && !phase.Gone?
    requires t.workers == s.workers[w := s.workers[w].(phase := phase)] && t.d.workers == s.d.workers
    ensures OneWorker(t)
  {
    assert forall v :: Present(t, v) <==> Present(s, v);
  }

  lemma OneWorkerExit(s: State, w: nat)
    requires OneWorker(s) && Enabled(s, Exit(w))
    ensures OneWorker(Effect(s, Exit(w)))
  {
    var t := Effect(s, Exit(w));
    assert Present(s, w);
    assert forall v :: Present(t, v) ==> Present(s, v) && v != w;
    assert t.d.workers.Keys == {};
  }

  lemma OneWorkerDone(s: State, w: nat)
    requires OneWorker(s) && Enabled(s, Done(w))
    ensures OneWorker(Effect(s, Done(w)))
  {
    assert forall v :: Present(Effect(s, Done(w)), v) <==> Present(s, v);
  }

  lemma OneWorkerKept(s: State, step: Step)
    requires OneWorker(s) && Enabled(s, step)
    ensures OneWorker(Effect(s, step))
  {
    hide OneWorker;
    var t := Effect(s, step);
    match step
    case Turn(w, r) => OneWorkerTurn(s, w, r);
    case Finish(w, recorded) => OneWorkerStays(s, t, w, if recorded then Unwinding else Unrecorded);
    case Quarantine(w) => OneWorkerStays(s, t, w, Unwinding);
    case Exit(w) => OneWorkerExit(s, w);
    case Done(w) => OneWorkerDone(s, w);
    case CloseBegin =>
      assert t.d.workers.Keys == s.d.workers.Keys;
      OneWorkerFrame(s, t);
    case Cancel(_, _) =>
      assert t.d.workers.Keys == s.d.workers.Keys;
      OneWorkerFrame(s, t);
    case _ => OneWorkerFrame(s, t);
  }

  lemma LossGuardedKept(s: State, step: Step)
    requires OneWorker(s) && LossGuarded(s) && Enabled(s, step)
    ensures LossGuarded(Effect(s, step))
  {
    var t := Effect(s, step);
    if step.Turn? {
      TurnFindsNoWorker(s, step);
    } else if step.Finish? && !step.recorded {
      assert Present(t, step.w) && t.workers[step.w].phase.Unrecorded?;
    } else if w :| Present(s, w) && s.workers[w].phase.Unrecorded? {
      assert t.d.quarantined || (Present(t, w) && t.workers[w].phase.Unrecorded?);
    }
  }

  /** A create request moves to another point. */
  lemma CreatorMoves(s: State, t: State, c: nat, creator: Creator)
    requires c in s.creators && !s.creators[c].Leaving? && t.creators == s.creators[c := creator]
    ensures |t.creators| == |s.creators|
    ensures |Unpublished(t)| == |Unpublished(s)| - (if creator.Leaving? then 1 else 0)
  {
    assert t.creators.Keys == s.creators.Keys;
    assert |t.creators| == |t.creators.Keys| && |s.creators| == |s.creators.Keys|;
    assert c in Unpublished(s);
    assert Unpublished(t) == if creator.Leaving? then Unpublished(s) - {c} else Unpublished(s);
  }

  lemma UnpublishedEnters(s: State, t: State, c: nat)
    requires c !in s.creators && t.creators == s.creators[c := Preparing]
    ensures Unpublished(t) == Unpublished(s) + {c} && c !in Unpublished(s)
  {
    forall x ensures x in Unpublished(t) <==> x in Unpublished(s) + {c} {
      assert x != c && x in s.creators ==> t.creators[x] == s.creators[x];
    }
  }

  lemma CreatorEnters(s: State, t: State, c: nat)
    requires c !in s.creators && t.creators == s.creators[c := Preparing]
    ensures |t.creators| == |s.creators| + 1 && |Unpublished(t)| == |Unpublished(s)| + 1
  {
    hide Unpublished;
    UnpublishedEnters(s, t, c);
    assert t.creators.Keys == s.creators.Keys + {c};
    assert |t.creators| == |t.creators.Keys| && |s.creators| == |s.creators.Keys|;
  }

  lemma CreatorLeaves(s: State, t: State, c: nat)
    requires c in s.creators && s.creators[c].Leaving? && t.creators == s.creators - {c}
    ensures |t.creators| == |s.creators| - 1 && |Unpublished(t)| == |Unpublished(s)|
  {
    assert t.creators.Keys == s.creators.Keys - {c};
    assert |t.creators| == |t.creators.Keys| && |s.creators| == |s.creators.Keys|;
    assert Unpublished(t) == Unpublished(s);
  }

  lemma OneMoreSession(sessions: map<string, Snapshot>, id: string, snapshot: Snapshot)
    ensures |sessions[id := snapshot]| <= |sessions| + 1
  {
    assert sessions[id := snapshot].Keys == sessions.Keys + {id};
    assert |sessions[id := snapshot]| == |sessions[id := snapshot].Keys| && |sessions| == |sessions.Keys|;
  }

  /** A create request passes its first check. */
  lemma CountedBegin(s: State, c: nat, supervised: bool)
    requires Counted(s) && Enabled(s, CreateBegin(c, supervised))
    ensures Counted(Effect(s, CreateBegin(c, supervised)))
  {
    hide Unpublished;
    CreatorEnters(s, Effect(s, CreateBegin(c, supervised)), c);
    UnpublishedAmongCreators(s);
  }

  /** A create request moves on without touching the sessions. */
  lemma CountedMoves(s: State, t: State, c: nat, creator: Creator)
    requires Counted(s) && c in s.creators && !s.creators[c].Leaving?
    requires t.creators == s.creators[c := creator] && t.d == s.d
    ensures Counted(t)
  {
    hide Unpublished;
    CreatorMoves(s, t, c, creator);
  }

  lemma CountedPublish(s: State, c: nat, digest: string)
    requires Counted(s) && Enabled(s, CreatePublish(c, digest))
    ensures Counted(Effect(s, CreatePublish(c, digest)))
  {
    hide Unpublished;
    CreatorMoves(s, Effect(s, CreatePublish(c, digest)), c, Leaving);
    OneMoreSession(s.d.sessions, s.creators[c].id, Snapshot(s.now + TTL, digest));
  }

  lemma CountedEnd(s: State, c: nat)
    requires Counted(s) && Enabled(s, CreateEnd(c))
    ensures Counted(Effect(s, CreateEnd(c)))
  {
    hide Unpublished;
    CreatorLeaves(s, Effect(s, CreateEnd(c)), c);
  }

  /** A region that leaves the counter alone and adds no session. */
  ghost predicate NoMore(d: Shared, e: Shared) {
    e.creating == d.creating && |e.sessions| <= |d.sessions|
  }

  lemma FireNoMore(d: Shared, id: string)
    ensures NoMore(d, FireTimer(d, id))
  {
    hide SessionActive;
    FewerSessions(d.sessions, id);
  }

  lemma ExitNoMore(d: Shared, session: string, key: string, now: int)
    ensures NoMore(d, ExitWorker(d, session, key, now))
  {
    FewerSessions(d.sessions, session);
  }

  lemma OthersNoMore(d: Shared, session: string, key: string)
    ensures NoMore(d, StartWorker(d, session, key)) && NoMore(d, CancelWorker(d, session, key))
    ensures NoMore(d, SetQuarantine(d)) && NoMore(d, BeginClose(d)) && NoMore(d, FinishClose(d))
  {
  }

  /** Steps that leave create requests alone. */
  lemma CountedFrame(s: State, t: State)
    requires Counted(s) && t.creators == s.creators && NoMore(s.d, t.d)
    ensures Counted(t)
  {
    hide Unpublished;
    SameCreators(s, t);
  }

  /** Steps that remove sessions or touch one worker entry. */
  lemma CountedEntry(s: State, step: Step)
    requires Counted(s) && Enabled(s, step) && (step.Turn? || step.Cancel? || step.Exit? || step.Fire?)
    ensures Counted(Effect(s, step))
  {
    hide Counted, NoMore, MayStart, StartWorker, CancelWorker, ExitWorker, FireTimer;
    var t := Effect(s, step);
    match step
    case Turn(_, r) => OthersNoMore(s.d, r.session, r.key); CountedFrame(s, t);
    case Cancel(session, key) => OthersNoMore(s.d, session, key); CountedFrame(s, t);
    case Exit(w) => ExitNoMore(s.d, s.workers[w].session, s.workers[w].key, s.now); CountedFrame(s, t);
    case Fire(id) => FireNoMore(s.d, id); CountedFrame(s, t);
  }

  /** The clock, the workers' own steps and shutdown. */
  lemma CountedOther(s: State, step: Step)
    requires Counted(s) && Enabled(s, step)
    requires step.Tick? || step.Finish? || step.Quarantine? || step.Done? || step.CloseBegin? || step.CloseReturn?
    ensures Counted(Effect(s, step))
  {
    hide Counted, NoMore, SetQuarantine, BeginClose, FinishClose;
    OthersNoMore(s.d, "", "");
    NoMoreSelf(s.d);
    CountedFrame(s, Effect(s, step));
  }

  lemma NoMoreSelf(d: Shared)
    ensures NoMore(d, d)
  {
  }

  lemma CountedKept(s: State, step: Step)
    requires Counted(s) && Enabled(s, step)
    ensures Counted(Effect(s, step))
  {
    hide Counted;
    match step
    case CreateBegin(c, supervised) => CountedBegin(s, c, supervised);
    case CreateRecheck(c, _) => CountedMoves(s, Effect(s, step), c, Effect(s, step).creators[c]);
    case CreateFail(c) => CountedMoves(s, Effect(s, step), c, Leaving);
    case CreateSave(c, id) => CountedMoves(s, Effect(s, step), c, Saved(id));
    case CreatePublish(c, digest) => CountedPublish(s, c, digest);
    case CreateEnd(c) => CountedEnd(s, c);
    case Turn(_, _) => CountedEntry(s, step);
    case Cancel(_, _) => CountedEntry(s, step);
    case Exit(_) => CountedEntry(s, step);
    case Fire(_) => CountedEntry(s, step);
    case _ => CountedOther(s, step);
  }

  lemma SameCreators(s: State, t: State)
    requires s.creators == t.creators
    ensures Unpublished(s) == Unpublished(t)
  {
  }

  lemma UnpublishedAmongCreators(s: State)
    ensures |Unpublished(s)| <= |s.creators|
  {
    assert Unpublished(s) <= s.creators.Keys;
    SubsetSize(Unpublished(s), s.creators.Keys);
  }

  lemma SubsetSize<T>(a: set<T>, b: set<T>)
    requires a <= b
    ensures |a| <= |b|
  {
    assert b == a + (b - a);
  }

  lemma FewerSessions(sessions: map<string, Snapshot>, id: string)
    ensures |sessions - {id}| <= |sessions|
  {
    assert (sessions - {id}).Keys == sessions.Keys - {id};
    assert |sessions - {id}| == |(sessions - {id}).Keys| && |sessions| == |sessions.Keys|;
    SubsetSize(sessions.Keys - {id}, sessions.Keys);
  }

  /** The active sessions are those of the one present worker. */
  lemma ActiveSession(s: State, w: nat, id: string)
    requires OneWorker(s) && Present(s, w) && AuthoringId(id)
    ensures SessionActive(s.d, id) <==> s.workers[w].session == id
  {
    var worker := s.workers[w];
    AuthoringIdsHaveNoSlash(id);
    AuthoringIdsHaveNoSlash(worker.session);
    PrefixIdentifiesSession(id, worker.session, worker.key);
    assert WorkerKey(worker.session, worker.key) in s.d.workers.Keys;
    assert forall key :: key in s.d.workers ==> key == WorkerKey(worker.session, worker.key);
  }

  /** A worker that leaves takes its expired session with it. */
  lemma ExitKeepsTimed(s: State, w: nat)
    requires OneWorker(s) && Timed(s) && Enabled(s, Exit(w))
    ensures Timed(Effect(s, Exit(w)))
  {
    var t := Effect(s, Exit(w));
    assert Present(s, w);
    forall id | id in s.fired && id in s.d.sessions ensures id !in t.d.sessions {
      ActiveSession(s, w, id);
    }
  }

  /** A create request moves to a point without a saved id. */
  lemma SavedMoves(creators: map<nat, Creator>, c: nat, creator: Creator, issued: set<string>, timers: map<string, int>)
    requires SavedIds(creators, issued, timers) && !creator.Saved?
    ensures SavedIds(creators[c := creator], issued, timers)
  {
  }

  lemma SavedEnds(creators: map<nat, Creator>, c: nat, issued: set<string>, timers: map<string, int>)
    requires SavedIds(creators, issued, timers)
    ensures SavedIds(creators - {c}, issued, timers)
  {
  }

  lemma SavedNew(creators: map<nat, Creator>, c: nat, id: string, issued: set<string>, timers: map<string, int>)
    requires SavedIds(creators, issued, timers) && id !in issued && timers.Keys <= issued
    ensures SavedIds(creators[c := Saved(id)], issued + {id}, timers)
  {
    assert forall b :: b in creators && creators[b].Saved? ==> creators[b].id != id;
  }

  lemma SavedPublished(creators: map<nat, Creator>, c: nat, issued: set<string>, timers: map<string, int>, expires: int)
    requires SavedIds(creators, issued, timers) && c in creators && creators[c].Saved?
    ensures SavedIds(creators[c := Leaving], issued, timers[creators[c].id := expires])
  {
  }

  /** Steps that only move create requests and issue ids. */
  lemma TimedMoves(s: State, t: State)
    requires Timed(s) && SavedIds(t.creators, t.issued, t.timers) && s.issued <= t.issued
    requires forall id :: id in t.issued ==> id in s.issued || AuthoringId(id)
    requires t.d.sessions == s.d.sessions && t.d.workers == s.d.workers && t.now == s.now
    requires t.timers == s.timers && t.fired == s.fired
    ensures Timed(t)
  {
    hide AuthoringId, SavedIds;
    SameActivity(s.d, t.d);
  }

  lemma TimedBegin(s: State, c: nat, supervised: bool)
    requires Timed(s) && Enabled(s, CreateBegin(c, supervised))
    ensures Timed(Effect(s, CreateBegin(c, supervised)))
  {
    hide AuthoringId, SavedIds;
    SavedMoves(s.creators, c, Preparing, s.issued, s.timers);
    TimedMoves(s, Effect(s, CreateBegin(c, supervised)));
  }

  lemma TimedRecheck(s: State, c: nat, cancelled: bool)
    requires Timed(s) && Enabled(s, CreateRecheck(c, cancelled))
    ensures Timed(Effect(s, CreateRecheck(c, cancelled)))
  {
    hide AuthoringId, SavedIds;
    SavedMoves(s.creators, c, if MaySave(s.d, cancelled) then Saving else Leaving, s.issued, s.timers);
    TimedMoves(s, Effect(s, CreateRecheck(c, cancelled)));
  }

  lemma TimedFail(s: State, c: nat)
    requires Timed(s) && Enabled(s, CreateFail(c))
    ensures Timed(Effect(s, CreateFail(c)))
  {
    hide AuthoringId, SavedIds;
    SavedMoves(s.creators, c, Leaving, s.issued, s.timers);
    TimedMoves(s, Effect(s, CreateFail(c)));
  }

  lemma TimedSave(s: State, c: nat, id: string)
    requires Timed(s) && Enabled(s, CreateSave(c, id))
    ensures Timed(Effect(s, CreateSave(c, id)))
  {
    hide AuthoringId, SavedIds;
    SavedNew(s.creators, c, id, s.issued, s.timers);
    TimedMoves(s, Effect(s, CreateSave(c, id)));
  }

  lemma TimedEnd(s: State, c: nat)
    requires Timed(s) && Enabled(s, CreateEnd(c))
    ensures Timed(Effect(s, CreateEnd(c)))
  {
    hide AuthoringId, SavedIds;
    SavedEnds(s.creators, c, s.issued, s.timers);
    TimedMoves(s, Effect(s, CreateEnd(c)));
  }

  lemma TimedPublish(s: State, c: nat, digest: string)
    requires Timed(s) && Enabled(s, CreatePublish(c, digest))
    ensures Timed(Effect(s, CreatePublish(c, digest)))
  {
    hide AuthoringId;
    SavedPublished(s.creators, c, s.issued, s.timers, s.now + TTL);
    SameActivity(s.d, Effect(s, CreatePublish(c, digest)).d);
  }

  lemma TimedFire(s: State, id: string)
    requires Timed(s) && Enabled(s, Fire(id))
    ensures Timed(Effect(s, Fire(id)))
  {
    SameActivity(s.d, Effect(s, Fire(id)).d);
  }

  lemma TimedTurn(s: State, w: nat, r: TurnRequest)
    requires OneWorker(s) && Timed(s) && Enabled(s, Turn(w, r))
    ensures Timed(Effect(s, Turn(w, r)))
  {
    TurnFindsNoWorker(s, Turn(w, r));
    assert forall id :: !SessionActive(s.d, id);
  }

  /** Steps that leave sessions, timers and requests alone, and the keys of worker entries too. */
  lemma TimedFrame(s: State, t: State)
    requires Timed(s) && t.timers == s.timers && t.fired == s.fired && t.issued == s.issued && t.creators == s.creators
    requires t.now >= s.now && (t.d.sessions == s.d.sessions || t.d.sessions == map[])
    requires t.d.workers.Keys == s.d.workers.Keys
    ensures Timed(t)
  {
    hide AuthoringId;
    SameActivity(s.d, t.d);
  }

  lemma TimedKept(s: State, step: Step)
    requires OneWorker(s) && Timed(s) && Enabled(s, step)
    ensures Timed(Effect(s, step))
  {
    hide Timed, OneWorker;
    var t := Effect(s, step);
    match step
    case CreateBegin(c, supervised) => TimedBegin(s, c, supervised);
    case CreateRecheck(c, cancelled) => TimedRecheck(s, c, cancelled);
    case CreateFail(c) => TimedFail(s, c);
    case CreateSave(c, id) => TimedSave(s, c, id);
    case CreateEnd(c) => TimedEnd(s, c);
    case CreatePublish(c, digest) => TimedPublish(s, c, digest);
    case Turn(w, r) => TimedTurn(s, w, r);
    case Exit(w) => ExitKeepsTimed(s, w);
    case Fire(id) => TimedFire(s, id);
    case Cancel(_, _) =>
      assert t.d.workers.Keys == s.d.workers.Keys;
      TimedFrame(s, t);
    case CloseBegin =>
      assert t.d.workers.Keys == s.d.workers.Keys;
      TimedFrame(s, t);
    case _ => TimedFrame(s, t);
  }

  lemma SameActivity(a: Shared, b: Shared)
    ensures a.workers.Keys == b.workers.Keys ==> forall id :: SessionActive(a, id) <==> SessionActive(b, id)
  {
    assert forall key :: key in a.workers <==> key in a.workers.Keys;
    assert forall key :: key in b.workers <==> key in b.workers.Keys;
  }

  lemma ClosedKept(s: State, step: Step)
    requires Closed(s) && Enabled(s, step)
    ensures Closed(Effect(s, step))
  {
  }

  lemma {:induction false} RunInv(s: State, steps: seq<Step>)
    requires Inv(s)
    ensures Inv(Run(s, steps))
  {
    if steps == [] {
    } else {
      var before, step := Run(s, steps[..|steps| - 1]), steps[|steps| - 1];
      RunInv(s, steps[..|steps| - 1]);
      if Enabled(before, step) {
        OneWorkerKept(before, step);
        LossGuardedKept(before, step);
        CountedKept(before, step);
        TimedKept(before, step);
        ClosedKept(before, step);
      }
    }
  }

  // ----- Safety over whole runs -----

  /** In every interleaving at most one worker is present and the entry map holds at most its entry. */
  lemma AtMostOneWorker(quarantined: bool, steps: seq<Step>, v: nat, w: nat)
    ensures var s := Run(Start(quarantined), steps);
            (Present(s, v) && Present(s, w) ==> v == w) && |s.d.workers| <= 1
  {
    StartInv(quarantined);
    RunInv(Start(quarantined), steps);
    var s := Run(Start(quarantined), steps);
    if u :| Present(s, u) {
      assert |s.d.workers| == |s.d.workers.Keys|;
    }
  }

  /** The retained sessions never exceed the capacity. */
  lemma SessionsBounded(quarantined: bool, steps: seq<Step>)
    ensures |Run(Start(quarantined), steps).d.sessions| <= CAPACITY
  {
    StartInv(quarantined);
    RunInv(Start(quarantined), steps);
  }

  /** A session whose timer has fired remains only while a worker of its own is present. */
  lemma FiredSessionIsInUse(quarantined: bool, steps: seq<Step>, id: string)
    requires var s := Run(Start(quarantined), steps); id in s.fired && id in s.d.sessions
    ensures var s := Run(Start(quarantined), steps);
            exists w :: Present(s, w) && s.workers[w].session == id
  {
    StartInv(quarantined);
    RunInv(Start(quarantined), steps);
    var s := Run(Start(quarantined), steps);
    assert SessionActive(s.d, id);
    assert s.d.workers != map[];
    var w :| Present(s, w);
    ActiveSession(s, w, id);
  }

  /** Nothing starts in one step once a finish was lost, or once close has returned. */
  ghost predicate Barred(s: State) {
    s.lost || s.closed
  }

  lemma BarredStep(s: State, step: Step)
    requires Inv(s) && Barred(s) && Enabled(s, step)
    ensures !step.Turn?
    ensures Barred(Effect(s, step)) && Effect(s, step).started == s.started
  {
    if step.Turn? {
      TurnFindsNoWorker(s, step);
    }
  }

  lemma {:induction false} BarredRun(s: State, steps: seq<Step>)
    requires Inv(s) && Barred(s)
    ensures Run(s, steps).started == s.started && Barred(Run(s, steps))
    ensures s.closed ==> Run(s, steps).closed
  {
    if steps == [] {
    } else {
      var front := steps[..|steps| - 1];
      BarredRun(s, front);
      RunInv(s, front);
      var before, step := Run(s, front), steps[|steps| - 1];
      if Enabled(before, step) {
        BarredStep(before, step);
      }
    }
  }

  /** Once a worker ends without a recorded finish, no later worker ever starts. */
  lemma LostFinishIsFinal(quarantined: bool, steps: seq<Step>, more: seq<Step>)
    requires Run(Start(quarantined), steps).lost
    ensures Run(Run(Start(quarantined), steps), more).started == Run(Start(quarantined), steps).started
  {
    StartInv(quarantined);
    RunInv(Start(quarantined), steps);
    BarredRun(Run(Start(quarantined), steps), more);
  }

  /** When close has returned without error no worker is running and none ever will. */
  lemma CloseIsFinal(quarantined: bool, steps: seq<Step>, more: seq<Step>)
    requires Run(Start(quarantined), steps).closed
    ensures Run(Run(Start(quarantined), steps), more).workers == map[]
    ensures Run(Run(Start(quarantined), steps), more).started == Run(Start(quarantined), steps).started
  {
    StartInv(quarantined);
    RunInv(Start(quarantined), steps);
    RunInv(Run(Start(quarantined), steps), more);
    BarredRun(Run(Start(quarantined), steps), more);
  }

  // ----- The creation counter overshoots, and by how much -----

  /** Create requests between their last region and their decrement. */
  ghost function Departing(s: State): set<nat> {
    set c | c in s.creators && s.creators[c].Leaving?
  }

  lemma CreatorsSplit(s: State)
    ensures |s.creators| == |Unpublished(s)| + |Departing(s)|
  {
    assert s.creators.Keys == Unpublished(s) + Departing(s);
    assert |s.creators| == |s.creators.Keys|;
  }

  /** What the capacity test compares: in every reachable state it exceeds the capacity by at most the number of leaving
      requests, so not at all while none is leaving, and never by more than the capacity. */
  lemma SumExceedsByLeaving(quarantined: bool, steps: seq<Step>)
    ensures var s := Run(Start(quarantined), steps);
            |s.d.sessions| + s.d.creating <= CAPACITY + |Departing(s)| && |Departing(s)| <= CAPACITY
  {
    hide Unpublished, Departing, OneWorker, LossGuarded, Timed, Closed;
    StartInv(quarantined);
    RunInv(Start(quarantined), steps);
    CreatorsSplit(Run(Start(quarantined), steps));
  }

  /** n create requests pass their first check one after the other. */
  function Crowd(n: nat): seq<Step> {
    if n == 0 then [] else Crowd(n - 1) + [CreateBegin(n - 1, true)]
  }

  /** Then the first n of them are rechecked, save and publish. */
  function Departures(n: nat): seq<Step> {
    if n == 0 then Crowd(CAPACITY)
    else
      Departures(n - 1) + [CreateRecheck(n - 1, false)] + [CreateSave(n - 1, Name(n - 1))]
      + [CreatePublish(n - 1, "digest")]
  }

  /** Distinct session identifiers. */
  function Name(n: nat): (name: string)
    ensures |name| == n + 1 && forall i :: 0 <= i <= n ==> name[i] == 'a'
  {
    seq(n + 1, i => 'a')
  }

  /** n requests wait, none has saved anything. */
  ghost predicate Crowded(s: State, n: nat) {
    && s.d == Shared(map[], map[], n, false, false) && s.issued == {}
    && (forall c :: c in s.creators ==> c < n && s.creators[c].Preparing?)
    && (forall c: nat :: c < n ==> c in s.creators)
  }

  lemma CrowdGrows(s: State, n: nat)
    requires Crowded(s, n) && n < CAPACITY
    ensures Enabled(s, CreateBegin(n, true)) && Crowded(Effect(s, CreateBegin(n, true)), n + 1)
  {
  }

  lemma {:induction false} CrowdPrepares(n: nat)
    requires n <= CAPACITY
    ensures Crowded(Run(Start(false), Crowd(n)), n)
  {
    hide Enabled, Effect;
    if n > 0 {
      CrowdPrepares(n - 1);
      RunNext(Start(false), Crowd(n - 1), CreateBegin(n - 1, true));
      CrowdGrows(Run(Start(false), Crowd(n - 1)), n - 1);
    }
  }

  /** The first n requests have published and are leaving, the others still prepare. */
  ghost predicate Departed(s: State, n: nat) {
    && n <= CAPACITY && s.d.creating == CAPACITY && !s.d.quarantined && !s.d.stopping
    && (forall c: nat :: c in s.creators <==> c < CAPACITY)
    && (forall c :: c in s.creators ==> s.creators[c] == if c < n then Leaving else Preparing)
    && |s.d.sessions| == n
    && (forall id :: id in s.d.sessions || id in s.issued ==> |id| <= n)
  }

  lemma DepartsOne(s: State, n: nat)
    requires Departed(s, n) && n < CAPACITY
    ensures var saving, save, publish := CreateRecheck(n, false), CreateSave(n, Name(n)), CreatePublish(n, "digest");
            && Enabled(s, saving) && Enabled(Effect(s, saving), save)
            && Enabled(Effect(Effect(s, saving), save), publish)
            && Departed(Effect(Effect(Effect(s, saving), save), publish), n + 1)
  {
    var saving, save, publish := CreateRecheck(n, false), CreateSave(n, Name(n)), CreatePublish(n, "digest");
    assert n in s.creators && s.creators[n].Preparing?;
    assert AuthoringId(Name(n)) && Name(n) !in s.d.sessions;
    var t := Effect(Effect(Effect(s, saving), save), publish);
    assert t.d.sessions.Keys == s.d.sessions.Keys + {Name(n)};
    assert |t.d.sessions| == |t.d.sessions.Keys| && |s.d.sessions| == |s.d.sessions.Keys|;
  }

  lemma {:induction false} DeparturesLeave(n: nat)
    requires n <= CAPACITY
    ensures Departed(Run(Start(false), Departures(n)), n)
  {
    hide Enabled, Effect, Departed;
    if n == 0 {
      CrowdPrepares(CAPACITY);
      CrowdDeparts(Run(Start(false), Crowd(CAPACITY)));
    } else {
      var before := Departures(n - 1);
      var saving, save := CreateRecheck(n - 1, false), CreateSave(n - 1, Name(n - 1));
      DeparturesLeave(n - 1);
      DepartsOne(Run(Start(false), before), n - 1);
      RunNext(Start(false), before, saving);
      RunNext(Start(false), before + [saving], save);
      RunNext(Start(false), before + [saving] + [save], CreatePublish(n - 1, "digest"));
    }
  }

  lemma CrowdDeparts(s: State)
    requires Crowded(s, CAPACITY)
    ensures Departed(s, 0)
  {
  }

  ghost function Below(n: nat): set<nat> {
    if n == 0 then {} else Below(n - 1) + {n - 1}
  }

  lemma {:induction false} BelowSize(n: nat)
    ensures |Below(n)| == n && forall c :: c in Below(n) <==> 0 <= c < n
  {
    if n > 0 {
      BelowSize(n - 1);
    }
  }

  /** The bound is attained for every number of leaving requests: with none the sum can be the capacity, and with as
      many as the capacity it is twice that. */
  lemma SumAttained(leaving: nat)
    requires leaving <= CAPACITY
    ensures exists steps :: var s := Run(Start(false), steps);
                            |Departing(s)| == leaving && |s.d.sessions| + s.d.creating == CAPACITY + leaving
  {
    var s := Run(Start(false), Departures(leaving));
    DeparturesLeave(leaving);
    BelowSize(leaving);
    assert Departing(s) == Below(leaving);
  }
}
