/** What a run of the authoring protocol owes its users, in the terms of its requests: which sessions can be worked on,
    for how long, and when a turn is certain to start. */
module AuthoringLaws {
  import opened Authoring
  import opened AuthoringProtocol

  /** Step n of the run published session `id` with this context digest, at this moment. */
  ghost predicate PublishedAt(quarantined: bool, steps: seq<Step>, n: nat, id: string, digest: string, at: int) {
    && n < |steps| && steps[n].CreatePublish? && steps[n].digest == digest
    && var s := Run(Start(quarantined), steps[..n]);
    && steps[n].c in s.creators && s.creators[steps[n].c] == Saved(id) && s.now == at
  }

  /** The published session as the state knows it. */
  ghost predicate Known(s: State, id: string, digest: string, at: int) {
    && id in s.timers && s.timers[id] == at + 1800
    && (id in s.d.sessions ==> s.d.sessions[id] == Snapshot(at + 1800, digest))
  }

  /** Until its time is up or the daemon has closed, a published session is retained. */
  ghost predicate Retained(s: State) {
    forall id :: id in s.timers && s.now < s.timers[id] && !s.closed ==> id in s.d.sessions
  }

  lemma PublishKnown(s: State, c: nat, digest: string)
    requires Enabled(s, CreatePublish(c, digest))
    ensures Known(Effect(s, CreatePublish(c, digest)), s.creators[c].id, digest, s.now)
  {
  }

  /** Sessions are never republished: the id of a saved one is new to the timers. */
  lemma KnownStays(s: State, step: Step, id: string, digest: string, at: int)
    requires Inv(s) && Enabled(s, step) && Known(s, id, digest, at)
    ensures Known(Effect(s, step), id, digest, at)
  {
    hide OneWorker, LossGuarded, Counted, Closed, MayStart, AuthoringId, SessionActive;
    match step
    case CreatePublish(c, _) => assert s.creators[c].id != id;
    case _ =>
  }

  lemma RetainedStays(s: State, step: Step)
    requires Inv(s) && Retained(s) && Enabled(s, step)
    ensures Retained(Effect(s, step))
  {
    hide OneWorker, LossGuarded, Counted, Closed, MayStart, AuthoringId, SessionActive;
  }

  lemma {:induction false} RunRetains(quarantined: bool, steps: seq<Step>)
    ensures Retained(Run(Start(quarantined), steps))
  {
    hide Inv, Retained, Enabled, Effect;
    if steps == [] {
      StartRetains(quarantined);
    } else {
      var front := steps[..|steps| - 1];
      RunRetains(quarantined, front);
      StartInv(quarantined);
      RunInv(Start(quarantined), front);
      var before, step := Run(Start(quarantined), front), steps[|steps| - 1];
      if Enabled(before, step) {
        RetainedStays(before, step);
      }
    }
  }

  lemma StartRetains(quarantined: bool)
    ensures Retained(Start(quarantined))
  {
  }

  lemma NextStep(quarantined: bool, steps: seq<Step>, n: nat)
    requires n < |steps|
    ensures var before := Run(Start(quarantined), steps[..n]);
            Run(Start(quarantined), steps[..n + 1]) ==
              if Enabled(before, steps[n]) then Effect(before, steps[n]) else before
  {
    assert steps[..n + 1] == steps[..n] + [steps[n]];
    RunNext(Start(quarantined), steps[..n], steps[n]);
  }

  lemma {:induction false} PublicationIsKnown(quarantined: bool, steps: seq<Step>, n: nat, k: nat, id: string,
                                              digest: string, at: int)
    requires n < k <= |steps| && PublishedAt(quarantined, steps, n, id, digest, at)
    ensures Known(Run(Start(quarantined), steps[..k]), id, digest, at)
    decreases k
  {
    hide Inv, Known, Effect, Run;
    NextStep(quarantined, steps, k - 1);
    var before := Run(Start(quarantined), steps[..k - 1]);
    if k == n + 1 {
      PublishKnown(before, steps[n].c, digest);
    } else {
      PublicationIsKnown(quarantined, steps, n, k - 1, id, digest, at);
      StartInv(quarantined);
      RunInv(Start(quarantined), steps[..k - 1]);
      if Enabled(before, steps[k - 1]) {
        KnownStays(before, steps[k - 1], id, digest, at);
      }
    }
  }

  /** Before step k the session was published with this digest and this expiry. */
  ghost predicate PublishedBefore(quarantined: bool, steps: seq<Step>, k: nat, id: string, snapshot: Snapshot) {
    exists n: nat, at: int ::
      n < k && PublishedAt(quarantined, steps, n, id, snapshot.contextDigest, at) && snapshot.expires == at + 1800
  }

  /** Every retained session was published in this run, with the digest and the time it carries. */
  ghost predicate Traced(quarantined: bool, steps: seq<Step>, k: nat)
    requires k <= |steps|
  {
    var s := Run(Start(quarantined), steps[..k]);
    forall id :: id in s.d.sessions ==> PublishedBefore(quarantined, steps, k, id, s.d.sessions[id])
  }

  lemma PublishedEarlier(quarantined: bool, steps: seq<Step>, k: nat, id: string, snapshot: Snapshot)
    requires PublishedBefore(quarantined, steps, k, id, snapshot)
    ensures PublishedBefore(quarantined, steps, k + 1, id, snapshot)
  {
    hide PublishedAt;
    var n: nat, at: int :|
      n < k && PublishedAt(quarantined, steps, n, id, snapshot.contextDigest, at) && snapshot.expires == at + 1800;
    assert n < k + 1;
  }

  /** No step but a publication adds or changes a session. */
  lemma SessionsComeFromPublishing(s: State, step: Step, id: string)
    requires Enabled(s, step) && id in Effect(s, step).d.sessions
    ensures (id in s.d.sessions && Effect(s, step).d.sessions[id] == s.d.sessions[id])
            || (step.CreatePublish? && s.creators[step.c] == Saved(id)
                && Effect(s, step).d.sessions[id] == Snapshot(s.now + 1800, step.digest))
  {
    hide MayStart, AuthoringId, SessionActive, Enabled, Effect;
    if step.CreatePublish? {
      PublishAdds(s, step.c, step.digest, id);
    } else {
      SessionsOnlyLeave(s, step, id);
    }
  }

  lemma PublishAdds(s: State, c: nat, digest: string, id: string)
    requires Enabled(s, CreatePublish(c, digest)) && id in Effect(s, CreatePublish(c, digest)).d.sessions
    ensures var sessions := Effect(s, CreatePublish(c, digest)).d.sessions;
            if s.creators[c] == Saved(id) then sessions[id] == Snapshot(s.now + 1800, digest)
            else id in s.d.sessions && sessions[id] == s.d.sessions[id]
  {
  }

  lemma SessionsOnlyLeave(s: State, step: Step, id: string)
    requires Enabled(s, step) && !step.CreatePublish? && id in Effect(s, step).d.sessions
    ensures id in s.d.sessions && Effect(s, step).d.sessions[id] == s.d.sessions[id]
  {
    hide MayStart, AuthoringId, SessionActive, Enabled;
  }

  lemma {:induction false} SessionsAreTraced(quarantined: bool, steps: seq<Step>, k: nat)
    requires k <= |steps|
    ensures Traced(quarantined, steps, k)
    decreases k
  {
    hide Effect, Run;
    if k == 0 {
      NothingTraced(quarantined, steps);
    } else {
      SessionsAreTraced(quarantined, steps, k - 1);
      NextStep(quarantined, steps, k - 1);
      var before, after := Run(Start(quarantined), steps[..k - 1]), Run(Start(quarantined), steps[..k]);
      var step := steps[k - 1];
      forall id | id in after.d.sessions ensures PublishedBefore(quarantined, steps, k, id, after.d.sessions[id]) {
        if Enabled(before, step) {
          SessionsComeFromPublishing(before, step, id);
        }
        if id in before.d.sessions && after.d.sessions[id] == before.d.sessions[id] {
          PublishedEarlier(quarantined, steps, k - 1, id, after.d.sessions[id]);
        } else {
          assert PublishedAt(quarantined, steps, k - 1, id, step.digest, before.now);
        }
      }
    }
  }

  lemma NothingTraced(quarantined: bool, steps: seq<Step>)
    ensures Traced(quarantined, steps, 0)
  {
    assert steps[..0] == [];
  }

  /** The identifiers the daemon admits, by the ASCII codes of letters, digits, '-', '.' and '_'. */
  lemma IdentifierCharacters(value: string)
    ensures AuthoringId(value) <==>
              1 <= |value| <= 128
              && forall i :: 0 <= i < |value| ==>
                   var code := value[i] as int;
                   97 <= code <= 122 || 65 <= code <= 90 || 48 <= code <= 57 || code == 45 || code == 46 || code == 95
  {
  }

  // ----- When a worker starts -----

  lemma OnlyTurnsStart(s: State, step: Step)
    requires Inv(s) && Enabled(s, step) && Effect(s, step).started != s.started
    ensures step.Turn? && Effect(s, step).started == s.started + 1
    ensures var r := step.request;
            && r.session in s.d.sessions && s.d.sessions[r.session].contextDigest == r.digest
            && s.now < s.d.sessions[r.session].expires && !s.d.quarantined && !s.d.stopping
            && r.supervised && r.leader && r.encodable && r.reserved
            && forall w :: !Present(s, w)
  {
    hide LossGuarded, Counted, Timed, Closed, AuthoringId;
    if step.Turn? {
      TurnFindsNoWorker(s, step);
    }
  }

  /** In every run, whatever starts a worker is a turn for a session published with its digest less than half an hour
      before, with no worker present, no quarantine and no shutdown. */
  lemma StartsOnlyLiveSessions(quarantined: bool, steps: seq<Step>, step: Step)
    requires var s := Run(Start(quarantined), steps); Enabled(s, step) && Effect(s, step).started != s.started
    ensures var s := Run(Start(quarantined), steps);
            && step.Turn? && Effect(s, step).started == s.started + 1
            && !s.d.quarantined && !s.d.stopping && (forall w :: !Present(s, w))
            && exists n: nat, at: int :: at <= s.now < at + 1800
                 && PublishedAt(quarantined, steps, n, step.request.session, step.request.digest, at)
  {
    hide Effect, Run, Enabled, Inv, Present, PublishedAt;
    var s := Run(Start(quarantined), steps);
    StartInv(quarantined);
    RunInv(Start(quarantined), steps);
    OnlyTurnsStart(s, step);
    SessionsAreTraced(quarantined, steps, |steps|);
    assert steps[..|steps|] == steps;
    var id := step.request.session;
    var n: nat, at: int :| n < |steps| && s.d.sessions[id].expires == at + 1800
                           && PublishedAt(quarantined, steps, n, id, s.d.sessions[id].contextDigest, at);
    TimePasses(quarantined, steps, n, id, step.request.digest, at);
  }

  lemma {:induction false} ClockGrows(quarantined: bool, steps: seq<Step>, n: nat, k: nat)
    requires n <= k <= |steps|
    ensures Run(Start(quarantined), steps[..n]).now <= Run(Start(quarantined), steps[..k]).now
    decreases k
  {
    hide Run, Enabled, Effect;
    if n < k {
      ClockGrows(quarantined, steps, n, k - 1);
      NextStep(quarantined, steps, k - 1);
      var before := Run(Start(quarantined), steps[..k - 1]);
      if Enabled(before, steps[k - 1]) {
        StepTakesTime(before, steps[k - 1]);
      }
    }
  }

  lemma StepTakesTime(s: State, step: Step)
    requires Enabled(s, step)
    ensures s.now <= Effect(s, step).now
  {
  }

  lemma TimePasses(quarantined: bool, steps: seq<Step>, n: nat, id: string, digest: string, at: int)
    requires PublishedAt(quarantined, steps, n, id, digest, at)
    ensures at <= Run(Start(quarantined), steps).now
  {
    hide Run;
    ClockGrows(quarantined, steps, n, |steps|);
    assert steps[..|steps|] == steps;
  }

  /** A request that leaves nothing to be desired. */
  predicate Proper(r: TurnRequest) {
    AuthoringId(r.session) && AuthoringId(r.key) && r.supervised && r.leader && r.encodable && r.reserved
  }

  /** Conversely, in every reachable state without a worker entry, quarantine or shutdown, a proper request for a
      session published with its digest less than half an hour before does start a worker, on that session and key. */
  lemma LiveSessionStarts(quarantined: bool, steps: seq<Step>, n: nat, at: int, w: nat, r: TurnRequest)
    requires PublishedAt(quarantined, steps, n, r.session, r.digest, at) && Proper(r)
    requires var s := Run(Start(quarantined), steps);
             && s.now < at + 1800 && s.d.workers == map[] && !s.d.quarantined && !s.d.stopping && w !in s.workers
    ensures var s := Run(Start(quarantined), steps);
            && Enabled(s, Turn(w, r)) && Effect(s, Turn(w, r)).started == s.started + 1
            && Effect(s, Turn(w, r)).workers[w] == Worker(r.session, r.key, Running)
            && Effect(s, Turn(w, r)).d.workers == map[r.session + "/" + r.key := false]
  {
    hide Run, PublishedAt, AuthoringId, OneWorker, LossGuarded, Counted, Timed;
    var s := Run(Start(quarantined), steps);
    assert steps[..|steps|] == steps;
    Numbered(quarantined, steps, n, r.session, r.digest, at);
    PublicationIsKnown(quarantined, steps, n, |steps|, r.session, r.digest, at);
    RunRetains(quarantined, steps);
    StartInv(quarantined);
    RunInv(Start(quarantined), steps);
  }

  lemma Numbered(quarantined: bool, steps: seq<Step>, n: nat, id: string, digest: string, at: int)
    requires PublishedAt(quarantined, steps, n, id, digest, at)
    ensures n < |steps|
  {
  }

  /** A create request passes its first check exactly below the capacity, outside quarantine and shutdown. */
  lemma CreateAdmittedExactly(s: State, c: nat, supervised: bool)
    ensures Enabled(s, CreateBegin(c, supervised)) <==>
              c !in s.creators && supervised && !s.d.quarantined && !s.d.stopping && |s.d.sessions| + s.d.creating < 16
  {
  }
}
