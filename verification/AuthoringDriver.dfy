/** The interleavings of AuthoringProtocol performed on the daemon object itself: every locked region is a method call,
    and its answer, not the model's guard, decides what the request or the worker does next. */
module AuthoringDriver {
  import opened Authoring
  import opened AuthoringProtocol

  /** One step of the protocol, or nothing when it is not enabled. */
  function Next(s: State, step: Step): State {
    if Enabled(s, step) then Effect(s, step) else s
  }

  /** Where the requests, workers and timers stand; `d` only repeats what the daemon's fields hold. */
  ghost predicate Mirrors(daemon: Daemon, s: State)
    reads daemon
  {
    daemon.State() == s.d
  }

  method PerformCreate(daemon: Daemon, s: State, step: Step) returns (t: State)
    requires Mirrors(daemon, s)
    requires step.CreateBegin? || step.CreateRecheck? || step.CreateFail? || step.CreateSave? || step.CreatePublish?
             || step.CreateEnd?
    modifies daemon
    ensures t == Next(s, step) && Mirrors(daemon, t)
  {
    hide MayCreate, BeginCreate, MaySave, Publish, AuthoringId;
    t := s;
    match step {
      case CreateBegin(c, supervised) =>
        if c !in s.creators {
          var ok := daemon.CreateBegin(supervised);
          if ok {
            t := s.(d := daemon.State(), creators := s.creators[c := Preparing]);
          }
        }
      case CreateRecheck(c, cancelled) =>
        if c in s.creators && s.creators[c].Preparing? {
          var ok := daemon.CreateRecheck(cancelled);
          t := s.(creators := s.creators[c := if ok then Saving else Leaving]);
        }
      case CreateFail(c) =>
        if c in s.creators && (s.creators[c].Preparing? || s.creators[c].Saving?) {
          t := s.(creators := s.creators[c := Leaving]);
        }
      case CreateSave(c, id) =>
        if c in s.creators && s.creators[c].Saving? && AuthoringId(id) && id !in s.issued {
          t := s.(creators := s.creators[c := Saved(id)], issued := s.issued + {id});
        }
      case CreatePublish(c, digest) =>
        if c in s.creators && s.creators[c].Saved? {
          var id, expires := s.creators[c].id, s.now + TTL;
          daemon.CreatePublish(id, Snapshot(expires, digest));
          t := s.(d := daemon.State(), creators := s.creators[c := Leaving], timers := s.timers[id := expires]);
        }
      case CreateEnd(c) =>
        if c in s.creators && s.creators[c].Leaving? && daemon.authoringCreating > 0 {
          daemon.CreateEnd();
          t := s.(d := daemon.State(), creators := s.creators - {c});
        }
    }
  }

  method PerformWorker(daemon: Daemon, s: State, step: Step) returns (t: State)
    requires Mirrors(daemon, s)
    requires step.Turn? || step.Cancel? || step.Finish? || step.Quarantine? || step.Exit? || step.Done?
    modifies daemon
    ensures t == Next(s, step) && Mirrors(daemon, t)
  {
    hide MayStart, StartWorker, CancelWorker, SetQuarantine, ExitWorker;
    t := s;
    match step {
      case Turn(w, r) =>
        if w !in s.workers {
          var started := daemon.TurnAuthoring(r, s.now);
          if started {
            t := s.(d := daemon.State(), started := s.started + 1,
                    workers := s.workers[w := Worker(r.session, r.key, Running)]);
          }
        }
      case Cancel(session, key) =>
        var requested := daemon.CancelTurn(session, key);
        t := s.(d := daemon.State());
      case Finish(w, recorded) =>
        if w in s.workers && s.workers[w].phase.Running? {
          t := s.(workers := s.workers[w := s.workers[w].(phase := if recorded then Unwinding else Unrecorded)],
                  lost := s.lost || !recorded);
        }
      case Quarantine(w) =>
        if w in s.workers && s.workers[w].phase.Unrecorded? {
          daemon.Quarantine();
          t := s.(d := daemon.State(), workers := s.workers[w := s.workers[w].(phase := Unwinding)]);
        }
      case Exit(w) =>
        if w in s.workers && s.workers[w].phase.Unwinding? {
          daemon.WorkerExit(s.workers[w].session, s.workers[w].key, s.now);
          t := s.(d := daemon.State(), workers := s.workers[w := s.workers[w].(phase := Gone)]);
        }
      case Done(w) =>
        if w in s.workers && s.workers[w].phase.Gone? {
          t := s.(workers := s.workers - {w});
        }
    }
  }

  method PerformOther(daemon: Daemon, s: State, step: Step) returns (t: State)
    requires Mirrors(daemon, s)
    requires step.Tick? || step.Fire? || step.CloseBegin? || step.CloseReturn?
    modifies daemon
    ensures t == Next(s, step) && Mirrors(daemon, t)
  {
    hide FireTimer, BeginClose, FinishClose;
    t := s;
    match step {
      case Tick =>
        t := s.(now := s.now + 1);
      case Fire(id) =>
        if id in s.timers && id !in s.fired && s.timers[id] <= s.now {
          daemon.TimerFired(id);
          t := s.(d := daemon.State(), fired := s.fired + {id});
        }
      case CloseBegin =>
        daemon.CloseBegin();
        t := s.(d := daemon.State());
      case CloseReturn =>
        if daemon.authoringStopping && s.workers == map[] {
          daemon.CloseFinish();
          t := s.(d := daemon.State(), closed := true);
        }
    }
  }

  method Perform(daemon: Daemon, s: State, step: Step) returns (t: State)
    requires Mirrors(daemon, s)
    modifies daemon
    ensures t == Next(s, step) && Mirrors(daemon, t)
  {
    hide Next, Mirrors;
    if step.Turn? || step.Cancel? || step.Finish? || step.Quarantine? || step.Exit? || step.Done? {
      t := PerformWorker(daemon, s, step);
    } else if step.Tick? || step.Fire? || step.CloseBegin? || step.CloseReturn? {
      t := PerformOther(daemon, s, step);
    } else {
      t := PerformCreate(daemon, s, step);
    }
  }

  lemma RunSteps(s: State, steps: seq<Step>, n: nat)
    requires n < |steps|
    ensures Run(s, steps[..n + 1]) == Next(Run(s, steps[..n]), steps[n])
  {
    assert steps[..n + 1] == steps[..n] + [steps[n]];
    RunNext(s, steps[..n], steps[n]);
  }

  /** What the daemon's own fields promise in every state of the protocol. */
  lemma FieldsAreSafe(s: State)
    requires Inv(s)
    ensures |s.d.workers| <= 1 && |s.d.sessions| <= CAPACITY && (s.closed ==> s.d.workers == map[])
  {
    hide LossGuarded, Timed, AuthoringId;
    if u :| Present(s, u) {
      assert |s.d.workers| == |s.d.workers.Keys|;
    }
  }

  /** Any interleaving, performed on the object from any state the protocol can be in: the fields follow the protocol,
      at most one worker entry and 16 sessions are held, and once a finish was lost or close has returned no worker
      starts. */
  method Drive(daemon: Daemon, start: State, steps: seq<Step>) returns (s: State)
    requires Mirrors(daemon, start) && Inv(start)
    modifies daemon
    ensures s == Run(start, steps) && Mirrors(daemon, s) && Inv(s)
    ensures |daemon.authoringWorkers| <= 1 && |daemon.authoringSessions| <= CAPACITY
    ensures start.lost || start.closed ==> s.started == start.started
    ensures start.closed ==> daemon.authoringWorkers == map[]
  {
    hide Inv, Next;
    s := start;
    assert steps[..0] == [];
    for n := 0 to |steps|
      invariant s == Run(start, steps[..n]) && Mirrors(daemon, s)
    {
      RunSteps(start, steps, n);
      s := Perform(daemon, s, steps[n]);
    }
    assert steps[..|steps|] == steps;
    RunInv(start, steps);
    FieldsAreSafe(s);
    if start.lost || start.closed {
      BarredRun(start, steps);
    }
  }

  /** A daemon's whole life, from what recovery left behind. */
  method Live(quarantined: bool, steps: seq<Step>, more: seq<Step>) returns (daemon: Daemon, middle: State, last: State)
    ensures middle == Run(Start(quarantined), steps) && last == Run(middle, more) && Mirrors(daemon, last)
    ensures |daemon.authoringWorkers| <= 1 && |daemon.authoringSessions| <= CAPACITY
    ensures middle.lost || middle.closed ==> last.started == middle.started
    ensures middle.closed ==> daemon.authoringWorkers == map[]
  {
    hide Inv;
    daemon := new Daemon(quarantined);
    StartInv(quarantined);
    middle := Drive(daemon, Start(quarantined), steps);
    last := Drive(daemon, middle, more);
  }
}
