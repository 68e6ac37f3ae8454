/** The daemon's authoring sessions and workers (internal/daemon/authoring.go).
    `Shared` is what authoringMu protects; each function on it is one region run under that lock. */
module Authoring {

  const CAPACITY: nat := 16

  datatype Snapshot = Snapshot(expires: int, contextDigest: string)

  /** Worker entries map to whether their context has been cancelled. */
  datatype Shared = Shared(sessions: map<string, Snapshot>, workers: map<string, bool>, creating: nat,
                           quarantined: bool, stopping: bool)

  function WorkerKey(session: string, key: string): string {
    session + "/" + key
  }

  predicate HasSessionPrefix(key: string, session: string) {
    |key| > |session| && key[..|session| + 1] == session + "/"
  }

  predicate SessionActive(d: Shared, session: string) {
    exists key :: key in d.workers && HasSessionPrefix(key, session)
  }

  /** Session and turn identifiers: letters, digits, '-', '_', '.'. */
  predicate AuthoringId(value: string) {
    && 1 <= |value| <= 128
    && forall i :: 0 <= i < |value| ==>
         'a' <= value[i] <= 'z' || 'A' <= value[i] <= 'Z' || '0' <= value[i] <= '9' || value[i] in {'-', '_', '.'}
  }

  lemma AuthoringIdsHaveNoSlash(value: string)
    requires AuthoringId(value)
    ensures '/' !in value
  {
  }

  /** The prefix test finds exactly the workers of that session, when session identifiers hold no slash. */
  lemma PrefixIdentifiesSession(session: string, other: string, key: string)
    requires '/' !in session && '/' !in other
    ensures HasSessionPrefix(WorkerKey(other, key), session) <==> other == session
  {
    var full, n := WorkerKey(other, key), |session|;
    assert full[|other|] == '/';
    if HasSessionPrefix(full, session) {
      assert full[..n + 1][n] == '/';
      assert forall i :: 0 <= i < n ==> full[i] == full[..n + 1][i] == session[i];
      assert |other| == n;
      assert other == full[..n] && session == full[..n];
    }
    if other == session {
      assert full[..n + 1] == session + "/";
    }
  }

  /** Without that restriction on identifiers the test confuses sessions. */
  lemma PrefixConfusesSlashes()
    ensures HasSessionPrefix(WorkerKey("a/b", "k"), "a")
  {
    assert WorkerKey("a/b", "k")[..2] == "a/";
  }

  /** One session's path lies inside the other's. */
  predicate Nested(session: string, other: string) {
    session + "/" <= other || other + "/" <= session
  }

  /** The exact condition: the test is right for every turn key if and only if neither identifier is a path prefix of
      the other. */
  lemma PrefixTestExactly(session: string, other: string)
    ensures (forall key :: HasSessionPrefix(WorkerKey(other, key), session) <==> other == session)
            <==> !Nested(session, other)
  {
    if session + "/" <= other {
      PrefixNests(session, other, "");
      assert HasSessionPrefix(WorkerKey(other, ""), session);
    } else if other + "/" <= session {
      var key := session[|other| + 1..] + "/";
      assert session == other + "/" + session[|other| + 1..];
      assert WorkerKey(other, key) == session + "/";
      assert HasSessionPrefix(WorkerKey(other, key), session);
    } else {
      forall key ensures HasSessionPrefix(WorkerKey(other, key), session) <==> other == session {
        PrefixNests(session, other, key);
      }
    }
  }

  lemma PrefixNests(session: string, other: string, key: string)
    ensures HasSessionPrefix(WorkerKey(other, key), session) ==> other == session || Nested(session, other)
    ensures other == session || session + "/" <= other ==> HasSessionPrefix(WorkerKey(other, key), session)
  {
    var full, prefix := WorkerKey(other, key), session + "/";
    assert full[..|other|] == other && full[|other|] == '/';
    if HasSessionPrefix(full, session) {
      assert prefix == full[..|prefix|];
      if |session| < |other| {
        assert other[..|prefix|] == full[..|prefix|];
      } else if |other| < |session| {
        assert session[..|other| + 1] == full[..|other| + 1] == other + "/";
      } else {
        assert session == full[..|session|];
      }
    }
    if session + "/" <= other {
      assert full[..|prefix|] == other[..|prefix|];
    } else if other == session {
      assert full[..|prefix|] == prefix;
    }
  }

  // ----- The regions under the lock -----

  predicate MayCreate(d: Shared, supervised: bool) {
    !d.stopping && !d.quarantined && supervised && |d.sessions| + d.creating < CAPACITY
  }

  function BeginCreate(d: Shared): Shared {
    d.(creating := d.creating + 1)
  }

  predicate MaySave(d: Shared, cancelled: bool) {
    !d.stopping && !d.quarantined && !cancelled
  }

  function Publish(d: Shared, id: string, snapshot: Snapshot): Shared {
    d.(sessions := d.sessions[id := snapshot])
  }

  function EndCreate(d: Shared): Shared
    requires d.creating > 0
  {
    d.(creating := d.creating - 1)
  }

  function FireTimer(d: Shared, id: string): Shared {
    if SessionActive(d, id) then d else d.(sessions := d.sessions - {id})
  }

  /** What a turn request finds outside the lock's data. */
  datatype TurnRequest = TurnRequest(session: string, key: string, digest: string, supervised: bool, leader: bool,
                                     encodable: bool, reserved: bool)

  /** A turn starts a worker only for a live session, with no worker present and a freshly reserved claim. */
  predicate MayStart(d: Shared, r: TurnRequest, now: int) {
    && AuthoringId(r.session) && AuthoringId(r.key)
    && !d.stopping && !d.quarantined && r.supervised
    && r.session in d.sessions && now < d.sessions[r.session].expires && r.digest == d.sessions[r.session].contextDigest
    && r.leader && r.encodable
    && |d.workers| == 0
    && r.reserved
  }

  function StartWorker(d: Shared, session: string, key: string): Shared {
    d.(workers := d.workers[WorkerKey(session, key) := false])
  }

  function CancelWorker(d: Shared, session: string, key: string): Shared {
    if WorkerKey(session, key) in d.workers then d.(workers := d.workers[WorkerKey(session, key) := true]) else d
  }

  function SetQuarantine(d: Shared): Shared {
    d.(quarantined := true)
  }

  function ExitWorker(d: Shared, session: string, key: string, now: int): Shared {
    var left := d.(workers := d.workers - {WorkerKey(session, key)});
    if session in d.sessions && d.sessions[session].expires <= now then left.(sessions := d.sessions - {session})
    else left
  }

  function BeginClose(d: Shared): Shared {
    d.(stopping := true, workers := map key | key in d.workers :: true)
  }

  function FinishClose(d: Shared): Shared {
    d.(sessions := map[])
  }

  /** The daemon's fields, and the lock-held regions as they update them. */
  class Daemon {
    var authoringSessions: map<string, Snapshot>
    var authoringWorkers: map<string, bool>
    var authoringCreating: nat
    var authoringQuarantined: bool
    var authoringStopping: bool

    function State(): Shared
      reads this
    {
      Shared(authoringSessions, authoringWorkers, authoringCreating, authoringQuarantined, authoringStopping)
    }

    /** `quarantined` is what recovery of earlier turns left behind. */
    constructor (quarantined: bool)
      ensures State() == Shared(map[], map[], 0, quarantined, false)
    {
      authoringSessions, authoringWorkers, authoringCreating := map[], map[], 0;
      authoringQuarantined, authoringStopping := quarantined, false;
    }

    method CreateBegin(supervised: bool) returns (ok: bool)
      modifies this`authoringCreating
      ensures ok == MayCreate(old(State()), supervised)
      ensures State() == if ok then BeginCreate(old(State())) else old(State())
    {
      if authoringStopping || authoringQuarantined || !supervised
         || |authoringSessions| + authoringCreating >= CAPACITY {
        return false;
      }
      authoringCreating := authoringCreating + 1;
      ok := true;
    }

    method CreateRecheck(cancelled: bool) returns (ok: bool)
      ensures ok == MaySave(State(), cancelled)
    {
      ok := !(authoringStopping || authoringQuarantined || cancelled);
    }

    method CreatePublish(id: string, snapshot: Snapshot)
      modifies this`authoringSessions
      ensures State() == Publish(old(State()), id, snapshot)
    {
      authoringSessions := authoringSessions[id := snapshot];
    }

    method CreateEnd()
      requires authoringCreating > 0
      modifies this`authoringCreating
      ensures State() == EndCreate(old(State()))
    {
      authoringCreating := authoringCreating - 1;
    }

    method IsSessionActive(session: string) returns (active: bool)
      ensures active == SessionActive(State(), session)
    {
      var rest := authoringWorkers.Keys;
      while rest != {}
        invariant rest <= authoringWorkers.Keys
        invariant forall key :: key in authoringWorkers && key !in rest ==> !HasSessionPrefix(key, session)
        decreases |rest|
      {
        var key :| key in rest;
        if HasSessionPrefix(key, session) {
          return true;
        }
        rest := rest - {key};
      }
      active := false;
    }

    method TimerFired(id: string)
      modifies this`authoringSessions
      ensures State() == FireTimer(old(State()), id)
    {
      var active := IsSessionActive(id);
      if !active {
        authoringSessions := authoringSessions - {id};
      }
    }

    method TurnAuthoring(r: TurnRequest, now: int) returns (started: bool)
      modifies this`authoringWorkers
      ensures started == MayStart(old(State()), r, now)
      ensures State() == if started then StartWorker(old(State()), r.session, r.key) else old(State())
    {
      if !AuthoringId(r.session) || !AuthoringId(r.key) || authoringStopping || authoringQuarantined || !r.supervised
         || r.session !in authoringSessions || now >= authoringSessions[r.session].expires
         || r.digest != authoringSessions[r.session].contextDigest || !r.leader || !r.encodable
         || |authoringWorkers| > 0 || !r.reserved {
        return false;
      }
      authoringWorkers := authoringWorkers[WorkerKey(r.session, r.key) := false];
      started := true;
    }

    method CancelTurn(session: string, key: string) returns (requested: bool)
      modifies this`authoringWorkers
      ensures State() == CancelWorker(old(State()), session, key)
      ensures requested == (session + "/" + key in old(authoringWorkers))
      ensures authoringWorkers.Keys == old(authoringWorkers).Keys
      ensures forall k :: k in authoringWorkers ==>
                (authoringWorkers[k] <==> old(authoringWorkers)[k] || k == session + "/" + key)
    {
      requested := WorkerKey(session, key) in authoringWorkers;
      if requested {
        authoringWorkers := authoringWorkers[WorkerKey(session, key) := true];
      }
    }

    method Quarantine()
      modifies this`authoringQuarantined
      ensures State() == SetQuarantine(old(State()))
    {
      authoringQuarantined := true;
    }

    method WorkerExit(session: string, key: string, now: int)
      modifies this`authoringWorkers, this`authoringSessions
      ensures State() == ExitWorker(old(State()), session, key, now)
    {
      authoringWorkers := authoringWorkers - {WorkerKey(session, key)};
      if session in authoringSessions && !(now < authoringSessions[session].expires) {
        authoringSessions := authoringSessions - {session};
      }
    }

    method CloseBegin()
      modifies this`authoringStopping, this`authoringWorkers
      ensures State() == BeginClose(old(State()))
      ensures authoringStopping && authoringWorkers.Keys == old(authoringWorkers).Keys
      ensures forall k :: k in authoringWorkers ==> authoringWorkers[k]
    {
      authoringStopping := true;
      authoringWorkers := map key | key in authoringWorkers :: true;
    }

    method CloseFinish()
      modifies this`authoringSessions
      ensures State() == FinishClose(old(State()))
    {
      authoringSessions := map[];
    }
  }
}
