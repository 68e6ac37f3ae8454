/** The backed-up atomic replacement of .sf/config.toml (internal/config/provider_edit_install.go)
    on a directory that can lose power at any moment. */
module ConfigInstall {

  type Bytes = string
  type Directory = map<string, nat>

  const CONFIG := "config.toml"

  /** A file's contents; they are certain to survive a crash only once synced. */
  datatype File = File(content: Bytes, synced: bool)

  /** Directory changes not yet known to be durable. A rename carries the inode it moves. */
  datatype DirOp = Link(name: string, inode: nat) | Unlink(name: string) | Rename(from: string, to: string, inode: nat)

  datatype Disk = Disk(files: map<nat, File>, durable: Directory, pending: seq<DirOp>)

  function Applied(dir: Directory, op: DirOp): Directory {
    match op
    case Link(name, inode) => dir[name := inode]
    case Unlink(name) => dir - {name}
    case Rename(from, to, inode) => (dir - {from})[to := inode]
  }

  function AppliedAll(dir: Directory, ops: seq<DirOp>): Directory {
    if ops == [] then dir else Applied(AppliedAll(dir, ops[..|ops| - 1]), ops[|ops| - 1])
  }

  /** The directory as running processes see it. */
  function Live(disk: Disk): Directory {
    AppliedAll(disk.durable, disk.pending)
  }

  /** A directory a crash may leave: any selection of the pending changes, in order. */
  ghost predicate Survives(durable: Directory, pending: seq<DirOp>, dir: Directory) {
    if pending == [] then dir == durable
    else
      var front, last := pending[..|pending| - 1], pending[|pending| - 1];
      exists d :: Survives(durable, front, d) && (dir == d || dir == Applied(d, last))
  }

  /** The name certainly has these contents in that directory. */
  ghost predicate Holds(disk: Disk, dir: Directory, name: string, content: Bytes) {
    name in dir && dir[name] in disk.files && disk.files[dir[name]] == File(content, true)
  }

  /** What the edit promises of every crash: the old or the new configuration, never anything else,
      and the new one only beside a complete backup of the old one. */
  ghost predicate CrashSafe(disk: Disk, original: Bytes, updated: Bytes, backup: string) {
    forall dir :: Survives(disk.durable, disk.pending, dir) ==>
      || Holds(disk, dir, CONFIG, original)
      || (Holds(disk, dir, CONFIG, updated) && Holds(disk, dir, backup, original))
  }

  // ----- What a run of changes can do to one name -----

  /** The change leaves the name alone or points it at one of these inodes. */
  ghost predicate Respects(op: DirOp, name: string, inodes: set<nat>) {
    match op
    case Link(n, inode) => n != name || inode in inodes
    case Unlink(n) => n != name
    case Rename(from, to, inode) => from != name && (to != name || inode in inodes)
  }

  /** In the durable directory and through every pending change the name stays on one of these inodes. */
  ghost predicate Confined(disk: Disk, name: string, inodes: set<nat>) {
    && name in disk.durable && disk.durable[name] in inodes
    && forall op :: op in disk.pending ==> Respects(op, name, inodes)
  }

  lemma {:induction false} SurvivorsConfined(durable: Directory, pending: seq<DirOp>, dir: Directory, name: string,
                                             inodes: set<nat>)
    requires name in durable && durable[name] in inodes
    requires forall op :: op in pending ==> Respects(op, name, inodes)
    requires Survives(durable, pending, dir)
    ensures name in dir && dir[name] in inodes
  {
    if pending == [] {
    } else {
      var front, last := pending[..|pending| - 1], pending[|pending| - 1];
      var d :| Survives(durable, front, d) && (dir == d || dir == Applied(d, last));
      SurvivorsConfined(durable, front, d, name, inodes);
      assert last in pending;
    }
  }

  /** Processes see one of the directories a crash may leave. */
  lemma {:induction false} LiveSurvives(durable: Directory, pending: seq<DirOp>)
    ensures Survives(durable, pending, AppliedAll(durable, pending))
  {
    if pending == [] {
    } else {
      LiveSurvives(durable, pending[..|pending| - 1]);
    }
  }

  // ----- The invariant of the edit -----

  /** The inodes of the edit: the original file, the backup and the replacement. */
  datatype Roles = Roles(source: nat, backup: nat, stage: nat)

  /** Until the backup is durable the configuration never leaves its inode. */
  ghost predicate Untouched(disk: Disk, source: nat, original: Bytes) {
    Confined(disk, CONFIG, {source}) && source in disk.files && disk.files[source] == File(original, true)
  }

  /** From then on the backup never leaves its inode, and the configuration may move to the staged one. */
  ghost predicate BackedUp(disk: Disk, r: Roles, original: Bytes, backup: string) {
    && Confined(disk, backup, {r.backup}) && r.backup in disk.files && disk.files[r.backup] == File(original, true)
    && r.source in disk.files && disk.files[r.source] == File(original, true)
  }

  ghost predicate Replacing(disk: Disk, r: Roles, original: Bytes, updated: Bytes, backup: string) {
    && BackedUp(disk, r, original, backup)
    && Confined(disk, CONFIG, {r.source, r.stage})
    && r.stage in disk.files && disk.files[r.stage] == File(updated, true)
  }

  lemma UntouchedIsSafe(disk: Disk, source: nat, original: Bytes, updated: Bytes, backup: string)
    requires Untouched(disk, source, original)
    ensures CrashSafe(disk, original, updated, backup)
  {
    forall dir | Survives(disk.durable, disk.pending, dir) ensures Holds(disk, dir, CONFIG, original) {
      SurvivorsConfined(disk.durable, disk.pending, dir, CONFIG, {source});
    }
  }

  lemma ReplacingIsSafe(disk: Disk, r: Roles, original: Bytes, updated: Bytes, backup: string)
    requires Replacing(disk, r, original, updated, backup)
    ensures CrashSafe(disk, original, updated, backup)
  {
    forall dir | Survives(disk.durable, disk.pending, dir)
      ensures || Holds(disk, dir, CONFIG, original)
              || (Holds(disk, dir, CONFIG, updated) && Holds(disk, dir, backup, original))
    {
      SurvivorsConfined(disk.durable, disk.pending, dir, CONFIG, {r.source, r.stage});
      SurvivorsConfined(disk.durable, disk.pending, dir, backup, {r.backup});
    }
  }

  // ----- System calls -----

  function Fresh(disk: Disk): (inode: nat)
    ensures inode !in disk.files
  {
    FreshAbove(disk.files.Keys, 0)
  }

  function FreshAbove(used: set<nat>, n: nat): (inode: nat)
    ensures inode !in used
    decreases |set x | x in used && x >= n|
  {
    if n !in used then n
    else
      assert (set x | x in used && x >= n) == (set x | x in used && x >= n + 1) + {n};
      FreshAbove(used, n + 1)
  }

  function Changed(disk: Disk, op: DirOp): Disk {
    disk.(pending := disk.pending + [op])
  }

  function Filled(disk: Disk, inode: nat, file: File): Disk {
    disk.(files := disk.files[inode := file])
  }

  function Flushed(disk: Disk): Disk {
    Disk(disk.files, Live(disk), [])
  }

  /** Which calls of the edit succeed. */
  datatype Outcomes = Outcomes(create: bool, write: bool, sync: bool, stat: bool)
  datatype Faults = Faults(validFirst: bool, rewritten: bool, loaded: bool, backup: Outcomes, backupDirSync: bool,
                           stage: Outcomes, notCancelled: bool, validSecond: bool, rename: bool, finalDirSync: bool,
                           validLast: bool)

  predicate Completes(o: Outcomes) {
    o.create && o.write && o.sync && o.stat
  }

  predicate Succeeds(f: Faults) {
    && f.validFirst && f.rewritten && f.loaded && Completes(f.backup) && f.backupDirSync && Completes(f.stage)
    && f.notCancelled && f.validSecond && f.rename && f.finalDirSync && f.validLast
  }

  /** The locked directory, with every state it passes through. */
  class LockedDirectory {
    var disk: Disk
    var trace: seq<Disk>

    constructor (initial: Disk)
      ensures disk == initial && trace == [initial]
    {
      disk, trace := initial, [initial];
    }

    /** Every system call ends in a new state that a crash may interrupt. */
    method Enter(next: Disk)
      modifies this
      ensures disk == next && trace == old(trace) + [next]
    {
      disk := next;
      trace := trace + [next];
    }
  }

  // ----- Staging a file -----

  /** Between the two states only this name and this new inode were touched. */
  ghost predicate Beside(before: Disk, after: Disk, name: string, inode: nat) {
    && inode !in before.files
    && after.durable == before.durable
    && (forall i :: i in before.files ==> i in after.files && after.files[i] == before.files[i])
    && |before.pending| <= |after.pending| && after.pending[..|before.pending|] == before.pending
    && forall k :: |before.pending| <= k < |after.pending| ==>
         after.pending[k] == Link(name, inode) || after.pending[k] == Unlink(name)
  }

  /** Staging one name leaves every other name confined. */
  lemma BesideKeepsConfined(before: Disk, after: Disk, name: string, inode: nat, other: string, inodes: set<nat>)
    requires Beside(before, after, name, inode) && other != name && Confined(before, other, inodes)
    ensures Confined(after, other, inodes)
  {
    forall op | op in after.pending ensures Respects(op, other, inodes) {
      var k :| 0 <= k < |after.pending| && after.pending[k] == op;
      if k < |before.pending| {
        assert before.pending[k] == op;
      }
    }
  }

  lemma ChangeKeepsConfined(disk: Disk, op: DirOp, name: string, inodes: set<nat>)
    requires Confined(disk, name, inodes) && Respects(op, name, inodes)
    ensures Confined(Changed(disk, op), name, inodes)
  {
    assert forall o :: o in Changed(disk, op).pending ==> o in disk.pending || o == op;
  }

  /** Flushing makes the visible directory the durable one. */
  lemma FlushKeepsConfined(disk: Disk, name: string, inodes: set<nat>)
    requires Confined(disk, name, inodes)
    ensures Confined(Flushed(disk), name, inodes)
  {
    LiveSurvives(disk.durable, disk.pending);
    SurvivorsConfined(disk.durable, disk.pending, Live(disk), name, inodes);
  }

  lemma LiveChange(disk: Disk, op: DirOp)
    ensures Live(Changed(disk, op)) == Applied(Live(disk), op)
  {
    assert Changed(disk, op).pending[..|disk.pending|] == disk.pending;
  }

  /** Exclusive creation, complete write, sync and stat; an incomplete stage is removed again. */
  method WriteExclusive(dir: LockedDirectory, name: string, data: Bytes, o: Outcomes) returns (ok: bool, inode: nat)
    modifies dir
    ensures old(dir.trace) <= dir.trace && (old(dir.disk) == dir.disk || Beside(old(dir.disk), dir.disk, name, inode))
    ensures forall k :: |old(dir.trace)| <= k < |dir.trace| ==> Beside(old(dir.disk), dir.trace[k], name, inode)
    ensures ok <==> Completes(o) && name !in Live(old(dir.disk))
    ensures !ok ==> Live(dir.disk) == Live(old(dir.disk))
    ensures !(o.create && name !in Live(old(dir.disk))) ==> dir.trace == old(dir.trace)
    ensures o.create && name !in Live(old(dir.disk)) ==>
              CreatedUnsynced(dir.trace[|old(dir.trace)|..], inode, o.write && o.sync)
    ensures ok ==> inode in dir.disk.files && dir.disk.files[inode] == File(data, true)
                   && Beside(old(dir.disk), dir.disk, name, inode)
                   && dir.disk.pending == old(dir.disk.pending) + [Link(name, inode)]
  {
    hide Beside, Live, CreatedUnsynced;
    inode := Fresh(dir.disk);
    if !o.create || name in Live(dir.disk) {
      return false, inode;
    }
    ghost var before, trace, last := dir.disk, dir.trace, [];
    BesideCreate(before, name, inode);
    dir.Enter(Changed(Filled(dir.disk, inode, File("", false)), Link(name, inode)));
    ghost var first := dir.disk;
    BesideFill(before, dir.disk, name, inode, File(data, false));
    dir.Enter(Filled(dir.disk, inode, File(data, false)));
    ghost var second := dir.disk;
    if o.write && o.sync {
      BesideFill(before, dir.disk, name, inode, File(data, true));
      dir.Enter(Filled(dir.disk, inode, File(data, true)));
      last := [dir.disk];
    }
    ok := o.write && o.sync && o.stat;
    if !ok {
      BesideUnlink(before, dir.disk, name, inode);
      LinkUnlink(before, dir.disk, name, inode);
      dir.Enter(Changed(dir.disk, Unlink(name)));
      last := last + [dir.disk];
    }
    assert dir.trace == trace + ([first, second] + last);
    CreatedStates(first, second, last, inode, o.write && o.sync);
  }

  lemma CreatedStates(first: Disk, second: Disk, last: seq<Disk>, inode: nat, synced: bool)
    requires inode in first.files && !first.files[inode].synced && inode in second.files && !second.files[inode].synced
    requires synced ==> last != []
    requires forall k :: 0 <= k < |last| ==> inode in last[k].files && last[k].files[inode].synced == synced
    ensures CreatedUnsynced([first, second] + last, inode, synced)
  {
  }

  lemma BesideCreate(before: Disk, name: string, inode: nat)
    requires inode !in before.files
    ensures Beside(before, Changed(Filled(before, inode, File("", false)), Link(name, inode)), name, inode)
  {
  }

  lemma BesideFill(before: Disk, after: Disk, name: string, inode: nat, file: File)
    requires Beside(before, after, name, inode)
    ensures Beside(before, Filled(after, inode, file), name, inode)
  {
  }

  lemma BesideUnlink(before: Disk, after: Disk, name: string, inode: nat)
    requires Beside(before, after, name, inode)
    ensures Beside(before, Changed(after, Unlink(name)), name, inode)
  {
  }

  /** A new file is certain only from the sync on, and never without one. */
  ghost predicate CreatedUnsynced(states: seq<Disk>, inode: nat, synced: bool) {
    && |states| >= 2 && (synced ==> |states| >= 3)
    && forall k :: 0 <= k < |states| ==>
         inode in states[k].files && (states[k].files[inode].synced <==> synced && k >= 2)
  }

  /** Linking a new name and unlinking it again is not seen. */
  lemma LinkUnlink(before: Disk, after: Disk, name: string, inode: nat)
    requires after.durable == before.durable && after.pending == before.pending + [Link(name, inode)]
    requires name !in Live(before)
    ensures Live(Changed(after, Unlink(name))) == Live(before)
  {
    LiveChange(after, Unlink(name));
    LiveChange(before, Link(name, inode));
    assert Live(after) == Live(Changed(before, Link(name, inode)));
    assert Live(before)[name := inode] - {name} == Live(before);
  }

  // ----- The edit -----

  predicate NameApart(backup: string, temporary: string) {
    backup != CONFIG && temporary != CONFIG && temporary != backup
  }

  /** Random suffixes cannot make the three names meet. */
  lemma NamesApart(a: string, b: string)
    ensures NameApart(CONFIG + ".before-providers-" + a, ".config.toml.providers-" + b)
  {
    var backup, temporary := CONFIG + ".before-providers-" + a, ".config.toml.providers-" + b;
    assert |backup| > |CONFIG|;
    assert temporary[0] == '.' && backup[0] == 'c' && CONFIG[0] == 'c';
  }

  /** Staging any other name keeps an untouched configuration safe. */
  lemma StagingIsSafe(before: Disk, after: Disk, name: string, inode: nat, source: nat, original: Bytes,
                      updated: Bytes, backup: string)
    requires Untouched(before, source, original) && Beside(before, after, name, inode) && name != CONFIG
    ensures Untouched(after, source, original) && CrashSafe(after, original, updated, backup)
  {
    BesideKeepsConfined(before, after, name, inode, CONFIG, {source});
    UntouchedIsSafe(after, source, original, updated, backup);
  }

  /** What the caller is told. */
  datatype Edit = Edit(changed: bool, backedUp: bool, failed: bool)

  /** The durable original-byte copy. */
  method BackUp(dir: LockedDirectory, source: nat, original: Bytes, ghost updated: Bytes, backup: string,
                o: Outcomes, dirSync: bool)
    returns (written: bool, ok: bool, inode: nat)
    requires Untouched(dir.disk, source, original) && backup != CONFIG
    modifies dir
    ensures old(dir.trace) <= dir.trace
    ensures forall k :: |old(dir.trace)| <= k < |dir.trace| ==> CrashSafe(dir.trace[k], original, updated, backup)
    ensures Untouched(dir.disk, source, original)
    ensures written <==> Completes(o) && backup !in Live(old(dir.disk))
    ensures ok <==> written && dirSync
    ensures ok ==> BackedUp(dir.disk, Roles(source, inode, 0), original, backup)
    ensures ok ==> Live(dir.disk) == Live(old(dir.disk))[backup := inode]
  {
    ghost var before, mark := dir.disk, |dir.trace|;
    written, inode := WriteExclusive(dir, backup, original, o);
    forall k | mark <= k < |dir.trace|
      ensures CrashSafe(dir.trace[k], original, updated, backup)
    {
      StagingIsSafe(before, dir.trace[k], backup, inode, source, original, updated, backup);
    }
    if dir.disk != before {
      StagingIsSafe(before, dir.disk, backup, inode, source, original, updated, backup);
    }
    ok := written && dirSync;
    if ok {
      ghost var staged := dir.disk;
      assert staged == Changed(staged.(pending := before.pending), Link(backup, inode));
      LiveChange(staged.(pending := before.pending), Link(backup, inode));
      FlushKeepsConfined(staged, CONFIG, {source});
      dir.Enter(Flushed(dir.disk));
      UntouchedIsSafe(dir.disk, source, original, updated, backup);
    }
  }

  lemma RenameReplaces(disk: Disk, r: Roles, original: Bytes, updated: Bytes, backup: string, temporary: string)
    requires Replacing(disk, r, original, updated, backup) && NameApart(backup, temporary)
    ensures Replacing(Changed(disk, Rename(temporary, CONFIG, r.stage)), r, original, updated, backup)
  {
    ChangeKeepsConfined(disk, Rename(temporary, CONFIG, r.stage), CONFIG, {r.source, r.stage});
    ChangeKeepsConfined(disk, Rename(temporary, CONFIG, r.stage), backup, {r.backup});
  }

  lemma UnlinkKeeps(disk: Disk, r: Roles, original: Bytes, updated: Bytes, backup: string, temporary: string)
    requires Replacing(disk, r, original, updated, backup) && NameApart(backup, temporary)
    ensures Replacing(Changed(disk, Unlink(temporary)), r, original, updated, backup)
  {
    ChangeKeepsConfined(disk, Unlink(temporary), CONFIG, {r.source, r.stage});
    ChangeKeepsConfined(disk, Unlink(temporary), backup, {r.backup});
  }

  lemma FlushKeeps(disk: Disk, r: Roles, original: Bytes, updated: Bytes, backup: string)
    requires Replacing(disk, r, original, updated, backup)
    ensures Replacing(Flushed(disk), r, original, updated, backup)
  {
    FlushKeepsConfined(disk, CONFIG, {r.source, r.stage});
    FlushKeepsConfined(disk, backup, {r.backup});
  }

  /** Every crash leaves the updated configuration and its backup. */
  ghost predicate Committed(disk: Disk, updated: Bytes, original: Bytes, backup: string) {
    forall dir :: Survives(disk.durable, disk.pending, dir) ==>
      Holds(disk, dir, CONFIG, updated) && Holds(disk, dir, backup, original)
  }

  lemma ConfinedCommits(disk: Disk, r: Roles, original: Bytes, updated: Bytes, backup: string)
    requires Replacing(disk, r, original, updated, backup) && Confined(disk, CONFIG, {r.stage})
    ensures Committed(disk, updated, original, backup)
  {
    forall dir | Survives(disk.durable, disk.pending, dir)
      ensures Holds(disk, dir, CONFIG, updated) && Holds(disk, dir, backup, original)
    {
      SurvivorsConfined(disk.durable, disk.pending, dir, CONFIG, {r.stage});
      SurvivorsConfined(disk.durable, disk.pending, dir, backup, {r.backup});
    }
  }

  /** Removing the temporary name again leaves an unreplaced configuration alone. */
  lemma UnlinkUntouched(disk: Disk, source: nat, original: Bytes, temporary: string)
    requires Untouched(disk, source, original) && temporary != CONFIG
    ensures Untouched(Changed(disk, Unlink(temporary)), source, original)
  {
    ChangeKeepsConfined(disk, Unlink(temporary), CONFIG, {source});
  }

  /** Every process reads this inode as the configuration. */
  ghost predicate Reads(disk: Disk, inode: nat) {
    CONFIG in Live(disk) && Live(disk)[CONFIG] == inode
  }

  lemma RenameIsSeen(disk: Disk, temporary: string, stage: nat)
    ensures Reads(Changed(disk, Rename(temporary, CONFIG, stage)), stage)
  {
    LiveChange(disk, Rename(temporary, CONFIG, stage));
  }

  lemma FlushIsNotSeen(disk: Disk, inode: nat)
    requires Reads(disk, inode)
    ensures Reads(Flushed(disk), inode)
  {
  }

  lemma ReadsUpdated(disk: Disk, r: Roles, original: Bytes, updated: Bytes, backup: string)
    requires Replacing(disk, r, original, updated, backup) && Reads(disk, r.stage)
    ensures Holds(disk, Live(disk), CONFIG, updated)
  {
  }

  lemma UnlinkIsNotSeen(disk: Disk, updated: Bytes, temporary: string)
    requires Holds(disk, Live(disk), CONFIG, updated) && temporary != CONFIG
    ensures Holds(Changed(disk, Unlink(temporary)), Live(Changed(disk, Unlink(temporary))), CONFIG, updated)
  {
    LiveChange(disk, Unlink(temporary));
  }

  /** Once the rename is flushed, no crash brings the original back. */
  lemma FlushCommits(disk: Disk, r: Roles, original: Bytes, updated: Bytes, backup: string, temporary: string)
    requires Replacing(disk, r, original, updated, backup) && NameApart(backup, temporary)
    requires Reads(disk, r.stage)
    ensures Committed(Changed(Flushed(disk), Unlink(temporary)), updated, original, backup)
  {
    var flushed := Flushed(disk);
    FlushKeeps(disk, r, original, updated, backup);
    UnlinkKeeps(flushed, r, original, updated, backup, temporary);
    assert Confined(flushed, CONFIG, {r.stage});
    ChangeKeepsConfined(flushed, Unlink(temporary), CONFIG, {r.stage});
    ConfinedCommits(Changed(flushed, Unlink(temporary)), r, original, updated, backup);
  }

  /** The rename and the directory sync that makes it permanent. */
  method Install(dir: LockedDirectory, ghost r: Roles, stage: nat, original: Bytes, updated: Bytes, backup: string,
                 temporary: string, sync: bool)
    requires Replacing(dir.disk, r, original, updated, backup) && NameApart(backup, temporary) && r.stage == stage
    modifies dir
    ensures old(dir.trace) <= dir.trace
    ensures forall k :: |old(dir.trace)| <= k < |dir.trace| ==> CrashSafe(dir.trace[k], original, updated, backup)
    ensures Replacing(dir.disk, r, original, updated, backup)
    ensures Holds(dir.disk, Live(dir.disk), CONFIG, updated)
    ensures sync ==> Committed(Changed(dir.disk, Unlink(temporary)), updated, original, backup)
  {
    hide Replacing, CrashSafe, Committed, Holds, NameApart, Live, Reads, Changed, Flushed;
    RenameReplaces(dir.disk, r, original, updated, backup, temporary);
    RenameIsSeen(dir.disk, temporary, stage);
    dir.Enter(Changed(dir.disk, Rename(temporary, CONFIG, stage)));
    ReplacingIsSafe(dir.disk, r, original, updated, backup);
    if sync {
      FlushKeeps(dir.disk, r, original, updated, backup);
      FlushIsNotSeen(dir.disk, stage);
      FlushCommits(dir.disk, r, original, updated, backup, temporary);
      dir.Enter(Flushed(dir.disk));
      ReplacingIsSafe(dir.disk, r, original, updated, backup);
    }
    ReadsUpdated(dir.disk, r, original, updated, backup);
  }

  /** From the staged replacement to the end, including the deferred removal of the temporary name. */
  method Replace(dir: LockedDirectory, ghost r: Roles, stage: nat, original: Bytes, updated: Bytes, backup: string,
                 temporary: string, f: Faults)
    returns (changed: bool, ok: bool)
    requires Replacing(dir.disk, r, original, updated, backup) && NameApart(backup, temporary) && r.stage == stage
    requires Untouched(dir.disk, r.source, original) && temporary != CONFIG
    modifies dir
    ensures old(dir.trace) <= dir.trace
    ensures forall k :: |old(dir.trace)| <= k < |dir.trace| ==> CrashSafe(dir.trace[k], original, updated, backup)
    ensures CrashSafe(dir.disk, original, updated, backup)
    ensures changed <==> f.notCancelled && f.validSecond && f.rename
    ensures ok <==> changed && f.finalDirSync && f.validLast
    ensures ok ==> Committed(dir.disk, updated, original, backup)
    ensures changed ==> Holds(dir.disk, Live(dir.disk), CONFIG, updated)
    ensures !changed ==> Untouched(dir.disk, r.source, original)
  {
    hide Replacing, CrashSafe, Committed, Holds, Untouched, NameApart, Live;
    changed := f.notCancelled && f.validSecond && f.rename;
    ok := changed && f.finalDirSync && f.validLast;
    if changed {
      Install(dir, r, stage, original, updated, backup, temporary, f.finalDirSync);
      UnlinkIsNotSeen(dir.disk, updated, temporary);
    } else {
      UnlinkUntouched(dir.disk, r.source, original, temporary);
    }
    UnlinkKeeps(dir.disk, r, original, updated, backup, temporary);
    dir.Enter(Changed(dir.disk, Unlink(temporary)));
    ReplacingIsSafe(dir.disk, r, original, updated, backup);
  }

  /** The whole edit. Whatever fails and wherever power is lost, config.toml is the original or the update, and
      beside an update the backup is complete; a successful change survives every later crash. */
  method EditProviderPreset(dir: LockedDirectory, source: nat, original: Bytes, updated: Bytes,
                            backupSuffix: string, stageSuffix: string, f: Faults)
    returns (edit: Edit)
    requires Untouched(dir.disk, source, original)
    modifies dir
    ensures old(dir.trace) <= dir.trace
    ensures var backup := CONFIG + ".before-providers-" + backupSuffix;
            && (forall k :: |old(dir.trace)| <= k < |dir.trace| ==> CrashSafe(dir.trace[k], original, updated, backup))
            && CrashSafe(dir.disk, original, updated, backup)
            && (edit.changed && !edit.failed ==> Committed(dir.disk, updated, original, backup))
            && (edit.changed ==> edit.backedUp && Holds(dir.disk, Live(dir.disk), CONFIG, updated))
            && (!edit.changed ==> Untouched(dir.disk, source, original))
            && (edit.changed && !edit.failed <==>
                (updated != original && Succeeds(f) && backup !in Live(old(dir.disk))
                 && ".config.toml.providers-" + stageSuffix !in Live(old(dir.disk))))
            && (edit.backedUp <==> (f.validFirst && f.rewritten && f.loaded && updated != original
                                    && Completes(f.backup) && backup !in Live(old(dir.disk))))
            && (edit.changed <==> (edit.backedUp && f.backupDirSync && Completes(f.stage)
                                   && ".config.toml.providers-" + stageSuffix !in Live(old(dir.disk))
                                   && f.notCancelled && f.validSecond && f.rename))
            && (!edit.failed && !edit.changed <==> (f.validFirst && f.rewritten && f.loaded && updated == original))
  {
    hide CrashSafe, Committed, Holds, Survives, Live, CreatedUnsynced;
    var backup, temporary := CONFIG + ".before-providers-" + backupSuffix, ".config.toml.providers-" + stageSuffix;
    NamesApart(backupSuffix, stageSuffix);
    UntouchedIsSafe(dir.disk, source, original, updated, backup);
    if !f.validFirst || !f.rewritten || !f.loaded {
      return Edit(false, false, true);
    }
    if updated == original {
      return Edit(false, false, false);
    }
    var written, durable, copy := BackUp(dir, source, original, updated, backup, f.backup, f.backupDirSync);
    UntouchedIsSafe(dir.disk, source, original, updated, backup);
    if !durable {
      return Edit(false, written, true);
    }
    ghost var before, mark := dir.disk, |dir.trace|;
    var staged, stage := WriteExclusive(dir, temporary, updated, f.stage);
    forall k | mark <= k < |dir.trace| ensures CrashSafe(dir.trace[k], original, updated, backup) {
      StagingIsSafe(before, dir.trace[k], temporary, stage, source, original, updated, backup);
    }
    if dir.disk != before {
      StagingIsSafe(before, dir.disk, temporary, stage, source, original, updated, backup);
    }
    if !staged {
      return Edit(false, true, true);
    }
    ghost var r := Roles(source, copy, stage);
    BesideKeepsConfined(before, dir.disk, temporary, stage, backup, {copy});
    ghost var ready := dir.disk;
    assert Confined(ready, CONFIG, {source, stage});
    var changed, ok := Replace(dir, r, stage, original, updated, backup, temporary, f);
    edit := Edit(changed, true, !ok);
  }
}
