/** The durable files a switch touches, and the I/O calls it makes on them. Every call
    consults an arbitrary schedule of fates, so a statement over all schedules covers
    every pattern of I/O failures and a crash between any two steps. */
module Disk {
  import opened Options
  import opened Accounts
  import opened Clients

  /** Bytes of a client's auth.json. `layout` tells apart different byte strings that
      decode to the same bundle; layout 0 is the one this program writes. */
  datatype Content = Empty | Junk(tag: int) | Bundle(auth: Auth, layout: int)

  function Encode(a: Auth): Content {
    Bundle(a, 0)
  }

  /** loadClientAuth on bytes already read. */
  function Decode(c: Content): Option<Auth> {
    if c.Bundle? && IsBundle(c.auth) then Some(c.auth) else None
  }

  /** state.json as parsed; a missing field is None. */
  datatype StateRec = StateRec(version: Option<int>, current: Option<Option<Name>>, rest: int)

  /** Store.State: a missing or unreadable file reads as the defaults. */
  function ReadState(file: Option<StateRec>): StateRec {
    var r := if file.Some? then file.value else StateRec(None, None, 0);
    r.(version := if r.version.None? then Some(1) else r.version,
       current := if r.current.None? then Some(None) else r.current)
  }

  /** What one client file held before the switch. */
  datatype Snapshot = Snapshot(client: Client, before: Content, had: bool)

  datatype Tx = Tx(files: seq<Snapshot>, next: Content, state: StateRec)

  /** switch-journal.json. */
  datatype JournalFile = NoJournal | Journal(tx: Tx) | Garbled

  datatype Disk = Disk(
    files: map<Storage, Content>, journal: JournalFile, state: Option<StateRec>, lib: Library)

  /** FailsAfter: the effect is durable but the call reports an error. Dies: the process
      is killed before the effect. */
  datatype Fate = Works | Fails | FailsAfter | Dies

  type Schedule = nat -> Fate

  /** A running (or killed) process over a disk; `clock` counts its I/O calls. */
  datatype World = World(disk: Disk, up: bool, clock: nat)

  function Start(d: Disk): World {
    World(d, true, 0)
  }

  function After(io: Schedule, w: World): World {
    w.(clock := w.clock + 1, up := w.up && io(w.clock) != Dies)
  }

  predicate Succeeds(io: Schedule, w: World) {
    w.up && io(w.clock) == Works
  }

  predicate Lands(io: Schedule, w: World) {
    w.up && (io(w.clock) == Works || io(w.clock) == FailsAfter)
  }

  datatype ReadResult = Bytes(content: Content) | NotFound | ReadError

  function Lookup(files: map<Storage, Content>, s: Storage): Option<Content> {
    if s in files then Some(files[s]) else None
  }

  function ReadFile(io: Schedule, w: World, s: Storage): (World, ReadResult) {
    (After(io, w),
     if !Succeeds(io, w) then ReadError
     else if s in w.disk.files then Bytes(w.disk.files[s]) else NotFound)
  }

  function WriteFile(io: Schedule, w: World, s: Storage, c: Content): (World, bool) {
    var w' := After(io, w);
    (if Lands(io, w) then w'.(disk := w.disk.(files := w.disk.files[s := c])) else w', Succeeds(io, w))
  }

  /** Removing a missing file counts as done, as the callers treat it. */
  function RemoveFile(io: Schedule, w: World, s: Storage): (World, bool) {
    var w' := After(io, w);
    (if Lands(io, w) then w'.(disk := w.disk.(files := w.disk.files - {s})) else w', Succeeds(io, w))
  }

  function WriteStateFile(io: Schedule, w: World, r: StateRec): (World, bool) {
    var w' := After(io, w);
    (if Lands(io, w) then w'.(disk := w.disk.(state := Some(r))) else w', Succeeds(io, w))
  }

  /** The rename is the last step that can fail, so a failed journal write leaves no journal. */
  function WriteJournal(io: Schedule, w: World, tx: Tx): (World, bool) {
    var w' := After(io, w);
    (if Succeeds(io, w) then w'.(disk := w.disk.(journal := Journal(tx))) else w', Succeeds(io, w))
  }

  function RemoveJournal(io: Schedule, w: World): (World, bool) {
    var w' := After(io, w);
    (if Succeeds(io, w) then w'.(disk := w.disk.(journal := NoJournal)) else w', Succeeds(io, w))
  }

  function SetStored(lib: Library, n: Name, s: Stored): Library {
    if n in lib.slots then lib.(slots := lib.slots[n := lib.slots[n].(stored := s)])
    else Library(InsertName(lib.listing, n), lib.slots[n := Slot(s, None)])
  }

  function SetRevision(lib: Library, n: Name, r: Option<int>): Library {
    if n in lib.slots then lib.(slots := lib.slots[n := lib.slots[n].(revision := r)]) else lib
  }

  /** Writes auth.json of a slot. */
  function WriteStored(io: Schedule, w: World, n: Name, s: Stored): (World, bool) {
    var w' := After(io, w);
    (if Lands(io, w) then w'.(disk := w.disk.(lib := SetStored(w.disk.lib, n, s))) else w', Succeeds(io, w))
  }

  /** Writes or removes meta.json of a slot. */
  function WriteRevision(io: Schedule, w: World, n: Name, r: Option<int>): (World, bool) {
    var w' := After(io, w);
    (if Lands(io, w) then w'.(disk := w.disk.(lib := SetRevision(w.disk.lib, n, r))) else w', Succeeds(io, w))
  }

  /** A read whose value the caller already knows from the disk; only its fate matters. */
  function Touch(io: Schedule, w: World): (World, bool) {
    (After(io, w), Succeeds(io, w))
  }

  /** The process and its files. Each call below is one I/O operation. */
  class Machine {
    const io: Schedule
    var disk: Disk
    var up: bool
    var clock: nat

    constructor (io: Schedule, d: Disk)
      ensures this.io == io && Now() == Start(d)
    {
      this.io := io;
      disk, up, clock := d, true, 0;
    }

    function Now(): World
      reads this
    {
      World(disk, up, clock)
    }

    /** Spends one I/O call and reports its fate. */
    method Call() returns (f: Fate)
      modifies this`up, this`clock
      ensures Now() == After(io, old(Now()))
      ensures f == if old(up) then io(old(clock)) else Dies
    {
      f := if up then io(clock) else Dies;
      clock := clock + 1;
      up := up && f != Dies;
    }

    method Read(s: Storage) returns (r: ReadResult)
      modifies this`up, this`clock
      ensures (Now(), r) == ReadFile(io, old(Now()), s)
    {
      var f := Call();
      r := if f != Works then ReadError else if s in disk.files then Bytes(disk.files[s]) else NotFound;
    }

    /** A write that reports an error may still have landed; no other file is touched, and a
        process that dies in it leaves the old content. */
    method Write(s: Storage, c: Content) returns (ok: bool)
      modifies this
      ensures (Now(), ok) == WriteFile(io, old(Now()), s, c)
      ensures forall t :: t != s ==> Lookup(disk.files, t) == Lookup(old(disk).files, t)
      ensures Lookup(disk.files, s) == Some(c) || Lookup(disk.files, s) == Lookup(old(disk).files, s)
      ensures ok ==> up && Lookup(disk.files, s) == Some(c)
      ensures !up ==> !ok && disk == old(disk)
      ensures (disk.journal, disk.state, disk.lib) == (old(disk).journal, old(disk).state, old(disk).lib)
    {
      var f := Call();
      if f == Works || f == FailsAfter {
        disk := disk.(files := disk.files[s := c]);
      }
      ok := f == Works;
    }

    method Remove(s: Storage) returns (ok: bool)
      modifies this
      ensures (Now(), ok) == RemoveFile(io, old(Now()), s)
    {
      var f := Call();
      if f == Works || f == FailsAfter {
        disk := disk.(files := disk.files - {s});
      }
      ok := f == Works;
    }

    method PutState(r: StateRec) returns (ok: bool)
      modifies this
      ensures (Now(), ok) == WriteStateFile(io, old(Now()), r)
    {
      var f := Call();
      if f == Works || f == FailsAfter {
        disk := disk.(state := Some(r));
      }
      ok := f == Works;
    }

    /** All or nothing: a journal write that fails, or in which the process dies, changes nothing. */
    method PutJournal(tx: Tx) returns (ok: bool)
      modifies this
      ensures (Now(), ok) == WriteJournal(io, old(Now()), tx)
      ensures ok ==> up && disk == old(disk).(journal := Journal(tx))
      ensures !ok ==> disk == old(disk)
    {
      var f := Call();
      if f == Works {
        disk := disk.(journal := Journal(tx));
      }
      ok := f == Works;
    }

    method DropJournal() returns (ok: bool)
      modifies this
      ensures (Now(), ok) == RemoveJournal(io, old(Now()))
    {
      var f := Call();
      if f == Works {
        disk := disk.(journal := NoJournal);
      }
      ok := f == Works;
    }

    method PutStored(n: Name, s: Stored) returns (ok: bool)
      modifies this
      ensures (Now(), ok) == WriteStored(io, old(Now()), n, s)
    {
      var f := Call();
      if f == Works || f == FailsAfter {
        disk := disk.(lib := SetStored(disk.lib, n, s));
      }
      ok := f == Works;
    }

    method PutRevision(n: Name, r: Option<int>) returns (ok: bool)
      modifies this
      ensures (Now(), ok) == WriteRevision(io, old(Now()), n, r)
    {
      var f := Call();
      if f == Works || f == FailsAfter {
        disk := disk.(lib := SetRevision(disk.lib, n, r));
      }
      ok := f == Works;
    }

    method Glance() returns (ok: bool)
      modifies this`up, this`clock
      ensures (Now(), ok) == Touch(io, old(Now()))
    {
      var f := Call();
      ok := f == Works;
    }
  }
}
