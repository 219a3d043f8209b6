/** The switch journal: snapshot, guarded rollback, and recovery after a crash. */
module Transaction {
  import opened Options
  import opened Accounts
  import opened Clients
  import opened Disk

  // ---- What the calls do ---------------------------------------------------------

  function SnapshotStorages(files: seq<Snapshot>): set<Storage> {
    set b | b in files :: b.client.storage
  }

  /** Snapshots the clients from index i on, one per storage. */
  function Snap(io: Schedule, w: World, cs: seq<Client>, i: nat, taken: seq<Snapshot>)
    : (World, Option<seq<Snapshot>>)
    requires i <= |cs|
    decreases |cs| - i
  {
    if i == |cs| then (w, Some(taken))
    else if cs[i].storage in SnapshotStorages(taken) then Snap(io, w, cs, i + 1, taken)
    else
      var (w1, r) := ReadFile(io, w, cs[i].storage);
      match r
      case ReadError => (w1, None)
      case Bytes(c) => Snap(io, w1, cs, i + 1, taken + [Snapshot(cs[i], c, true)])
      case NotFound => Snap(io, w1, cs, i + 1, taken + [Snapshot(cs[i], Empty, false)])
  }

  function PrepareEffect(io: Schedule, w: World, cs: seq<Client>, auth: Auth): (World, Option<Tx>) {
    if w.disk.journal != NoJournal then (w, None)
    else
      var state := ReadState(w.disk.state);
      var (w1, files) := Snap(io, w, cs, 0, []);
      if files.None? then (w1, None)
      else
        var tx := Tx(files.value, Encode(auth), state);
        var (w2, ok) := WriteJournal(io, w1, tx);
        (w2, if ok then Some(tx) else None)
  }

  predicate Acceptable(b: Snapshot, next: Content, r: ReadResult) {
    match r
    case ReadError => false
    case NotFound => !b.had
    case Bytes(c) => c == b.before || c == next
  }

  /** Reads every file from index i on and compares it with what the switch left. */
  function Preflight(io: Schedule, w: World, tx: Tx, i: nat): (World, bool)
    requires i <= |tx.files|
    decreases |tx.files| - i
  {
    if i == |tx.files| then (w, true)
    else
      var (w1, r) := ReadFile(io, w, tx.files[i].client.storage);
      if Acceptable(tx.files[i], tx.next, r) then Preflight(io, w1, tx, i + 1) else (w1, false)
  }

  predicate Unwritten(b: Snapshot, r: ReadResult) {
    match r
    case ReadError => false
    case NotFound => !b.had
    case Bytes(c) => b.had && c == b.before
  }

  /** Puts one file back. */
  function PutBack(io: Schedule, w: World, b: Snapshot): (World, bool) {
    if b.had then WriteFile(io, w, b.client.storage, b.before)
    else RemoveFile(io, w, b.client.storage)
  }

  /** Restores the first i files, last one first. */
  function Restore(io: Schedule, w: World, tx: Tx, i: nat): (World, bool)
    requires i <= |tx.files|
    decreases i
  {
    if i == 0 then (w, true)
    else
      var b := tx.files[i - 1];
      var (w1, r) := ReadFile(io, w, b.client.storage);
      if Unwritten(b, r) then Restore(io, w1, tx, i - 1)
      else
        var (w2, ok) := PutBack(io, w1, b);
        if ok then Restore(io, w2, tx, i - 1) else (w2, false)
  }

  function RollbackEffect(io: Schedule, w: World, tx: Tx): (World, bool) {
    var (w1, fine) := Preflight(io, w, tx, 0);
    if !fine then (w1, false)
    else
      var (w2, restored) := Restore(io, w1, tx, |tx.files|);
      if !restored then (w2, false)
      else
        var (w3, ok) := WriteStateFile(io, w2, tx.state);
        if !ok then (w3, false) else RemoveJournal(io, w3)
  }

  predicate Quiet(tx: Tx, probe: Client -> Answer) {
    forall b :: b in tx.files ==> InspectClient(b.client, probe(b.client)).process == ProcNone
  }

  function RecoverEffect(io: Schedule, w: World, probe: Client -> Answer): (World, bool) {
    if w.disk.journal == NoJournal then (w, true)
    else
      var (w1, ok) := Touch(io, w);
      if !ok || w.disk.journal == Garbled then (w1, false)
      else if !Quiet(w.disk.journal.tx, probe) then (w1, false)
      else RollbackEffect(io, w1, w.disk.journal.tx)
  }

  // ---- The calls -------------------------------------------------------------------

  method Prepare(m: Machine, cs: seq<Client>, auth: Auth) returns (tx: Option<Tx>)
    modifies m
    ensures (m.Now(), tx) == PrepareEffect(m.io, old(m.Now()), cs, auth)
  {
    if m.disk.journal != NoJournal {
      return None;
    }
    var state := ReadState(m.disk.state);
    var files: seq<Snapshot> := [];
    var seen: set<Storage> := {};
    var i := 0;
    ghost var w0 := m.Now();
    while i < |cs|
      invariant 0 <= i <= |cs|
      invariant seen == SnapshotStorages(files)
      invariant Snap(m.io, w0, cs, 0, []) == Snap(m.io, m.Now(), cs, i, files)
    {
      var c := cs[i];
      if c.storage !in seen {
        seen := seen + {c.storage};
        var r := m.Read(c.storage);
        match r {
          case ReadError => return None;
          case Bytes(content) => files := files + [Snapshot(c, content, true)];
          case NotFound => files := files + [Snapshot(c, Empty, false)];
        }
      }
      i := i + 1;
    }
    var t := Tx(files, Encode(auth), state);
    var ok := m.PutJournal(t);
    tx := if ok then Some(t) else None;
  }

  method Rollback(m: Machine, tx: Tx) returns (ok: bool)
    modifies m
    ensures (m.Now(), ok) == RollbackEffect(m.io, old(m.Now()), tx)
  {
    ghost var w0 := m.Now();
    var i := 0;
    while i < |tx.files|
      invariant 0 <= i <= |tx.files|
      invariant Preflight(m.io, w0, tx, 0) == Preflight(m.io, m.Now(), tx, i)
    {
      var r := m.Read(tx.files[i].client.storage);
      if !Acceptable(tx.files[i], tx.next, r) {
        return false;
      }
      i := i + 1;
    }
    ghost var w1 := m.Now();
    i := |tx.files|;
    while i > 0
      invariant 0 <= i <= |tx.files|
      invariant Restore(m.io, w1, tx, |tx.files|) == Restore(m.io, m.Now(), tx, i)
    {
      var b := tx.files[i - 1];
      var r := m.Read(b.client.storage);
      if !Unwritten(b, r) {
        if b.had {
          ok := m.Write(b.client.storage, b.before);
        } else {
          ok := m.Remove(b.client.storage);
        }
        if !ok {
          return;
        }
      }
      i := i - 1;
    }
    ok := m.PutState(tx.state);
    if !ok {
      return;
    }
    ok := m.DropJournal();
  }

  method RecoverTransaction(m: Machine, probe: Client -> Answer) returns (ok: bool)
    modifies m
    ensures (m.Now(), ok) == RecoverEffect(m.io, old(m.Now()), probe)
  {
    if m.disk.journal == NoJournal {
      return true;
    }
    ok := m.Glance();
    if !ok || m.disk.journal == Garbled {
      return false;
    }
    var tx := m.disk.journal.tx;
    var i := 0;
    while i < |tx.files|
      invariant 0 <= i <= |tx.files|
      invariant forall k :: 0 <= k < i ==>
        InspectClient(tx.files[k].client, probe(tx.files[k].client)).process == ProcNone
    {
      var st := InspectClient(tx.files[i].client, probe(tx.files[i].client));
      if st.process != ProcNone {
        return false;
      }
      i := i + 1;
    }
    ok := Rollback(m, tx);
  }
}
