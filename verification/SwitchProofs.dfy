/** What one switch leaves behind, under every schedule of I/O fates and every crash. */
module SwitchProofs {
  import opened Options
  import opened Accounts
  import opened Clients
  import opened Disk
  import opened Reconcile
  import opened Store
  import opened Transaction
  import opened Recovery
  import opened Switch

  // ---- The disks a switch can leave ---------------------------------------------------

  /** A slot that is being saved holds the old bundle or the refreshed one, at the old revision or the next. */
  ghost predicate PartlySaved(lib0: Library, n: Name, a: Auth, slot: Slot)
    requires n in lib0.slots
  {
    && (slot.stored == lib0.slots[n].stored || slot.stored == Readable(a))
    && (slot.revision == lib0.slots[n].revision || slot.revision == Some(Following(lib0.slots[n].revision)))
  }

  /** Slots to be refreshed are saved at most partly; other slots are untouched. */
  ghost predicate SlotsInFlight(lib0: Library, lib: Library, updates: map<Name, Auth>) {
    && lib.listing == lib0.listing
    && lib.slots.Keys == lib0.slots.Keys
    && (forall n :: n in lib0.slots && n !in updates ==> lib.slots[n] == lib0.slots[n])
    && (forall n :: n in lib0.slots && n in updates ==> PartlySaved(lib0, n, updates[n], lib.slots[n]))
  }

  /** The refreshed bundles are saved, each with the next revision. */
  ghost predicate SlotsAdopted(lib0: Library, lib: Library, updates: map<Name, Auth>) {
    && lib.listing == lib0.listing
    && lib.slots.Keys == lib0.slots.Keys
    && forall n :: n in lib0.slots ==> lib.slots[n] == AdoptedSlot(lib0, updates, n)
  }

  function AdoptedSlot(lib0: Library, updates: map<Name, Auth>, n: Name): Slot
    requires n in lib0.slots
  {
    if n in updates then Slot(Readable(updates[n]), Some(Following(lib0.slots[n].revision))) else lib0.slots[n]
  }

  /** The journal belongs to files as they were in d0. */
  ghost predicate Faithful(tx: Tx, d0: Disk) {
    && Distinct(tx.files)
    && tx.state == ReadState(d0.state)
    && forall k :: 0 <= k < |tx.files| ==>
         && Original(tx.files[k]) == Lookup(d0.files, tx.files[k].client.storage)
         && (!tx.files[k].had ==> tx.files[k].before == Empty)
  }

  /** Each journalled file is as before or as the switch writes it; no other file changed. */
  ghost predicate FilesInFlight(tx: Tx, d0: Disk, files: map<Storage, Content>) {
    && (forall s :: s !in SnapshotStorages(tx.files) ==> Lookup(files, s) == Lookup(d0.files, s))
    && (forall k :: 0 <= k < |tx.files| ==>
          var s := tx.files[k].client.storage;
          Lookup(files, s) == Lookup(d0.files, s) || Lookup(files, s) == Some(tx.next))
  }

  ghost predicate StateInFlight(d0: Disk, name: Name, state: Option<StateRec>) {
    || state == d0.state
    || state == Some(ReadState(d0.state))
    || state == Some(Selected(name, ReadState(d0.state)))
  }

  /** The switch is unfinished: its journal is there, and unless clients rewrote files
      everything is as before or as intended. */
  ghost predicate InFlight(d0: Disk, tx: Tx, updates: map<Name, Auth>, name: Name,
                           writes: map<Storage, Option<Content>>, d: Disk) {
    && d.journal == Journal(tx)
    && SlotsInFlight(d0.lib, d.lib, updates)
    && (forall s :: s !in SnapshotStorages(tx.files) && s !in writes ==> Lookup(d.files, s) == Lookup(d0.files, s))
    && (writes == map[] ==> FilesInFlight(tx, d0, d.files) && StateInFlight(d0, name, d.state))
  }

  /** Files and state are as before the switch. */
  ghost predicate RolledBack(d0: Disk, tx: Tx, updates: map<Name, Auth>,
                             writes: map<Storage, Option<Content>>, d: Disk) {
    && d.journal == NoJournal
    && d.state == Some(ReadState(d0.state))
    && SlotsInFlight(d0.lib, d.lib, updates)
    && (forall s :: s in SnapshotStorages(tx.files) || s !in writes ==> Lookup(d.files, s) == Lookup(d0.files, s))
  }

  /** The switch took effect: journal gone, account selected, refreshed bundles saved, every
      affected file holds the seat, and a file no client rewrote holds exactly the new bytes. */
  ghost predicate Committed(d0: Disk, tx: Tx, updates: map<Name, Auth>, name: Name, id: Identity,
                            writes: map<Storage, Option<Content>>, d: Disk) {
    && d.journal == NoJournal
    && d.state == Some(Selected(name, ReadState(d0.state)))
    && SlotsAdopted(d0.lib, d.lib, updates)
    && (forall s :: s !in SnapshotStorages(tx.files) && s !in writes ==> Lookup(d.files, s) == Lookup(d0.files, s))
    && (forall s :: s in SnapshotStorages(tx.files) ==>
          && s in d.files && Decode(d.files[s]).Some? && SameSeat(Decode(d.files[s]).value.id, id)
          && (s !in writes ==> d.files[s] == tx.next))
  }

  /** The disk, and for a process that survived also its report, after the journal was written. */
  ghost predicate Ended(d0: Disk, tx: Tx, updates: map<Name, Auth>, name: Name, id: Identity,
                        writes: map<Storage, Option<Content>>, w: World, r: Result) {
    && (|| InFlight(d0, tx, updates, name, writes, w.disk)
        || RolledBack(d0, tx, updates, writes, w.disk)
        || Committed(d0, tx, updates, name, id, writes, w.disk))
    && (w.up ==>
          || (r.status == Completed && r.recovery == NotNeeded
              && (set s | s in r.written) == SnapshotStorages(tx.files)
              && Committed(d0, tx, updates, name, id, writes, w.disk))
          || (r.status == Failed && r.recovery == WasRestored
              && RolledBack(d0, tx, updates, writes, w.disk))
          || (r.status == Failed && r.recovery == RecoveryFailed
              && InFlight(d0, tx, updates, name, writes, w.disk)))
  }

  // ---- Reading --------------------------------------------------------------------------

  function FilesNamed(cs: seq<Client>, k: nat): set<(string, Storage)>
    requires k <= |cs|
  {
    set j | 0 <= j < k :: (cs[j].id, cs[j].storage)
  }

  /** Each client file is read once, however often its client is listed. */
  lemma {:induction false} ReadsOnce(io: Schedule, w: World, cs: seq<Client>, i: nat, lives: seq<Auth>)
    requires i <= |cs|
    ensures ReadLives(io, w, cs, i, lives).0.clock + |FilesNamed(cs, i)| == w.clock + |FilesNamed(cs, |cs|)|
    decreases |cs| - i
  {
    if i < |cs| {
      var c := cs[i];
      assert FilesNamed(cs, i + 1) == FilesNamed(cs, i) + {(c.id, c.storage)};
      assert Seen(cs, i) <==> (c.id, c.storage) in FilesNamed(cs, i);
      if Seen(cs, i) {
        assert FilesNamed(cs, i + 1) == FilesNamed(cs, i);
        ReadsOnce(io, w, cs, i + 1, lives);
      } else {
        var (w1, r) := ReadFile(io, w, c.storage);
        ReadsOnce(io, w1, cs, i + 1, lives + LiveOf(r));
      }
    }
  }

  // ---- Stage by stage --------------------------------------------------------------------

  ghost predicate Taken(d0: Disk, taken: seq<Snapshot>) {
    && Distinct(taken)
    && forall k :: 0 <= k < |taken| ==>
         && Original(taken[k]) == Lookup(d0.files, taken[k].client.storage)
         && (!taken[k].had ==> taken[k].before == Empty)
  }

  lemma {:induction false} SnapOutcome(io: Schedule, w: World, cs: seq<Client>, i: nat, taken: seq<Snapshot>)
    requires i <= |cs| && Taken(w.disk, taken) && SnapshotStorages(taken) == StoragesOf(cs[..i])
    ensures var (w', files) := Snap(io, w, cs, i, taken);
      && w'.disk == w.disk && (w'.up ==> w.up)
      && (files.Some? ==> Taken(w.disk, files.value) && SnapshotStorages(files.value) == StoragesOf(cs))
    decreases |cs| - i
  {
    if i == |cs| {
      assert cs[..i] == cs;
    } else {
      assert cs[..i + 1] == cs[..i] + [cs[i]];
      assert StoragesOf(cs[..i + 1]) == StoragesOf(cs[..i]) + {cs[i].storage};
      if cs[i].storage in SnapshotStorages(taken) {
        SnapOutcome(io, w, cs, i + 1, taken);
      } else {
        var (w1, r) := ReadFile(io, w, cs[i].storage);
        if r != ReadError {
          var b := if r.Bytes? then Snapshot(cs[i], r.content, true) else Snapshot(cs[i], Empty, false);
          TakenExtends(w.disk, taken, b);
          SnapOutcome(io, w1, cs, i + 1, taken + [b]);
        }
      }
    }
  }

  lemma TakenExtends(d: Disk, taken: seq<Snapshot>, b: Snapshot)
    requires Taken(d, taken) && b.client.storage !in SnapshotStorages(taken)
    requires Original(b) == Lookup(d.files, b.client.storage) && (!b.had ==> b.before == Empty)
    ensures Taken(d, taken + [b])
    ensures SnapshotStorages(taken + [b]) == SnapshotStorages(taken) + {b.client.storage}
  {
    forall k | 0 <= k < |taken|
      ensures taken[k].client.storage != b.client.storage
    {
      assert taken[k].client.storage in SnapshotStorages(taken);
    }
  }

  /** The journal is written only when none exists, and records every affected file. */
  lemma PrepareOutcome(io: Schedule, w: World, cs: seq<Client>, auth: Auth)
    ensures var (w', tx) := PrepareEffect(io, w, cs, auth);
      && (w'.up ==> w.up)
      && (tx.None? ==> w'.disk == w.disk)
      && (tx.Some? ==>
            && w.disk.journal == NoJournal && w'.up
            && w'.disk == w.disk.(journal := Journal(tx.value))
            && Faithful(tx.value, w.disk)
            && tx.value.next == Encode(auth)
            && SnapshotStorages(tx.value.files) == StoragesOf(cs))
  {
    assert cs[..0] == [];
    assert SnapshotStorages([]) == {} && StoragesOf(cs[..0]) == {};
    SnapOutcome(io, w, cs, 0, []);
    var (w1, files) := Snap(io, w, cs, 0, []);
    if w.disk.journal == NoJournal && files.Some? {
      assert Taken(w.disk, files.value);
    }
  }

  lemma {:induction false} WriteAllOutcome(io: Schedule, w: World, tx: Tx, i: nat)
    requires i <= |tx.files| && Distinct(tx.files)
    ensures var (w', ok) := WriteAll(io, w, tx, i);
      && w'.disk == w.disk.(files := w'.disk.files) && (w'.up ==> w.up)
      && (forall s :: s !in SnapshotStorages(tx.files) ==> Lookup(w'.disk.files, s) == Lookup(w.disk.files, s))
      && (forall k :: 0 <= k < i ==>
            Lookup(w'.disk.files, tx.files[k].client.storage) == Lookup(w.disk.files, tx.files[k].client.storage))
      && (forall k :: i <= k < |tx.files| ==>
            var s := tx.files[k].client.storage;
            (!ok && Lookup(w'.disk.files, s) == Lookup(w.disk.files, s)) || Lookup(w'.disk.files, s) == Some(tx.next))
    decreases |tx.files| - i
  {
    if i < |tx.files| {
      var (w1, ok) := WriteFile(io, w, tx.files[i].client.storage, tx.next);
      assert tx.files[i].client.storage in SnapshotStorages(tx.files);
      if ok {
        WriteAllOutcome(io, w1, tx, i + 1);
      }
    }
  }

  lemma ClientsWriteLookup(w: World, writes: map<Storage, Option<Content>>, s: Storage)
    ensures Lookup(ClientsWrite(w, writes).disk.files, s) ==
      if w.up && s in writes then writes[s] else Lookup(w.disk.files, s)
  {}

  lemma {:induction false} VerifyOutcome(io: Schedule, w: World, storages: seq<Storage>, id: Identity, i: nat)
    requires i <= |storages|
    ensures var (w', ok) := Verify(io, w, storages, id, i);
      && w'.disk == w.disk && (w'.up ==> w.up)
      && (ok ==> forall k :: i <= k < |storages| ==>
            var s := storages[k];
            s in w.disk.files && Decode(w.disk.files[s]).Some? && SameSeat(Decode(w.disk.files[s]).value.id, id))
    decreases |storages| - i
  {
    if i < |storages| {
      VerifyOutcome(io, ReadFile(io, w, storages[i]).0, storages, id, i + 1);
    }
  }

  lemma {:induction false} BackupKeepsDisk(io: Schedule, w: World, order: seq<Name>, i: nat)
    requires i <= |order|
    ensures var (w', ok) := Backup(io, w, order, i); w'.disk == w.disk && (w'.up ==> w.up)
    decreases |order| - i
  {
    if i < |order| {
      BackupKeepsDisk(io, Touch(io, Touch(io, w).0).0, order, i + 1);
    }
  }

  ghost predicate NoRepeats(order: seq<Name>) {
    forall i, j :: 0 <= i < j < |order| ==> order[i] != order[j]
  }

  lemma PutOutcome(io: Schedule, w: World, n: Name, auth: Auth)
    requires n in w.disk.lib.slots
    ensures var (w', ok) := PutEffect(io, w, n, auth, true); var lib, lib' := w.disk.lib, w'.disk.lib;
      && w'.disk == w.disk.(lib := lib') && (w'.up ==> w.up)
      && lib'.listing == lib.listing && lib'.slots.Keys == lib.slots.Keys
      && (forall m :: m in lib.slots && m != n ==> lib'.slots[m] == lib.slots[m])
      && PartlySaved(lib, n, auth, lib'.slots[n])
      && (ok ==> lib'.slots[n] == Slot(Readable(auth), Some(Following(lib.slots[n].revision))))
  {}

  /** What saving leaves of a slot that was to be refreshed. */
  ghost predicate SlotSaved(lib: Library, lib': Library, updates: map<Name, Auth>, n: Name, all: bool)
    requires n in updates && n in lib.slots && lib'.slots.Keys == lib.slots.Keys
  {
    if all then lib'.slots[n] == AdoptedSlot(lib, updates, n) else PartlySaved(lib, n, updates[n], lib'.slots[n])
  }

  /** The slots after saving the accounts of `todo`. */
  ghost predicate SavedAmong(lib: Library, lib': Library, updates: map<Name, Auth>, todo: seq<Name>, all: bool)
    requires forall n :: n in todo ==> n in updates && n in lib.slots
  {
    && lib'.listing == lib.listing
    && lib'.slots.Keys == lib.slots.Keys
    && (forall n :: n in lib.slots && n !in todo ==> lib'.slots[n] == lib.slots[n])
    && (forall n :: n in todo ==> SlotSaved(lib, lib', updates, n, all))
  }

  /** Slot n was saved first, then the rest. */
  lemma SavedStep(lib: Library, lib1: Library, lib': Library, updates: map<Name, Auth>, n: Name, rest: seq<Name>,
                  all: bool)
    requires n !in rest && n in updates && n in lib.slots
    requires forall m :: m in rest ==> m in updates && m in lib.slots
    requires lib1.listing == lib.listing && lib1.slots.Keys == lib.slots.Keys
    requires forall m :: m in lib.slots && m != n ==> lib1.slots[m] == lib.slots[m]
    requires lib1.slots[n] == AdoptedSlot(lib, updates, n)
    requires SavedAmong(lib1, lib', updates, rest, all)
    ensures SavedAmong(lib, lib', updates, [n] + rest, all)
  {
    assert lib'.slots[n] == lib1.slots[n];
    forall m | m in rest
      ensures SlotSaved(lib, lib', updates, m, all)
    {
      assert SlotSaved(lib1, lib', updates, m, all) && lib1.slots[m] == lib.slots[m];
    }
  }

  lemma {:induction false} PutAllOutcome(io: Schedule, w: World, updates: map<Name, Auth>, order: seq<Name>, i: nat)
    requires i <= |order| && NoRepeats(order)
    requires forall n :: n in order ==> n in updates && n in w.disk.lib.slots
    ensures var (w', ok) := PutAll(io, w, updates, order, i);
      && w'.disk == w.disk.(lib := w'.disk.lib) && (w'.up ==> w.up)
      && SavedAmong(w.disk.lib, w'.disk.lib, updates, order[i..], ok)
    decreases |order| - i
  {
    if i < |order| {
      var n, rest := order[i], order[i + 1..];
      var (w1, ok) := PutEffect(io, w, n, updates[n], true);
      PutOutcome(io, w, n, updates[n]);
      assert order[i..] == [n] + rest;
      assert n !in rest;
      if ok {
        PutAllOutcome(io, w1, updates, order, i + 1);
        var (w', saved) := PutAll(io, w1, updates, order, i + 1);
        SavedStep(w.disk.lib, w1.disk.lib, w'.disk.lib, updates, n, rest, saved);
      }
    }
  }

  lemma SavedSlots(lib: Library, lib': Library, updates: map<Name, Auth>, order: seq<Name>, all: bool)
    requires forall n :: n in order <==> n in updates
    requires forall n :: n in updates ==> n in lib.slots
    requires SavedAmong(lib, lib', updates, order, all)
    ensures SlotsInFlight(lib, lib', updates)
    ensures all ==> SlotsAdopted(lib, lib', updates)
  {}

  lemma {:induction false} PutBackAllOutcome(io: Schedule, w: World, lib0: Library, updates: map<Name, Auth>,
                                             order: seq<Name>, i: nat)
    requires i <= |order| && SlotsInFlight(lib0, w.disk.lib, updates)
    requires forall n :: n in order ==> n in updates && n in lib0.slots
    ensures var w' := PutBackAll(io, w, lib0.slots, order, i);
      && w'.disk == w.disk.(lib := w'.disk.lib) && (w'.up ==> w.up)
      && SlotsInFlight(lib0, w'.disk.lib, updates)
    decreases |order| - i
  {
    if i < |order| {
      var (w1, ok1) := WriteStored(io, w, order[i], lib0.slots[order[i]].stored);
      var (w2, ok2) := WriteRevision(io, w1, order[i], lib0.slots[order[i]].revision);
      assert SlotsInFlight(lib0, w1.disk.lib, updates);
      assert SlotsInFlight(lib0, w2.disk.lib, updates);
      PutBackAllOutcome(io, w2, lib0, updates, order, i + 1);
    }
  }

  /** Rolling back any unfinished switch ends as a rollback or leaves it unfinished. */
  lemma UndoOutcome(io: Schedule, w: World, d0: Disk, tx: Tx, updates: map<Name, Auth>, name: Name,
                    writes: map<Storage, Option<Content>>, kept: seq<Name>)
    requires Faithful(tx, d0) && InFlight(d0, tx, updates, name, writes, w.disk)
    ensures var (w', r) := Undo(io, w, tx, kept);
      && (w'.up ==> w.up) && w'.disk.lib == w.disk.lib && r.status == Failed
      && (r.recovery == WasRestored ==> RolledBack(d0, tx, updates, writes, w'.disk))
      && (r.recovery != WasRestored ==>
          r.recovery == RecoveryFailed && InFlight(d0, tx, updates, name, writes, w'.disk))
  {
    RollbackOutcome(io, w, tx);
    var (w', ok) := RollbackEffect(io, w, tx);
    if ok {
      forall s | s in SnapshotStorages(tx.files) || s !in writes
        ensures Lookup(w'.disk.files, s) == Lookup(d0.files, s)
      {
        RestoredLookup(tx, w.disk, s);
        SnapshotOfMember(tx.files, s);
        if s in SnapshotStorages(tx.files) {
          SnapshotOfIndex(tx.files, s);
        }
      }
    } else if writes == map[] {
      forall k | 0 <= k < |tx.files|
        ensures var s := tx.files[k].client.storage;
          Lookup(w'.disk.files, s) == Lookup(d0.files, s) || Lookup(w'.disk.files, s) == Some(tx.next)
      {
        assert Original(tx.files[k]) == Lookup(d0.files, tx.files[k].client.storage);
      }
    }
  }

  lemma SnapshotOfIndex(files: seq<Snapshot>, s: Storage)
    requires s in SnapshotStorages(files) && Distinct(files)
    ensures exists k :: 0 <= k < |files| && files[k].client.storage == s && SnapshotOf(files, s) == Some(files[k])
  {
    var b :| b in files && b.client.storage == s;
    var k :| 0 <= k < |files| && files[k] == b;
    SnapshotOfMember(files, s);
  }

  lemma UndoEnds(io: Schedule, w: World, d0: Disk, tx: Tx, updates: map<Name, Auth>, name: Name, id: Identity,
                 writes: map<Storage, Option<Content>>, kept: seq<Name>)
    requires Faithful(tx, d0) && InFlight(d0, tx, updates, name, writes, w.disk)
    ensures var (w', r) := Undo(io, w, tx, kept); Ended(d0, tx, updates, name, id, writes, w', r) && (w'.up ==> w.up)
  {
    UndoOutcome(io, w, d0, tx, updates, name, writes, kept);
  }

  /** Undoing after slots were saved also puts the slots back as far as the writes go. */
  lemma UndoAllEnds(io: Schedule, w: World, d0: Disk, tx: Tx, updates: map<Name, Auth>, name: Name, id: Identity,
                    writes: map<Storage, Option<Content>>, kept: seq<Name>, order: seq<Name>)
    requires Faithful(tx, d0) && InFlight(d0, tx, updates, name, writes, w.disk)
    requires forall n :: n in order ==> n in updates && n in d0.lib.slots
    ensures var (w1, r) := Undo(io, w, tx, kept);
      var w' := PutBackAll(io, w1, d0.lib.slots, order, 0);
      Ended(d0, tx, updates, name, id, writes, w', r) && (w'.up ==> w.up)
  {
    UndoOutcome(io, w, d0, tx, updates, name, writes, kept);
    var (w1, r) := Undo(io, w, tx, kept);
    PutBackAllOutcome(io, w1, d0.lib, updates, order, 0);
  }

  /** Written, selected and verified, not yet adopted. */
  ghost predicate Verified(d0: Disk, tx: Tx, updates: map<Name, Auth>, name: Name, id: Identity,
                           writes: map<Storage, Option<Content>>, d: Disk) {
    && InFlight(d0, tx, updates, name, writes, d)
    && d.lib == d0.lib
    && d.state == Some(Selected(name, ReadState(d0.state)))
    && (forall s :: s in SnapshotStorages(tx.files) ==>
          && s in d.files && Decode(d.files[s]).Some? && SameSeat(Decode(d.files[s]).value.id, id)
          && (s !in writes ==> d.files[s] == tx.next))
  }

  lemma PutAllKeepsFlight(io: Schedule, w: World, d0: Disk, tx: Tx, updates: map<Name, Auth>, name: Name, id: Identity,
                          writes: map<Storage, Option<Content>>, order: seq<Name>)
    requires Verified(d0, tx, updates, name, id, writes, w.disk)
    requires NoRepeats(order) && forall n :: n in order <==> n in updates
    requires forall n :: n in updates ==> n in d0.lib.slots
    ensures var (w', ok) := PutAll(io, w, updates, order, 0);
      && (w'.up ==> w.up)
      && InFlight(d0, tx, updates, name, writes, w'.disk)
      && (ok ==> Committed(d0, tx, updates, name, id, writes, w'.disk.(journal := NoJournal)))
  {
    PutAllOutcome(io, w, updates, order, 0);
    var (w', ok) := PutAll(io, w, updates, order, 0);
    SavedSlots(d0.lib, w'.disk.lib, updates, order, ok);
  }

  lemma WrittenAll(tx: Tx)
    ensures (set s | s in Paths(tx)) == SnapshotStorages(tx.files)
  {
    var written := Paths(tx);
    forall s | s in SnapshotStorages(tx.files)
      ensures s in written
    {
      var b :| b in tx.files && b.client.storage == s;
      var k :| 0 <= k < |tx.files| && tx.files[k] == b;
      assert written[k] == s;
    }
  }

  lemma CommitEnds(io: Schedule, w: World, d0: Disk, env: Env, tx: Tx, updates: map<Name, Auth>, name: Name,
                   id: Identity, kept: seq<Name>)
    requires Adoptable(d0.lib, updates) && Faithful(tx, d0)
    requires Verified(d0, tx, updates, name, id, env.appWrites, w.disk)
    ensures var (w', r) := Commit(io, w, env, updates, tx, kept);
      Ended(d0, tx, updates, name, id, env.appWrites, w', r) && (w'.up ==> w.up)
  {
    var order := PutOrder(env.order, w.disk.lib, updates);
    UniqMembers(env.order + w.disk.lib.listing, updates.Keys);
    assert forall n :: n in order <==> n in updates;
    var (w1, read) := Backup(io, w, order, 0);
    BackupKeepsDisk(io, w, order, 0);
    if !read {
      UndoEnds(io, w1, d0, tx, updates, name, id, env.appWrites, kept);
    } else {
      var (w2, saved) := PutAll(io, w1, updates, order, 0);
      PutAllKeepsFlight(io, w1, d0, tx, updates, name, id, env.appWrites, order);
      if !saved {
        UndoAllEnds(io, w2, d0, tx, updates, name, id, env.appWrites, kept, order);
      } else {
        var (w3, done) := RemoveJournal(io, w2);
        if !done {
          assert w3.disk == w2.disk;
          UndoAllEnds(io, w3, d0, tx, updates, name, id, env.appWrites, kept, order);
        } else {
          assert w3.disk == w2.disk.(journal := NoJournal);
          WrittenAll(tx);
        }
      }
    }
  }

  lemma WrittenInFlight(io: Schedule, w: World, d0: Disk, tx: Tx, updates: map<Name, Auth>, name: Name,
                        writes: map<Storage, Option<Content>>)
    requires Faithful(tx, d0) && w.disk == d0.(journal := Journal(tx))
    ensures var (w1, written) := WriteAll(io, w, tx, 0);
      && w1.disk == w.disk.(files := w1.disk.files) && (w1.up ==> w.up)
      && InFlight(d0, tx, updates, name, writes, w1.disk)
      && (written ==> forall s :: s in SnapshotStorages(tx.files) ==> Lookup(w1.disk.files, s) == Some(tx.next))
  {
    WriteAllOutcome(io, w, tx, 0);
  }

  lemma ClientsKeepInFlight(w2: World, d0: Disk, tx: Tx, updates: map<Name, Auth>, name: Name,
                            writes: map<Storage, Option<Content>>)
    requires InFlight(d0, tx, updates, name, writes, w2.disk)
    ensures InFlight(d0, tx, updates, name, writes, ClientsWrite(w2, writes).disk)
  {
    var w3 := ClientsWrite(w2, writes);
    forall s
      ensures Lookup(w3.disk.files, s) == if w2.up && s in writes then writes[s] else Lookup(w2.disk.files, s)
    {
      ClientsWriteLookup(w2, writes, s);
    }
  }

  lemma ApplyEnds(io: Schedule, w: World, d0: Disk, affected: seq<Client>, call: Call, env: Env,
                  updates: map<Name, Auth>, id: Identity, tx: Tx, kept: seq<Name>)
    requires Adoptable(d0.lib, updates) && Faithful(tx, d0)
    requires w.disk == d0.(journal := Journal(tx))
    requires SnapshotStorages(tx.files) == StoragesOf(affected)
    ensures var (w', r) := Apply(io, w, affected, call, env, updates, id, tx, kept);
      Ended(d0, tx, updates, call.name, id, env.appWrites, w', r) && (w'.up ==> w.up)
  {
    var (w1, written) := WriteAll(io, w, tx, 0);
    WrittenInFlight(io, w, d0, tx, updates, call.name, env.appWrites);
    if !written {
      UndoEnds(io, w1, d0, tx, updates, call.name, id, env.appWrites, kept);
    } else {
      var (w2, selected) := WriteStateFile(io, w1, Selected(call.name, ReadState(w1.disk.state)));
      assert InFlight(d0, tx, updates, call.name, env.appWrites, w2.disk);
      if !selected {
        UndoEnds(io, w2, d0, tx, updates, call.name, id, env.appWrites, kept);
      } else {
        var w3 := ClientsWrite(w2, env.appWrites);
        ClientsKeepInFlight(w2, d0, tx, updates, call.name, env.appWrites);
        if NeedsStart(affected, env, call) && !env.started {
          UndoEnds(io, w3, d0, tx, updates, call.name, id, env.appWrites, kept);
        } else {
          VerifyStage(io, w2, w3, d0, affected, call, env, updates, id, tx, kept);
        }
      }
    }
  }

  lemma VerifyStage(io: Schedule, w2: World, w3: World, d0: Disk, affected: seq<Client>, call: Call, env: Env,
                    updates: map<Name, Auth>, id: Identity, tx: Tx, kept: seq<Name>)
    requires Adoptable(d0.lib, updates) && Faithful(tx, d0)
    requires w3 == ClientsWrite(w2, env.appWrites)
    requires InFlight(d0, tx, updates, call.name, env.appWrites, w3.disk)
    requires w3.disk.lib == d0.lib && w3.disk.state == Some(Selected(call.name, ReadState(d0.state)))
    requires SnapshotStorages(tx.files) == StoragesOf(affected)
    requires forall s :: s in SnapshotStorages(tx.files) ==> Lookup(w2.disk.files, s) == Some(tx.next)
    ensures var storages := UniqueStorages(affected);
      var (w4, verified) := Verify(io, w3, storages, id, 0);
      var (w', r) := if !verified then Undo(io, w4, tx, kept)
                     else (VerifyKeepsDisk(io, w3, storages, id, 0); Commit(io, w4, env, updates, tx, kept));
      Ended(d0, tx, updates, call.name, id, env.appWrites, w', r) && (w'.up ==> w3.up)
  {
    var storages := UniqueStorages(affected);
    var (w4, verified) := Verify(io, w3, storages, id, 0);
    VerifyOutcome(io, w3, storages, id, 0);
    if !verified {
      UndoEnds(io, w4, d0, tx, updates, call.name, id, env.appWrites, kept);
    } else {
      UniqueStoragesMembers(affected);
      forall s | s in SnapshotStorages(tx.files)
        ensures s in w3.disk.files && Decode(w3.disk.files[s]).Some? && SameSeat(Decode(w3.disk.files[s]).value.id, id)
        ensures s !in env.appWrites ==> w3.disk.files[s] == tx.next
      {
        var k :| 0 <= k < |storages| && storages[k] == s;
        ClientsWriteLookup(w2, env.appWrites, s);
        assert Lookup(w2.disk.files, s) == Some(tx.next);
      }
      CommitEnds(io, w4, d0, env, tx, updates, call.name, id, kept);
    }
  }

  /** The journal the switch of this call writes, if it gets that far. */
  function JournalOf(io: Schedule, w: World, affected: seq<Client>, call: Call, updates: map<Name, Auth>): Option<Tx>
    requires Get(w.disk.lib, call.name).Some?
  {
    PrepareEffect(io, w, affected, Chosen(w.disk.lib, updates, call.name)).1
  }

  /** A switch either never starts, changing nothing, or ends unfinished with its journal,
      rolled back, or committed; and its report says which. */
  lemma ExecuteOutcome(io: Schedule, w: World, affected: seq<Client>, call: Call, env: Env, updates: map<Name, Auth>)
    requires Get(w.disk.lib, call.name).Some? && Adoptable(w.disk.lib, updates)
    ensures var (w', r) := Execute(io, w, affected, call, env, updates);
      var tx := JournalOf(io, w, affected, call, updates);
      var auth := Chosen(w.disk.lib, updates, call.name);
      && (w'.up ==> w.up)
      && (tx.None? ==> w'.disk == w.disk && r.status == Failed && r.recovery == NotNeeded)
      && (tx.Some? ==>
            && w.disk.journal == NoJournal && Faithful(tx.value, w.disk)
            && tx.value.next == Encode(auth) && SnapshotStorages(tx.value.files) == StoragesOf(affected)
            && Ended(w.disk, tx.value, updates, call.name, auth.id, env.appWrites, w', r))
  {
    var auth := Chosen(w.disk.lib, updates, call.name);
    var kept := Kept(w.disk.lib, updates, call.name);
    var (w1, tx) := PrepareEffect(io, w, affected, auth);
    PrepareOutcome(io, w, affected, auth);
    PrepareKeepsLibrary(io, w, affected, auth);
    if tx.Some? {
      ApplyEnds(io, w1, w.disk, affected, call, env, updates, auth.id, tx.value, kept);
    }
  }
}
