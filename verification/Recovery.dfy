/** What rollback and recovery guarantee, for every schedule of I/O fates. */
module Recovery {
  import opened Options
  import opened Accounts
  import opened Clients
  import opened Disk
  import opened Transaction

  ghost predicate Distinct(files: seq<Snapshot>) {
    forall i, j :: 0 <= i < j < |files| ==> files[i].client.storage != files[j].client.storage
  }

  /** What a file held before the switch: its bytes, or nothing. */
  function Original(b: Snapshot): Option<Content> {
    if b.had then Some(b.before) else None
  }

  function SnapshotOf(files: seq<Snapshot>, s: Storage): Option<Snapshot> {
    if files == [] then None
    else if files[|files| - 1].client.storage == s then Some(files[|files| - 1])
    else SnapshotOf(files[..|files| - 1], s)
  }

  lemma {:induction false} SnapshotOfSound(files: seq<Snapshot>, s: Storage)
    ensures SnapshotOf(files, s).Some? ==>
      SnapshotOf(files, s).value in files && SnapshotOf(files, s).value.client.storage == s
    ensures SnapshotOf(files, s).None? <==> s !in SnapshotStorages(files)
  {
    if files != [] {
      SnapshotOfSound(files[..|files| - 1], s);
      assert files == files[..|files| - 1] + [files[|files| - 1]];
    }
  }

  lemma SnapshotOfMember(files: seq<Snapshot>, s: Storage)
    ensures SnapshotOf(files, s).Some? ==>
      SnapshotOf(files, s).value in files && SnapshotOf(files, s).value.client.storage == s
    ensures SnapshotOf(files, s).None? <==> s !in SnapshotStorages(files)
    ensures Distinct(files) ==> forall k :: 0 <= k < |files| && files[k].client.storage == s ==>
      SnapshotOf(files, s) == Some(files[k])
  {
    SnapshotOfSound(files, s);
    if k :| 0 <= k < |files| && files[k].client.storage == s && Distinct(files) {
      assert files[k] in files && s in SnapshotStorages(files);
      var b := SnapshotOf(files, s).value;
      var j :| 0 <= j < |files| && files[j] == b;
      assert j == k;
    }
  }

  /** The file at s once everything the switch may have written is undone. */
  function Target(tx: Tx, files: map<Storage, Content>, s: Storage): Option<Content> {
    var b := SnapshotOf(tx.files, s);
    if b.Some? then Original(b.value) else Lookup(files, s)
  }

  /** The disk a completed rollback leaves. */
  function Restored(tx: Tx, d: Disk): Disk {
    Disk(map s | s in d.files.Keys + SnapshotStorages(tx.files) && Target(tx, d.files, s).Some?
           :: Target(tx, d.files, s).value,
         NoJournal, Some(tx.state), d.lib)
  }

  lemma RestoredLookup(tx: Tx, d: Disk, s: Storage)
    ensures Lookup(Restored(tx, d).files, s) == Target(tx, d.files, s)
  {
    SnapshotOfMember(tx.files, s);
  }

  lemma SameFiles(a: map<Storage, Content>, b: map<Storage, Content>)
    requires forall s :: Lookup(a, s) == Lookup(b, s)
    ensures a == b
  {
    forall s
      ensures s in a <==> s in b
      ensures s in a ==> a[s] == b[s]
    {
      assert Lookup(a, s) == Lookup(b, s);
    }
  }

  /** The current bytes are something the switch or the client itself left before it. */
  predicate Recognised(b: Snapshot, next: Content, current: Option<Content>) {
    if current.None? then !b.had else current.value == b.before || current.value == next
  }

  ghost predicate Guarded(tx: Tx, files: map<Storage, Content>) {
    forall k :: 0 <= k < |tx.files| ==>
      Recognised(tx.files[k], tx.next, Lookup(files, tx.files[k].client.storage))
  }

  lemma {:induction false} PreflightReads(io: Schedule, w: World, tx: Tx, i: nat)
    requires i <= |tx.files|
    ensures var (w', fine) := Preflight(io, w, tx, i);
      && w'.disk == w.disk
      && (w'.up ==> w.up)
      && (fine ==> forall k :: i <= k < |tx.files| ==>
            Recognised(tx.files[k], tx.next, Lookup(w.disk.files, tx.files[k].client.storage)))
      && (fine && i < |tx.files| ==> w'.up)
    decreases |tx.files| - i
  {
    if i < |tx.files| {
      var (w1, r) := ReadFile(io, w, tx.files[i].client.storage);
      if Acceptable(tx.files[i], tx.next, r) {
        PreflightReads(io, w1, tx, i + 1);
      }
    }
  }

  /** Partial restoration: every file is as found or as it was before the switch. */
  ghost predicate PartlyRestored(tx: Tx, f0: map<Storage, Content>, f1: map<Storage, Content>) {
    && (forall s :: s !in SnapshotStorages(tx.files) ==> Lookup(f1, s) == Lookup(f0, s))
    && (forall k :: 0 <= k < |tx.files| ==>
          var s := tx.files[k].client.storage;
          Lookup(f1, s) == Lookup(f0, s) || Lookup(f1, s) == Original(tx.files[k]))
  }

  /** What restoring the snapshots below index i leaves. */
  ghost predicate RestoredBelow(tx: Tx, f0: map<Storage, Content>, f1: map<Storage, Content>, i: nat, all: bool)
    requires i <= |tx.files|
  {
    && PartlyRestored(tx, f0, f1)
    && (forall k :: i <= k < |tx.files| ==>
          Lookup(f1, tx.files[k].client.storage) == Lookup(f0, tx.files[k].client.storage))
    && (all ==> forall k :: 0 <= k < i ==> Lookup(f1, tx.files[k].client.storage) == Original(tx.files[k]))
  }

  /** Snapshot i - 1 is restored first, then those below. */
  lemma RestoreStep(tx: Tx, f0: map<Storage, Content>, f1: map<Storage, Content>, f2: map<Storage, Content>, i: nat,
                    all: bool)
    requires Distinct(tx.files) && 0 < i <= |tx.files|
    requires forall s :: s != tx.files[i - 1].client.storage ==> Lookup(f1, s) == Lookup(f0, s)
    requires Lookup(f1, tx.files[i - 1].client.storage) == Original(tx.files[i - 1])
    requires RestoredBelow(tx, f1, f2, i - 1, all)
    ensures RestoredBelow(tx, f0, f2, i, all)
  {
    var b := tx.files[i - 1];
    assert Lookup(f2, b.client.storage) == Original(b);
    forall s | s !in SnapshotStorages(tx.files)
      ensures Lookup(f2, s) == Lookup(f0, s)
    {
      assert s != b.client.storage;
    }
  }

  lemma {:induction false} RestoreSteps(io: Schedule, w: World, tx: Tx, i: nat)
    requires Distinct(tx.files) && i <= |tx.files|
    ensures var (w', ok) := Restore(io, w, tx, i);
      && w'.disk == w.disk.(files := w'.disk.files)
      && (w'.up ==> w.up)
      && RestoredBelow(tx, w.disk.files, w'.disk.files, i, ok)
    decreases i
  {
    if i > 0 {
      var b := tx.files[i - 1];
      var (w1, r) := ReadFile(io, w, b.client.storage);
      if Unwritten(b, r) {
        RestoreSteps(io, w1, tx, i - 1);
      } else {
        var (w2, ok) := PutBack(io, w1, b);
        assert Lookup(w2.disk.files, b.client.storage) == Original(b) || w2.disk == w.disk;
        assert forall s :: s != b.client.storage ==> Lookup(w2.disk.files, s) == Lookup(w.disk.files, s);
        if ok {
          RestoreSteps(io, w2, tx, i - 1);
          var (w', all) := Restore(io, w2, tx, i - 1);
          RestoreStep(tx, w.disk.files, w2.disk.files, w'.disk.files, i, all);
        }
      }
    }
  }

  lemma PartlyRestoredSame(tx: Tx, d0: Disk, d1: Disk)
    requires Distinct(tx.files) && PartlyRestored(tx, d0.files, d1.files) && d1.lib == d0.lib
    ensures Restored(tx, d1) == Restored(tx, d0)
    ensures Guarded(tx, d0.files) ==> Guarded(tx, d1.files)
  {
    forall s
      ensures Lookup(Restored(tx, d1).files, s) == Lookup(Restored(tx, d0).files, s)
    {
      RestoredLookup(tx, d0, s);
      RestoredLookup(tx, d1, s);
      SnapshotOfMember(tx.files, s);
    }
    SameFiles(Restored(tx, d1).files, Restored(tx, d0).files);
  }

  /** Rollback is guarded, all or nothing in its journal, and restartable: if a file holds
      anything else nothing changes at all; otherwise it either completes, reaching the one
      restored disk, or keeps the journal and stays on the way to that same disk. */
  lemma RollbackOutcome(io: Schedule, w: World, tx: Tx)
    requires Distinct(tx.files)
    ensures var (w', ok) := RollbackEffect(io, w, tx);
      && (w'.up ==> w.up)
      && (ok ==> w'.up && Guarded(tx, w.disk.files) && w'.disk == Restored(tx, w.disk))
      && (!ok ==> w'.disk.journal == w.disk.journal && w'.disk.lib == w.disk.lib
                  && PartlyRestored(tx, w.disk.files, w'.disk.files)
                  && (w'.disk.state == w.disk.state || w'.disk.state == Some(tx.state)))
      && (!Guarded(tx, w.disk.files) ==> !ok && w'.disk == w.disk)
  {
    var (w1, fine) := Preflight(io, w, tx, 0);
    PreflightReads(io, w, tx, 0);
    if fine {
      var (w2, restored) := Restore(io, w1, tx, |tx.files|);
      RestoreSteps(io, w1, tx, |tx.files|);
      if restored {
        forall s
          ensures Lookup(w2.disk.files, s) == Lookup(Restored(tx, w.disk).files, s)
        {
          RestoredLookup(tx, w.disk, s);
          SnapshotOfMember(tx.files, s);
        }
        SameFiles(w2.disk.files, Restored(tx, w.disk).files);
      }
    }
  }

  /** With no I/O failure a guarded rollback completes. */
  lemma {:induction false} PreflightCompletes(io: Schedule, w: World, tx: Tx, i: nat)
    requires i <= |tx.files| && w.up && (forall n :: io(n) == Works) && Guarded(tx, w.disk.files)
    ensures Preflight(io, w, tx, i).1 && Preflight(io, w, tx, i).0.up
    decreases |tx.files| - i
  {
    if i < |tx.files| {
      var (w1, r) := ReadFile(io, w, tx.files[i].client.storage);
      assert Recognised(tx.files[i], tx.next, Lookup(w.disk.files, tx.files[i].client.storage));
      PreflightCompletes(io, w1, tx, i + 1);
    }
  }

  lemma {:induction false} RestoreCompletes(io: Schedule, w: World, tx: Tx, i: nat)
    requires i <= |tx.files| && w.up && (forall n :: io(n) == Works)
    ensures Restore(io, w, tx, i).1 && Restore(io, w, tx, i).0.up
    decreases i
  {
    if i > 0 {
      var b := tx.files[i - 1];
      var (w1, r) := ReadFile(io, w, b.client.storage);
      if Unwritten(b, r) {
        RestoreCompletes(io, w1, tx, i - 1);
      } else {
        RestoreCompletes(io, PutBack(io, w1, b).0, tx, i - 1);
      }
    }
  }

  lemma RollbackCompletes(io: Schedule, w: World, tx: Tx)
    requires Distinct(tx.files) && w.up && (forall n :: io(n) == Works)
    ensures RollbackEffect(io, w, tx).1 <==> Guarded(tx, w.disk.files)
  {
    RollbackOutcome(io, w, tx);
    if Guarded(tx, w.disk.files) {
      PreflightCompletes(io, w, tx, 0);
      PreflightReads(io, w, tx, 0);
      var w1 := Preflight(io, w, tx, 0).0;
      RestoreCompletes(io, w1, tx, |tx.files|);
    }
  }

  /** What a completed rollback takes from the clients: a file that holds something other than
      the switch wrote is changed if and only if it is journalled as absent before the switch,
      and then it was empty and is removed. */
  lemma RollbackDiscardsExactly(io: Schedule, w: World, tx: Tx, s: Storage, c: Content)
    requires Distinct(tx.files) && forall b :: b in tx.files && !b.had ==> b.before == Empty
    requires Lookup(w.disk.files, s) == Some(c) && c != tx.next
    requires RollbackEffect(io, w, tx).1
    ensures var after := Lookup(RollbackEffect(io, w, tx).0.disk.files, s);
      var b := SnapshotOf(tx.files, s);
      && (after != Some(c) <==> b.Some? && !b.value.had)
      && (after != Some(c) ==> c == Empty && after == None)
  {
    RollbackOutcome(io, w, tx);
    RestoredLookup(tx, w.disk, s);
    SnapshotOfMember(tx.files, s);
    var b := SnapshotOf(tx.files, s);
    if b.Some? {
      var k :| 0 <= k < |tx.files| && tx.files[k] == b.value;
      assert Recognised(tx.files[k], tx.next, Some(c));
    }
  }

  /** And it does happen: with the other files recognised, a rollback over an absent file that
      is empty now completes if no I/O fails, and removes the file whenever it completes. */
  lemma EmptyFileIsRemoved(io: Schedule, w: World, tx: Tx, b: Snapshot)
    requires Distinct(tx.files) && forall x :: x in tx.files && !x.had ==> x.before == Empty
    requires b in tx.files && !b.had && tx.next != Empty && Lookup(w.disk.files, b.client.storage) == Some(Empty)
    ensures var (w', ok) := RollbackEffect(io, w, tx);
      && (ok ==> b.client.storage !in w'.disk.files)
      && (w.up && Guarded(tx, w.disk.files) && (forall n :: io(n) == Works) ==> ok)
  {
    if w.up && forall n :: io(n) == Works {
      RollbackCompletes(io, w, tx);
    }
    SnapshotOfMember(tx.files, b.client.storage);
    assert b.client.storage in SnapshotStorages(tx.files);
    var k :| 0 <= k < |tx.files| && tx.files[k] == b;
    if RollbackEffect(io, w, tx).1 {
      RollbackDiscardsExactly(io, w, tx, b.client.storage, Empty);
    }
  }

  // ---- Recovery runs -------------------------------------------------------------

  /** One start-up: its I/O fates and its probe answers. */
  datatype StartUp = StartUp(io: Schedule, probe: Client -> Answer)

  /** Recovery is started again and again; each start-up may fail, be deferred or be killed. */
  function RecoverRun(d: Disk, runs: seq<StartUp>): Disk {
    if runs == [] then d
    else
      var last := runs[|runs| - 1];
      RecoverEffect(last.io, Start(RecoverRun(d, runs[..|runs| - 1])), last.probe).0.disk
  }

  /** A journalled client is out of the way exactly if the query found it stopped. */
  lemma QuietExactly(tx: Tx, probe: Client -> Answer)
    ensures Quiet(tx, probe) <==> forall b :: b in tx.files ==> probe(b.client) == NotRunning
  {
    assert forall c: Client :: InspectClient(c, probe(c)).process == ProcNone <==> probe(c) == NotRunning;
  }

  /** Start-up recovery succeeds only with every journalled client found stopped and every file
      recognised; with one that is not, it touches nothing. */
  lemma RecoverOutcome(io: Schedule, w: World, probe: Client -> Answer)
    requires w.disk.journal.Journal? && Distinct(w.disk.journal.tx.files)
    ensures var tx := w.disk.journal.tx; var (w', ok) := RecoverEffect(io, w, probe);
      && (w'.up ==> w.up)
      && (ok ==> w'.up && Guarded(tx, w.disk.files) && w'.disk == Restored(tx, w.disk)
                 && forall b :: b in tx.files ==> probe(b.client) == NotRunning)
      && (!ok ==> w'.disk.journal == w.disk.journal && w'.disk.lib == w.disk.lib
                  && PartlyRestored(tx, w.disk.files, w'.disk.files))
      && (!Guarded(tx, w.disk.files) || (exists b :: b in tx.files && probe(b.client) != NotRunning) ==>
            !ok && w'.disk == w.disk)
  {
    var (w1, ok) := Touch(io, w);
    QuietExactly(w.disk.journal.tx, probe);
    RollbackOutcome(io, w1, w.disk.journal.tx);
  }

  /** Without I/O errors it succeeds if and only if that is so. */
  lemma RecoverCompletesExactly(io: Schedule, w: World, probe: Client -> Answer)
    requires w.disk.journal.Journal? && Distinct(w.disk.journal.tx.files)
    requires w.up && forall n :: io(n) == Works
    ensures var tx := w.disk.journal.tx;
      RecoverEffect(io, w, probe).1 <==>
        (forall b :: b in tx.files ==> probe(b.client) == NotRunning) && Guarded(tx, w.disk.files)
  {
    QuietExactly(w.disk.journal.tx, probe);
    RollbackCompletes(io, Touch(io, w).0, w.disk.journal.tx);
  }

  /** Over every sequence of start-ups the disk is either still in recovery, with the same
      restored disk ahead of it, or is that restored disk. */
  lemma {:induction false} RecoverRunConverges(d: Disk, tx: Tx, runs: seq<StartUp>)
    requires d.journal == Journal(tx) && Distinct(tx.files)
    ensures var d' := RecoverRun(d, runs);
      || d' == Restored(tx, d)
      || (d'.journal == Journal(tx) && Restored(tx, d') == Restored(tx, d) && d'.lib == d.lib
          && (Guarded(tx, d.files) ==> Guarded(tx, d'.files)))
    ensures !Guarded(tx, d.files) ==> RecoverRun(d, runs) == d
  {
    if runs != [] {
      var before := RecoverRun(d, runs[..|runs| - 1]);
      RecoverRunConverges(d, tx, runs[..|runs| - 1]);
      if before.journal == Journal(tx) {
        var last := runs[|runs| - 1];
        RecoverOutcome(last.io, Start(before), last.probe);
        var d' := RecoverRun(d, runs);
        if d' != Restored(tx, before) {
          PartlyRestoredSame(tx, before, d');
        }
      }
    }
  }
}
