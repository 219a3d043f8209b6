/** Putting the account slots back after a failed switch: which slots it restores. */
module SlotRestore {
  import opened Options
  import opened Accounts
  import opened Clients
  import opened Disk
  import opened Reconcile
  import opened Store
  import opened Transaction
  import opened Recovery
  import opened Switch
  import opened SwitchProofs
  import Guarantees

  /** The process lives to make I/O call n, and the call takes effect. */
  predicate LandsAt(io: Schedule, w: World, n: nat) {
    w.up && (forall m | w.clock <= m < n :: io(m) != Dies) && (io(n) == Works || io(n) == FailsAfter)
  }

  lemma LandsLater(io: Schedule, w: World, n: nat)
    requires w.clock + 2 <= n
    ensures LandsAt(io, w, n) == LandsAt(io, After(io, After(io, w)), n)
  {
    var w2 := After(io, After(io, w));
    if LandsAt(io, w2, n) {
      forall m | w.clock <= m < n
        ensures io(m) != Dies
      {
        assert m == w.clock || m == w.clock + 1 || w2.clock <= m;
      }
    }
  }

  /** A slot after its two files were written back: each is the remembered one if its write landed. */
  function PutBackSlot(slot: Slot, remembered: Slot, stored: bool, revision: bool): Slot {
    Slot(if stored then remembered.stored else slot.stored, if revision then remembered.revision else slot.revision)
  }

  lemma {:induction false} PutBackFrame(io: Schedule, w: World, slots: map<Name, Slot>, order: seq<Name>, i: nat)
    requires i <= |order| && forall n :: n in order ==> n in slots && n in w.disk.lib.slots
    ensures var w' := PutBackAll(io, w, slots, order, i); var lib, lib' := w.disk.lib, w'.disk.lib;
      && w'.disk == w.disk.(lib := lib') && w'.clock == w.clock + 2 * (|order| - i) && (w'.up ==> w.up)
      && lib'.listing == lib.listing && lib'.slots.Keys == lib.slots.Keys
      && forall n :: n in lib.slots && n !in order[i..] ==> lib'.slots[n] == lib.slots[n]
    decreases |order| - i
  {
    if i < |order| {
      var w1 := WriteStored(io, w, order[i], slots[order[i]].stored).0;
      var w2 := WriteRevision(io, w1, order[i], slots[order[i]].revision).0;
      assert order[i..] == [order[i]] + order[i + 1..];
      PutBackFrame(io, w2, slots, order, i + 1);
    }
  }

  /** The two writes that put one slot back. */
  lemma BothBack(io: Schedule, w: World, n: Name, slot: Slot, w2: World)
    requires n in w.disk.lib.slots
    requires w2 == WriteRevision(io, WriteStored(io, w, n, slot.stored).0, n, slot.revision).0
    ensures w2.clock == w.clock + 2 && w2.up == After(io, After(io, w)).up
    ensures w2.disk.lib.slots.Keys == w.disk.lib.slots.Keys
    ensures forall m :: m in w.disk.lib.slots && m != n ==> w2.disk.lib.slots[m] == w.disk.lib.slots[m]
    ensures w2.disk.lib.slots[n]
         == PutBackSlot(w.disk.lib.slots[n], slot, LandsAt(io, w, w.clock), LandsAt(io, w, w.clock + 1))
  {}

  /** Putting the first slot of the rest back leaves the others and goes on. */
  lemma OneBack(io: Schedule, w: World, slots: map<Name, Slot>, order: seq<Name>, i: nat, w': World) returns (w2: World)
    requires i < |order| && NoRepeats(order)
    requires forall n :: n in order ==> n in slots && n in w.disk.lib.slots
    requires w' == PutBackAll(io, w, slots, order, i)
    ensures w' == PutBackAll(io, w2, slots, order, i + 1)
    ensures w2.clock == w.clock + 2 && w2.up == After(io, After(io, w)).up
    ensures w2.disk.lib.slots.Keys == w.disk.lib.slots.Keys
    ensures forall n :: n in w.disk.lib.slots && n != order[i] ==> w2.disk.lib.slots[n] == w.disk.lib.slots[n]
    ensures w2.disk.lib.slots[order[i]] ==
      PutBackSlot(w.disk.lib.slots[order[i]], slots[order[i]], LandsAt(io, w, w.clock), LandsAt(io, w, w.clock + 1))
  {
    var n := order[i];
    w2 := WriteRevision(io, WriteStored(io, w, n, slots[n].stored).0, n, slots[n].revision).0;
    BothBack(io, w, n, slots[n], w2);
  }

  /** Slot n is what the two writes at I/O calls c and c + 1, as far as they land, make of it. */
  ghost predicate Landed(io: Schedule, w: World, w': World, n: Name, slot: Slot, c: nat) {
    && n in w.disk.lib.slots && n in w'.disk.lib.slots
    && w'.disk.lib.slots[n] == PutBackSlot(w.disk.lib.slots[n], slot, LandsAt(io, w, c), LandsAt(io, w, c + 1))
  }

  /** The world before the k-th slot is put back: that slot is untouched, and whether a later call
      lands is as it was. */
  lemma {:induction false} BackUntil(io: Schedule, w: World, slots: map<Name, Slot>, order: seq<Name>, i: nat, k: nat,
                                     w': World)
    returns (wk: World)
    requires i <= k < |order| && NoRepeats(order)
    requires forall n :: n in order ==> n in slots && n in w.disk.lib.slots
    requires w' == PutBackAll(io, w, slots, order, i)
    ensures w' == PutBackAll(io, wk, slots, order, k) && wk.clock == w.clock + 2 * (k - i)
    ensures wk.disk.lib.slots.Keys == w.disk.lib.slots.Keys
    ensures wk.disk.lib.slots[order[k]] == w.disk.lib.slots[order[k]]
    ensures forall m: nat :: wk.clock <= m ==> LandsAt(io, wk, m) == LandsAt(io, w, m)
    decreases k - i
  {
    wk := w;
    if i < k {
      var w2 := OneBack(io, w, slots, order, i, w');
      wk := BackUntil(io, w2, slots, order, i + 1, k, w');
      forall m: nat | wk.clock <= m
        ensures LandsAt(io, wk, m) == LandsAt(io, w, m)
      {
        LandsShift(io, w, w2, m);
      }
    }
  }

  /** Putting the slots of `order` back from index i on: of the k-th slot, exactly the writes that
      land take effect. */
  lemma PutBackExactly(io: Schedule, w: World, slots: map<Name, Slot>, order: seq<Name>, i: nat, k: nat, w': World)
    requires i <= k < |order| && NoRepeats(order)
    requires forall n :: n in order ==> n in slots && n in w.disk.lib.slots
    requires w' == PutBackAll(io, w, slots, order, i)
    ensures var c, n := w.clock + 2 * (k - i), order[k];
      && n in w'.disk.lib.slots
      && w'.disk.lib.slots[n]
         == PutBackSlot(w.disk.lib.slots[n], slots[n], LandsAt(io, w, c), LandsAt(io, w, c + 1))
  {
    var wk := BackUntil(io, w, slots, order, i, k, w');
    var w2 := OneBack(io, wk, slots, order, k, w');
    PutBackKeeps(io, w2, slots, order, k, w');
  }

  lemma PutBackKeeps(io: Schedule, w2: World, slots: map<Name, Slot>, order: seq<Name>, k: nat, w': World)
    requires k < |order| && NoRepeats(order)
    requires forall n :: n in order ==> n in slots && n in w2.disk.lib.slots
    requires w' == PutBackAll(io, w2, slots, order, k + 1)
    ensures order[k] in w'.disk.lib.slots && w'.disk.lib.slots[order[k]] == w2.disk.lib.slots[order[k]]
  {
    PutBackFrame(io, w2, slots, order, k + 1);
    assert order[k] !in order[k + 1..];
  }

  lemma LandsShift(io: Schedule, w: World, w2: World, n: nat)
    requires w2.clock == w.clock + 2 && w2.up == After(io, After(io, w)).up && w.clock + 2 <= n
    ensures LandsAt(io, w, n) == LandsAt(io, w2, n)
  {
    LandsLater(io, w, n);
    LandsSame(io, w2, After(io, After(io, w)), n);
  }

  lemma LandsSame(io: Schedule, w: World, v: World, n: nat)
    requires w.clock == v.clock && w.up == v.up
    ensures LandsAt(io, w, n) == LandsAt(io, v, n)
  {}

  /** The k-th slot of the order comes back: each of its two files was written back or had not changed. */
  ghost predicate ComesBack(io: Schedule, w: World, lib0: Library, order: seq<Name>, k: nat)
    requires k < |order| && order[k] in lib0.slots && order[k] in w.disk.lib.slots
  {
    var n, c := order[k], w.clock + 2 * k;
    && (LandsAt(io, w, c) || w.disk.lib.slots[n].stored == lib0.slots[n].stored)
    && (LandsAt(io, w, c + 1) || w.disk.lib.slots[n].revision == lib0.slots[n].revision)
  }

  lemma ComesBackExactly(io: Schedule, w: World, lib0: Library, order: seq<Name>, k: nat)
    requires k < |order| && NoRepeats(order) && forall n :: n in order ==> n in lib0.slots && n in w.disk.lib.slots
    ensures var lib' := PutBackAll(io, w, lib0.slots, order, 0).disk.lib;
      order[k] in lib'.slots
      && (lib'.slots[order[k]] == lib0.slots[order[k]] <==> ComesBack(io, w, lib0, order, k))
  {
    PutBackExactly(io, w, lib0.slots, order, 0, k, PutBackAll(io, w, lib0.slots, order, 0));
  }

  /** Every slot of the order comes back. */
  ghost predicate AllComeBack(io: Schedule, w: World, lib0: Library, order: seq<Name>)
    requires forall n :: n in order ==> n in lib0.slots && n in w.disk.lib.slots
  {
    forall k :: 0 <= k < |order| ==> ComesBack(io, w, lib0, order, k)
  }

  /** From partly saved slots, the library is as before the switch if and only if every slot comes back. */
  lemma RestoredExactly(io: Schedule, w: World, lib0: Library, updates: map<Name, Auth>, order: seq<Name>)
    requires SlotsInFlight(lib0, w.disk.lib, updates) && NoRepeats(order)
    requires forall n :: n in order ==> n in lib0.slots
    requires forall n :: n in updates ==> n in order
    ensures PutBackAll(io, w, lib0.slots, order, 0).disk.lib == lib0 <==> AllComeBack(io, w, lib0, order)
  {
    PutBackFrame(io, w, lib0.slots, order, 0);
    assert order[0..] == order;
    var lib' := PutBackAll(io, w, lib0.slots, order, 0).disk.lib;
    forall k | 0 <= k < |order|
      ensures order[k] in lib'.slots
      ensures lib'.slots[order[k]] == lib0.slots[order[k]] <==> ComesBack(io, w, lib0, order, k)
    {
      ComesBackExactly(io, w, lib0, order, k);
    }
    SameLibrary(w.disk.lib, lib', lib0, updates, order);
  }

  lemma SameLibrary(lib: Library, lib': Library, lib0: Library, updates: map<Name, Auth>, order: seq<Name>)
    requires SlotsInFlight(lib0, lib, updates) && forall n :: n in updates ==> n in order
    requires lib'.listing == lib.listing && lib'.slots.Keys == lib.slots.Keys
    requires forall n :: n in order ==> n in lib0.slots
    requires forall n :: n in lib.slots && n !in order ==> lib'.slots[n] == lib.slots[n]
    ensures lib' == lib0 <==> forall k :: 0 <= k < |order| ==> lib'.slots[order[k]] == lib0.slots[order[k]]
  {
    if forall k :: 0 <= k < |order| ==> lib'.slots[order[k]] == lib0.slots[order[k]] {
      forall n | n in lib0.slots
        ensures lib'.slots[n] == lib0.slots[n]
      {
        if n in order {
          var k :| 0 <= k < |order| && order[k] == n;
        }
      }
      assert lib'.slots == lib0.slots;
    }
  }

  /** The last calls before the clock of w, as many as n slots take to put back, all take effect. */
  ghost predicate LastLand(io: Schedule, w: World, n: nat) {
    forall m :: w.clock - 2 * n <= m < w.clock && m >= 0 ==> io(m) == Works || io(m) == FailsAfter
  }

  lemma {:induction false} OrderSize(order: seq<Name>)
    requires NoRepeats(order)
    ensures |order| == |set n | n in order|
  {
    if order != [] {
      var init, last := order[..|order| - 1], order[|order| - 1];
      OrderSize(init);
      assert (set n | n in order) == (set n | n in init) + {last};
      assert last !in init;
    }
  }

  lemma PutBackRestores(io: Schedule, w: World, lib0: Library, updates: map<Name, Auth>, order: seq<Name>, w': World)
    requires SlotsInFlight(lib0, w.disk.lib, updates) && NoRepeats(order)
    requires forall n :: n in order <==> n in updates
    requires forall n :: n in order ==> n in lib0.slots
    requires w' == PutBackAll(io, w, lib0.slots, order, 0)
    ensures w'.up && LastLand(io, w', |updates|) ==> w'.disk.lib == lib0
  {
    PutBackFrame(io, w, lib0.slots, order, 0);
    RestoredExactly(io, w, lib0, updates, order);
    OrderSize(order);
    assert (set n | n in order) == updates.Keys;
    if w'.up && LastLand(io, w', |updates|) {
      LastLandAll(io, w, w', lib0, order);
    }
  }

  lemma LastLandAll(io: Schedule, w: World, w': World, lib0: Library, order: seq<Name>)
    requires w.up && w'.clock == w.clock + 2 * |order| && LastLand(io, w', |order|)
    requires forall n :: n in order ==> n in lib0.slots && n in w.disk.lib.slots
    ensures AllComeBack(io, w, lib0, order)
  {
    forall k | 0 <= k < |order|
      ensures ComesBack(io, w, lib0, order, k)
    {
      LastLandAt(io, w, w', |order|, w.clock + 2 * k);
      LastLandAt(io, w, w', |order|, w.clock + 2 * k + 1);
    }
  }

  lemma LastLandAt(io: Schedule, w: World, w': World, n: nat, m: nat)
    requires w.up && w'.clock == w.clock + 2 * n && LastLand(io, w', n) && w.clock <= m < w'.clock
    ensures LandsAt(io, w, m)
  {
    forall k | w.clock <= k <= m
      ensures io(k) == Works || io(k) == FailsAfter
    {}
  }

  // ---- The failed switch -----------------------------------------------------------------------

  lemma UndoKeepsLibrary(io: Schedule, w: World, tx: Tx, kept: seq<Name>)
    requires Distinct(tx.files)
    ensures var (w', r) := Undo(io, w, tx, kept); w'.disk.lib == w.disk.lib && r.status == Failed
  {
    RollbackOutcome(io, w, tx);
  }

  /** What a failure says about the library: if the last calls land, it is the one of lib0. */
  ghost predicate LibraryBack(io: Schedule, w': World, r: Result, lib0: Library, updates: map<Name, Auth>) {
    r.status == Failed && w'.up && LastLand(io, w', |updates|) ==> w'.disk.lib == lib0
  }

  lemma UndoBack(io: Schedule, w: World, lib0: Library, updates: map<Name, Auth>, tx: Tx, kept: seq<Name>)
    requires Distinct(tx.files) && w.disk.lib == lib0
    ensures LibraryBack(io, Undo(io, w, tx, kept).0, Undo(io, w, tx, kept).1, lib0, updates)
  {
    UndoKeepsLibrary(io, w, tx, kept);
  }

  lemma UndoAllRestores(io: Schedule, w2: World, lib0: Library, updates: map<Name, Auth>, tx: Tx, kept: seq<Name>,
                        order: seq<Name>)
    requires Distinct(tx.files) && SlotsInFlight(lib0, w2.disk.lib, updates) && NoRepeats(order)
    requires forall n :: n in order <==> n in updates
    requires forall n :: n in order ==> n in lib0.slots
    ensures var (w3, r) := Undo(io, w2, tx, kept);
      LibraryBack(io, PutBackAll(io, w3, lib0.slots, order, 0), r, lib0, updates)
  {
    UndoKeepsLibrary(io, w2, tx, kept);
    var w3 := Undo(io, w2, tx, kept).0;
    PutBackRestores(io, w3, lib0, updates, order, PutBackAll(io, w3, lib0.slots, order, 0));
  }

  lemma {:induction false} BackupReads(io: Schedule, w: World, order: seq<Name>, i: nat)
    requires i <= |order| && Backup(io, w, order, i).1
    ensures forall m :: w.clock <= m < w.clock + 2 * (|order| - i) ==> io(m) == Works
    decreases |order| - i
  {
    if i < |order| {
      var w2 := After(io, After(io, w));
      BackupReads(io, w2, order, i + 1);
      forall m | w.clock <= m < w.clock + 2 * (|order| - i)
        ensures io(m) == Works
      {
        assert m == w.clock || m == w.clock + 1 || w2.clock <= m;
      }
    }
  }

  /** The two files of every slot to be refreshed are read before any slot is touched: if one of
      these reads fails, the switch fails and the account library is as it was. */
  lemma BacksUpFirst(io: Schedule, w: World, env: Env, updates: map<Name, Auth>, tx: Tx, kept: seq<Name>, m: nat)
    requires Adoptable(w.disk.lib, updates) && Distinct(tx.files)
    requires w.clock <= m < w.clock + 2 * |updates| && io(m) != Works
    ensures var (w', r) := Commit(io, w, env, updates, tx, kept); r.status == Failed && w'.disk.lib == w.disk.lib
  {
    var order := PutOrder(env.order, w.disk.lib, updates);
    UniqMembers(env.order + w.disk.lib.listing, updates.Keys);
    OrderSize(order);
    assert (set n | n in order) == updates.Keys;
    if Backup(io, w, order, 0).1 {
      BackupReads(io, w, order, 0);
    }
    BackupKeepsDisk(io, w, order, 0);
    UndoKeepsLibrary(io, Backup(io, w, order, 0).0, tx, kept);
  }

  /** After the backup: whether the saves fail or the journal stays, the slots are put back. */
  lemma SavedRestores(io: Schedule, w1: World, lib0: Library, updates: map<Name, Auth>, tx: Tx, kept: seq<Name>,
                      order: seq<Name>)
    requires Distinct(tx.files) && NoRepeats(order) && w1.disk.lib == lib0
    requires forall n :: n in order <==> n in updates
    requires forall n :: n in updates ==> n in lib0.slots
    ensures var w2 := PutAll(io, w1, updates, order, 0).0;
      var (w3, r) := Undo(io, w2, tx, kept);
      LibraryBack(io, PutBackAll(io, w3, lib0.slots, order, 0), r, lib0, updates)
    ensures var w2 := RemoveJournal(io, PutAll(io, w1, updates, order, 0).0).0;
      var (w3, r) := Undo(io, w2, tx, kept);
      LibraryBack(io, PutBackAll(io, w3, lib0.slots, order, 0), r, lib0, updates)
  {
    var (w2, saved) := PutAll(io, w1, updates, order, 0);
    PutAllOutcome(io, w1, updates, order, 0);
    assert order[0..] == order;
    SavedSlots(lib0, w2.disk.lib, updates, order, saved);
    UndoAllRestores(io, w2, lib0, updates, tx, kept, order);
    UndoAllRestores(io, RemoveJournal(io, w2).0, lib0, updates, tx, kept, order);
  }

  lemma CommitRestores(io: Schedule, w: World, env: Env, updates: map<Name, Auth>, tx: Tx, kept: seq<Name>)
    requires Adoptable(w.disk.lib, updates) && Distinct(tx.files)
    ensures var (w', r) := Commit(io, w, env, updates, tx, kept); LibraryBack(io, w', r, w.disk.lib, updates)
  {
    var order := PutOrder(env.order, w.disk.lib, updates);
    UniqMembers(env.order + w.disk.lib.listing, updates.Keys);
    assert forall n :: n in order <==> n in updates;
    var (w1, read) := Backup(io, w, order, 0);
    BackupKeepsDisk(io, w, order, 0);
    if !read {
      UndoKeepsLibrary(io, w1, tx, kept);
    } else {
      SavedRestores(io, w1, w.disk.lib, updates, tx, kept, order);
    }
  }

  lemma ApplyRestores(io: Schedule, w: World, affected: seq<Client>, call: Call, env: Env,
                      updates: map<Name, Auth>, id: Identity, tx: Tx, kept: seq<Name>)
    requires Adoptable(w.disk.lib, updates) && Distinct(tx.files)
    ensures var (w', r) := Apply(io, w, affected, call, env, updates, id, tx, kept);
      LibraryBack(io, w', r, w.disk.lib, updates)
  {
    var w1 := WriteAll(io, w, tx, 0).0;
    WriteAllKeepsLibrary(io, w, tx, 0);
    UndoBack(io, w1, w.disk.lib, updates, tx, kept);
    var w2 := WriteStateFile(io, w1, Selected(call.name, ReadState(w1.disk.state))).0;
    UndoBack(io, w2, w.disk.lib, updates, tx, kept);
    var w3, storages := ClientsWrite(w2, env.appWrites), UniqueStorages(affected);
    UndoBack(io, w3, w.disk.lib, updates, tx, kept);
    VerifyKeepsDisk(io, w3, storages, id, 0);
    var w4 := Verify(io, w3, storages, id, 0).0;
    UndoBack(io, w4, w.disk.lib, updates, tx, kept);
    CommitRestores(io, w4, env, updates, tx, kept);
  }

  lemma ExecuteRestores(io: Schedule, w: World, affected: seq<Client>, call: Call, env: Env, updates: map<Name, Auth>)
    requires Get(w.disk.lib, call.name).Some? && Adoptable(w.disk.lib, updates)
    ensures var (w', r) := Execute(io, w, affected, call, env, updates); LibraryBack(io, w', r, w.disk.lib, updates)
  {
    var auth := Chosen(w.disk.lib, updates, call.name);
    var (w1, tx) := PrepareEffect(io, w, affected, auth);
    PrepareOutcome(io, w, affected, auth);
    PrepareKeepsLibrary(io, w, affected, auth);
    if tx.Some? {
      ApplyRestores(io, w1, affected, call, env, updates, auth.id, tx.value, Kept(w.disk.lib, updates, call.name));
    }
  }

  /** A switch that failed, whether its files were restored or not, leaves the account library
      as it was if the calls that put the slots back take effect: the last ones the process made,
      two for every refreshed account. */
  lemma FailureRestoresLibrary(io: Schedule, d0: Disk, clients: seq<Client>, call: Call, env: Env)
    ensures var (w, r) := UseEffect(io, Start(d0), clients, call, env);
      r.status == Failed && w.up && LastLand(io, w, |Guarantees.Refreshed(io, d0, clients)|) ==> w.disk.lib == d0.lib
  {
    if Guarantees.Executes(io, d0, clients, call, env) {
      var (w1, lives) := ReadLives(io, Start(d0), clients, 0, []);
      ReadLivesKeepsDisk(io, Start(d0), clients, 0, []);
      UpdatesAdoptable(d0.lib, lives);
      ExecuteRestores(io, w1, Resolve(clients, call.target).value, call, env, Guarantees.Refreshed(io, d0, clients));
    } else {
      Guarantees.StopsUnchanged(io, d0, clients, call, env);
    }
  }
}
