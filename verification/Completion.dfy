/** When a switch completes: exactly when, with all I/O working, the gates let it through, no
    journal is left over, the App starts if it must, and every affected file verifies. */
module Completion {
  import opened Options
  import opened Accounts
  import opened Clients
  import opened Disk
  import opened Reconcile
  import opened Store
  import opened Transaction
  import opened Recovery
  import opened Switch
  import opened SwitchProofs
  import opened Guarantees

  ghost predicate AllWorks(io: Schedule) {
    forall n :: io(n) == Works
  }

  lemma {:induction false} ReadsSurvive(io: Schedule, w: World, cs: seq<Client>, i: nat, lives: seq<Auth>)
    requires i <= |cs| && w.up && AllWorks(io)
    ensures ReadLives(io, w, cs, i, lives).0.up
    decreases |cs| - i
  {
    if i < |cs| {
      if Seen(cs, i) {
        ReadsSurvive(io, w, cs, i + 1, lives);
      } else {
        var (w1, r) := ReadFile(io, w, cs[i].storage);
        ReadsSurvive(io, w1, cs, i + 1, lives + LiveOf(r));
      }
    }
  }

  lemma {:induction false} SnapCompletes(io: Schedule, w: World, cs: seq<Client>, i: nat, taken: seq<Snapshot>)
    requires i <= |cs| && w.up && AllWorks(io)
    ensures Snap(io, w, cs, i, taken).0.up && Snap(io, w, cs, i, taken).1.Some?
    decreases |cs| - i
  {
    if i < |cs| {
      if cs[i].storage in SnapshotStorages(taken) {
        SnapCompletes(io, w, cs, i + 1, taken);
      } else {
        var (w1, r) := ReadFile(io, w, cs[i].storage);
        var b := if r.Bytes? then Snapshot(cs[i], r.content, true) else Snapshot(cs[i], Empty, false);
        SnapCompletes(io, w1, cs, i + 1, taken + [b]);
      }
    }
  }

  /** The journal is written unless one is left over. */
  lemma PrepareExactly(io: Schedule, w: World, cs: seq<Client>, auth: Auth)
    requires w.up && AllWorks(io)
    ensures var (w', tx) := PrepareEffect(io, w, cs, auth);
      w'.up && (tx.Some? <==> w.disk.journal == NoJournal)
  {
    SnapCompletes(io, w, cs, 0, []);
  }

  lemma {:induction false} WriteAllCompletes(io: Schedule, w: World, tx: Tx, i: nat)
    requires i <= |tx.files| && w.up && AllWorks(io)
    ensures WriteAll(io, w, tx, i).0.up && WriteAll(io, w, tx, i).1
    decreases |tx.files| - i
  {
    if i < |tx.files| {
      WriteAllCompletes(io, WriteFile(io, w, tx.files[i].client.storage, tx.next).0, tx, i + 1);
    }
  }

  /** The content decodes to a bundle of the seat. */
  predicate Seated(content: Option<Content>, id: Identity) {
    content.Some? && Decode(content.value).Some? && SameSeat(Decode(content.value).value.id, id)
  }

  lemma {:induction false} VerifyExactly(io: Schedule, w: World, storages: seq<Storage>, id: Identity, i: nat)
    requires i <= |storages|
    ensures var (w', ok) := Verify(io, w, storages, id, i);
      var seated := forall k :: i <= k < |storages| ==> Seated(Lookup(w.disk.files, storages[k]), id);
      && (ok ==> seated)
      && (w.up && AllWorks(io) ==> w'.up && (seated ==> ok))
    decreases |storages| - i
  {
    if i < |storages| {
      var (w1, r) := ReadFile(io, w, storages[i]);
      VerifyExactly(io, w1, storages, id, i + 1);
    }
  }

  lemma {:induction false} BackupCompletes(io: Schedule, w: World, order: seq<Name>, i: nat)
    requires i <= |order| && w.up && AllWorks(io)
    ensures Backup(io, w, order, i).0.up && Backup(io, w, order, i).1
    decreases |order| - i
  {
    if i < |order| {
      BackupCompletes(io, Touch(io, Touch(io, w).0).0, order, i + 1);
    }
  }

  /** The bundles can be saved: they are complete and their slots are named validly. */
  ghost predicate Savable(updates: map<Name, Auth>) {
    forall n :: n in updates ==> IsBundle(updates[n]) && ValidSlotName(n)
  }

  lemma {:induction false} PutAllCompletes(io: Schedule, w: World, updates: map<Name, Auth>, order: seq<Name>, i: nat)
    requires i <= |order| && w.up && AllWorks(io) && Savable(updates) && forall n :: n in order ==> n in updates
    ensures PutAll(io, w, updates, order, i).0.up && PutAll(io, w, updates, order, i).1
    decreases |order| - i
  {
    if i < |order| {
      PutAllCompletes(io, PutEffect(io, w, order[i], updates[order[i]], true).0, updates, order, i + 1);
    }
  }

  lemma CommitCompletes(io: Schedule, w: World, env: Env, updates: map<Name, Auth>, tx: Tx, kept: seq<Name>)
    requires w.up && AllWorks(io) && Adoptable(w.disk.lib, updates) && Savable(updates)
    ensures Commit(io, w, env, updates, tx, kept).1.status == Completed && Commit(io, w, env, updates, tx, kept).0.up
  {
    var order := PutOrder(env.order, w.disk.lib, updates);
    UniqMembers(env.order + w.disk.lib.listing, updates.Keys);
    BackupCompletes(io, w, order, 0);
    PutAllCompletes(io, Backup(io, w, order, 0).0, updates, order, 0);
  }

  /** Only a process that lives to remove the journal reports completion. */
  lemma CommitSurvives(io: Schedule, w: World, env: Env, updates: map<Name, Auth>, tx: Tx, kept: seq<Name>)
    requires Adoptable(w.disk.lib, updates)
    ensures Commit(io, w, env, updates, tx, kept).1.status == Completed ==> Commit(io, w, env, updates, tx, kept).0.up
  {}

  /** What an affected file holds when the switch verifies it. */
  function AtVerification(env: Env, auth: Auth, s: Storage): Option<Content> {
    if s in env.appWrites then env.appWrites[s] else Some(Encode(auth))
  }

  /** Every affected file verifies. */
  ghost predicate Verifies(affected: seq<Client>, env: Env, auth: Auth) {
    forall s :: s in StoragesOf(affected) ==> Seated(AtVerification(env, auth, s), auth.id)
  }

  lemma VerifiedExactly(io: Schedule, w1: World, affected: seq<Client>, env: Env, auth: Auth)
    requires w1.up && forall s :: s in StoragesOf(affected) ==> Lookup(w1.disk.files, s) == Some(Encode(auth))
    ensures var (w', ok) := Verify(io, ClientsWrite(w1, env.appWrites), UniqueStorages(affected), auth.id, 0);
      && (ok ==> Verifies(affected, env, auth))
      && (AllWorks(io) ==> w'.up && (Verifies(affected, env, auth) ==> ok))
  {
    var w3, storages := ClientsWrite(w1, env.appWrites), UniqueStorages(affected);
    VerifyExactly(io, w3, storages, auth.id, 0);
    UniqueStoragesMembers(affected);
    forall s | s in StoragesOf(affected)
      ensures Lookup(w3.disk.files, s) == AtVerification(env, auth, s)
    {
      ClientsWriteLookup(w1, env.appWrites, s);
    }
    forall k | 0 <= k < |storages|
      ensures storages[k] in StoragesOf(affected)
    {}
    if Verify(io, w3, storages, auth.id, 0).1 {
      forall s | s in StoragesOf(affected)
        ensures Seated(AtVerification(env, auth, s), auth.id)
      {
        var k :| 0 <= k < |storages| && storages[k] == s;
      }
    }
  }

  /** What a switch needs from outside, once its journal is written. */
  ghost predicate Finishes(affected: seq<Client>, call: Call, env: Env, auth: Auth) {
    (NeedsStart(affected, env, call) ==> env.started) && Verifies(affected, env, auth)
  }

  lemma WrittenEverywhere(io: Schedule, w: World, affected: seq<Client>, tx: Tx)
    requires Distinct(tx.files) && SnapshotStorages(tx.files) == StoragesOf(affected) && WriteAll(io, w, tx, 0).1
    ensures forall s :: s in StoragesOf(affected) ==> Lookup(WriteAll(io, w, tx, 0).0.disk.files, s) == Some(tx.next)
  {
    WriteAllOutcome(io, w, tx, 0);
    forall s | s in StoragesOf(affected)
      ensures Lookup(WriteAll(io, w, tx, 0).0.disk.files, s) == Some(tx.next)
    {
      var b :| b in tx.files && b.client.storage == s;
      var k :| 0 <= k < |tx.files| && tx.files[k] == b;
    }
  }

  /** From the selected account on. */
  lemma VerifiedCommits(io: Schedule, w2: World, affected: seq<Client>, env: Env, updates: map<Name, Auth>, auth: Auth,
                        tx: Tx, kept: seq<Name>)
    requires Adoptable(w2.disk.lib, updates) && Savable(updates)
    requires w2.up && forall s :: s in StoragesOf(affected) ==> Lookup(w2.disk.files, s) == Some(Encode(auth))
    ensures var (w4, verified) := Verify(io, ClientsWrite(w2, env.appWrites), UniqueStorages(affected), auth.id, 0);
      && Adoptable(w4.disk.lib, updates)
      && (verified ==> Verifies(affected, env, auth))
      && (AllWorks(io) && Verifies(affected, env, auth) ==> verified)
      && var (w', r) := Commit(io, w4, env, updates, tx, kept);
         && (r.status == Completed ==> w'.up)
         && (AllWorks(io) ==> r.status == Completed)
  {
    VerifiedExactly(io, w2, affected, env, auth);
    var w3, storages := ClientsWrite(w2, env.appWrites), UniqueStorages(affected);
    VerifyKeepsDisk(io, w3, storages, auth.id, 0);
    var w4 := Verify(io, w3, storages, auth.id, 0).0;
    CommitSurvives(io, w4, env, updates, tx, kept);
    if AllWorks(io) {
      CommitCompletes(io, w4, env, updates, tx, kept);
    }
  }

  /** From a written journal a switch completes only if the App starts, if it must, and every
      file verifies; and with all I/O working it then does. */
  lemma ApplyExactly(io: Schedule, w: World, affected: seq<Client>, call: Call, env: Env,
                     updates: map<Name, Auth>, auth: Auth, tx: Tx, kept: seq<Name>)
    requires Adoptable(w.disk.lib, updates) && Savable(updates)
    requires Distinct(tx.files) && tx.next == Encode(auth) && SnapshotStorages(tx.files) == StoragesOf(affected)
    ensures var (w', r) := Apply(io, w, affected, call, env, updates, auth.id, tx, kept);
      var completed := r.status == Completed;
      && (completed ==> w'.up && Finishes(affected, call, env, auth))
      && (w.up && AllWorks(io) && Finishes(affected, call, env, auth) ==> completed)
  {
    var (w1, written) := WriteAll(io, w, tx, 0);
    if w.up && AllWorks(io) {
      WriteAllCompletes(io, w, tx, 0);
    }
    WriteAllKeepsLibrary(io, w, tx, 0);
    var (w2, selected) := WriteStateFile(io, w1, Selected(call.name, ReadState(w1.disk.state)));
    if written && selected {
      WrittenEverywhere(io, w, affected, tx);
      VerifiedCommits(io, w2, affected, env, updates, auth, tx, kept);
    }
  }

  lemma ExecuteExactly(io: Schedule, w: World, affected: seq<Client>, call: Call, env: Env, updates: map<Name, Auth>)
    requires Get(w.disk.lib, call.name).Some? && Adoptable(w.disk.lib, updates) && Savable(updates)
    ensures var (w', r) := Execute(io, w, affected, call, env, updates);
      var completed := r.status == Completed;
      var able := w.disk.journal == NoJournal && Finishes(affected, call, env, Chosen(w.disk.lib, updates, call.name));
      (completed ==> w'.up && able) && (w.up && AllWorks(io) && able ==> completed)
  {
    var auth := Chosen(w.disk.lib, updates, call.name);
    var kept := Kept(w.disk.lib, updates, call.name);
    var (w1, tx) := PrepareEffect(io, w, affected, auth);
    if w.up && AllWorks(io) {
      PrepareExactly(io, w, affected, auth);
    }
    PrepareOutcome(io, w, affected, auth);
    PrepareKeepsLibrary(io, w, affected, auth);
    if tx.Some? {
      ApplyExactly(io, w1, affected, call, env, updates, auth, tx.value, kept);
    }
  }

  lemma RefreshedSavable(io: Schedule, d0: Disk, clients: seq<Client>)
    ensures Savable(Refreshed(io, d0, clients)) && Adoptable(d0.lib, Refreshed(io, d0, clients))
  {
    UpdatesAreBundles(io, d0, clients);
  }

  /** The bundle a switch to the named account writes. */
  function ToWrite(io: Schedule, d0: Disk, clients: seq<Client>, name: Name): Auth
    requires Get(d0.lib, name).Some?
  {
    Chosen(d0.lib, Refreshed(io, d0, clients), name)
  }

  /** The switch passes every gate, no journal is left over, the App starts if it must, and every
      affected file holds the seat at verification. */
  ghost predicate Completable(io: Schedule, d0: Disk, clients: seq<Client>, call: Call, env: Env) {
    && Executes(io, d0, clients, call, env)
    && d0.journal == NoJournal
    && Finishes(Resolve(clients, call.target).value, call, env, ToWrite(io, d0, clients, call.name))
  }

  /** Whatever I/O fails, a switch completes only under these conditions; with all I/O working, exactly under them. */
  lemma SwitchCompletesExactly(io: Schedule, d0: Disk, clients: seq<Client>, call: Call, env: Env)
    requires !call.dryRun
    ensures var (w, r) := UseEffect(io, Start(d0), clients, call, env);
      var completed := r.status == Completed;
      && (completed ==> w.up && Completable(io, d0, clients, call, env))
      && (AllWorks(io) ==> (completed <==> Completable(io, d0, clients, call, env)))
  {
    if Executes(io, d0, clients, call, env) {
      var (w1, lives) := ReadLives(io, Start(d0), clients, 0, []);
      ReadLivesKeepsDisk(io, Start(d0), clients, 0, []);
      if AllWorks(io) {
        ReadsSurvive(io, Start(d0), clients, 0, []);
      }
      RefreshedSavable(io, d0, clients);
      ExecuteExactly(io, w1, Resolve(clients, call.target).value, call, env, Refreshed(io, d0, clients));
    }
  }

  lemma ToWriteIsBundle(io: Schedule, d0: Disk, clients: seq<Client>, name: Name)
    requires Get(d0.lib, name).Some? && IsBundle(Get(d0.lib, name).value)
    ensures IsBundle(ToWrite(io, d0, clients, name))
  {
    UpdatesAreBundles(io, d0, clients);
  }

  lemma SameSeatIdentifies(a: Identity, b: Identity)
    requires SameSeat(a, b)
    ensures Identifiable(a) && Identifiable(b)
  {
    LowerPresent(a.email);
    LowerPresent(b.email);
  }

  /** A refreshed bundle names somebody exactly if the saved one does. */
  lemma ToWriteIdentifiable(io: Schedule, d0: Disk, clients: seq<Client>, name: Name)
    requires Get(d0.lib, name).Some?
    ensures Identifiable(ToWrite(io, d0, clients, name).id) <==> Identifiable(Get(d0.lib, name).value.id)
  {
    UpdatesAreBundles(io, d0, clients);
    if name in Refreshed(io, d0, clients) {
      var a := ToWrite(io, d0, clients, name);
      FindSound(d0.lib, a.id, 0);
      SameSeatIdentifies(Get(d0.lib, name).value.id, a.id);
    }
  }

  lemma QuietVerifies(io: Schedule, d0: Disk, clients: seq<Client>, call: Call, env: Env)
    requires Executes(io, d0, clients, call, env) && env.appWrites == map[]
    ensures var affected := Resolve(clients, call.target).value;
      Verifies(affected, env, ToWrite(io, d0, clients, call.name))
      <==> affected == [] || Identifiable(ToWrite(io, d0, clients, call.name).id)
  {
    var affected := Resolve(clients, call.target).value;
    var auth := ToWrite(io, d0, clients, call.name);
    ToWriteIsBundle(io, d0, clients, call.name);
    SameSeatSelf(auth.id);
    if affected != [] {
      assert affected[0] in affected && affected[0].storage in StoragesOf(affected);
    }
  }

  /** If no client rewrites its file, the files verify exactly when the saved account names somebody. So
      an account that names neither user, subject nor address is never switched to on a client,
      and any other is whenever the gates, the journal, the App and the disk allow it. */
  lemma QuietSwitchCompletesExactly(io: Schedule, d0: Disk, clients: seq<Client>, call: Call, env: Env)
    requires !call.dryRun && env.appWrites == map[]
    ensures var (w, r) := UseEffect(io, Start(d0), clients, call, env);
      var completed := r.status == Completed;
      var able :=
        && Executes(io, d0, clients, call, env) && d0.journal == NoJournal
        && (NeedsStart(Resolve(clients, call.target).value, env, call) ==> env.started)
        && (Resolve(clients, call.target).value == [] || Identifiable(Get(d0.lib, call.name).value.id));
      (completed ==> w.up && able) && (AllWorks(io) ==> (completed <==> able))
  {
    SwitchCompletesExactly(io, d0, clients, call, env);
    if Executes(io, d0, clients, call, env) {
      QuietVerifies(io, d0, clients, call, env);
      ToWriteIdentifiable(io, d0, clients, call.name);
    }
  }

  /** After a completed switch every affected file that no client rewrote holds the bundle chosen. */
  lemma CompletedWrites(io: Schedule, d0: Disk, clients: seq<Client>, call: Call, env: Env, s: Storage)
    requires !call.dryRun && env.appWrites == map[] && Executes(io, d0, clients, call, env)
    requires s in StoragesOf(Resolve(clients, call.target).value)
    ensures var (w, r) := UseEffect(io, Start(d0), clients, call, env);
      r.status == Completed ==>
        w.up && s in w.disk.files && Decode(w.disk.files[s]) == Some(ToWrite(io, d0, clients, call.name))
  {
    ExecutesOutcome(io, d0, clients, call, env);
    ToWriteIsBundle(io, d0, clients, call.name);
    SwitchCompletesExactly(io, d0, clients, call, env);
  }
}
