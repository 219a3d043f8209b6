/** The promises of a switch as a whole: its report, its atomicity across crashes and
    recoveries, and that no refresh token is lost on the way. */
module Guarantees {
  import opened Options
  import opened Accounts
  import opened Clients
  import opened Disk
  import opened Reconcile
  import opened Store
  import opened Transaction
  import opened Recovery
  import opened Switch
  import opened SwitchProofs

  // ---- The report -----------------------------------------------------------------------

  ghost predicate SameFilesExcept(d0: Disk, d: Disk, but: set<Storage>) {
    forall s :: s !in but ==> Lookup(d.files, s) == Lookup(d0.files, s)
  }

  /** The fields of state.json besides the account: those there were are kept, a missing version becomes 1. */
  ghost predicate RestKept(before: Option<StateRec>, after: StateRec) {
    && after.rest == (if before.Some? then before.value.rest else 0)
    && after.version == if before.Some? && before.value.version.Some? then before.value.version else Some(1)
  }

  /** state.json names the account as the current one and is otherwise as before. */
  ghost predicate NowCurrent(before: Option<StateRec>, after: Option<StateRec>, name: Name) {
    after.Some? && after.value.current == Some(Some(name)) && RestKept(before, after.value)
  }

  /** state.json is as before, or was rewritten with the account it named, if any. */
  ghost predicate StateKept(before: Option<StateRec>, after: Option<StateRec>) {
    || after == before
    || (after.Some? && RestKept(before, after.value)
        && after.value.current ==
             if before.Some? && before.value.current.Some? then before.value.current else Some(None))
  }

  /** What "completed" means for the caller. `updates` are the refreshed bundles to be saved:
      those slots hold them at their next revision, every other slot is as it was. */
  ghost predicate SwitchDone(d0: Disk, d: Disk, affected: seq<Client>, call: Call, env: Env, updates: map<Name, Auth>) {
    && d0.journal == NoJournal && d.journal == NoJournal
    && NowCurrent(d0.state, d.state, call.name)
    && Get(d.lib, call.name).Some?
    && SlotsAdopted(d0.lib, d.lib, updates)
    && SameFilesExcept(d0, d, StoragesOf(affected) + env.appWrites.Keys)
    && forall s :: s in StoragesOf(affected) ==>
         && s in d.files
         && Decode(d.files[s]).Some? && Refreshable(Decode(d.files[s]).value)
         && SameSeat(Decode(d.files[s]).value.id, Get(d.lib, call.name).value.id)
         && (s !in env.appWrites ==> Decode(d.files[s]) == Get(d.lib, call.name))
  }

  /** What "failed, restored" means for the caller, whatever fails. A slot that was to be refreshed
      may be left with its refreshed bundle or its next revision, exactly when SlotRestore says;
      every other slot is as it was. */
  ghost predicate SwitchUndone(d0: Disk, d: Disk, affected: seq<Client>, env: Env, updates: map<Name, Auth>) {
    && d0.journal == NoJournal && d.journal == NoJournal
    && StateKept(d0.state, d.state)
    && SlotsInFlight(d0.lib, d.lib, updates)
    && SameFilesExcept(d0, d, env.appWrites.Keys - StoragesOf(affected))
  }

  /** The refreshed bundles a switch on this disk would save. */
  function Refreshed(io: Schedule, d0: Disk, clients: seq<Client>): map<Name, Auth> {
    Updates(d0.lib, LivesSeen(io, d0, clients))
  }

  /** Every report of a surviving process tells the truth about the disk, whatever I/O
      failed: nothing changed, everything took effect, everything was undone, or the journal
      is still there. A switch that wrote anything never reports pending. */
  lemma ReportIsTrue(io: Schedule, d0: Disk, clients: seq<Client>, call: Call, env: Env)
    ensures var (w, r) := UseEffect(io, Start(d0), clients, call, env);
      var updates := Refreshed(io, d0, clients);
      w.up ==>
        && (r.status == Pending || r.status == Blocked || call.dryRun ==> w.disk == d0)
        && (r.status == Failed && (r.recovery == Unstated || r.recovery == NotNeeded) ==> w.disk == d0)
        && (r.status == Completed && !call.dryRun ==>
              && Resolve(clients, call.target).Some?
              && SwitchDone(d0, w.disk, Resolve(clients, call.target).value, call, env, updates)
              && (set s | s in r.written) == StoragesOf(Resolve(clients, call.target).value))
        && (r.status == Failed && r.recovery == WasRestored ==>
              && Resolve(clients, call.target).Some?
              && SwitchUndone(d0, w.disk, Resolve(clients, call.target).value, env, updates))
        && (r.status == Failed && r.recovery == RecoveryFailed ==>
              d0.journal == NoJournal && w.disk.journal.Journal? && SlotsInFlight(d0.lib, w.disk.lib, updates))
  {
    var w0 := Start(d0);
    var (w, r) := UseEffect(io, w0, clients, call, env);
    if Executes(io, d0, clients, call, env) {
      ExecutesOutcome(io, d0, clients, call, env);
      var tx := Journalled(io, d0, clients, call, env);
      if w.up && tx.Some? && r.status == Completed {
        CommittedIsDone(io, d0, clients, call, env, w.disk, tx.value);
      }
    } else {
      StopsUnchanged(io, d0, clients, call, env);
    }
  }

  lemma CommittedIsDone(io: Schedule, d0: Disk, clients: seq<Client>, call: Call, env: Env, d: Disk, tx: Tx)
    requires Get(d0.lib, call.name).Some? && IsBundle(Get(d0.lib, call.name).value)
    requires Resolve(clients, call.target).Some? && d0.journal == NoJournal
    requires var auth := Chosen(d0.lib, Refreshed(io, d0, clients), call.name);
      && tx.next == Encode(auth) && SnapshotStorages(tx.files) == StoragesOf(Resolve(clients, call.target).value)
      && Committed(d0, tx, Refreshed(io, d0, clients), call.name, auth.id, env.appWrites, d)
    ensures SwitchDone(d0, d, Resolve(clients, call.target).value, call, env, Refreshed(io, d0, clients))
  {
    UpdatesAreBundles(io, d0, clients);
    assert Get(d.lib, call.name) == Some(Chosen(d0.lib, Refreshed(io, d0, clients), call.name));
  }

  /** Whatever fails, and wherever the process dies, a switch touches no file outside its
      target's storages, other than those the clients rewrite themselves. */
  lemma WritesInScope(io: Schedule, d0: Disk, clients: seq<Client>, call: Call, env: Env)
    ensures var d1 := UseEffect(io, Start(d0), clients, call, env).0.disk;
      if Resolve(clients, call.target).None? then d1 == d0
      else SameFilesExcept(d0, d1, StoragesOf(Resolve(clients, call.target).value) + env.appWrites.Keys)
  {
    if Executes(io, d0, clients, call, env) {
      ExecutesOutcome(io, d0, clients, call, env);
    } else {
      StopsUnchanged(io, d0, clients, call, env);
    }
  }

  function LivesSeen(io: Schedule, d0: Disk, clients: seq<Client>): seq<Auth> {
    ReadLives(io, Start(d0), clients, 0, []).1
  }

  /** The call passes every gate and reaches the journal. */
  predicate Executes(io: Schedule, d0: Disk, clients: seq<Client>, call: Call, env: Env) {
    && Get(d0.lib, call.name).Some? && IsBundle(Get(d0.lib, call.name).value)
    && Resolve(clients, call.target).Some?
    && var affected := Resolve(clients, call.target).value;
    && !QueryFails(affected, env) && Held(affected, env, call.force) == {} && !call.dryRun
    && !(call.force && BusyApp(affected, env) && env.stillRunning)
    && AllConflicts(d0.lib, LivesSeen(io, d0, clients)) == []
  }

  function Journalled(io: Schedule, d0: Disk, clients: seq<Client>, call: Call, env: Env): Option<Tx>
    requires Executes(io, d0, clients, call, env)
  {
    ReadLivesKeepsDisk(io, Start(d0), clients, 0, []);
    JournalOf(io, ReadLives(io, Start(d0), clients, 0, []).0, Resolve(clients, call.target).value, call,
              Updates(d0.lib, LivesSeen(io, d0, clients)))
  }

  lemma ExecutesOutcome(io: Schedule, d0: Disk, clients: seq<Client>, call: Call, env: Env)
    requires Executes(io, d0, clients, call, env)
    ensures var (w, r) := UseEffect(io, Start(d0), clients, call, env);
      var updates := Updates(d0.lib, LivesSeen(io, d0, clients));
      var auth := Chosen(d0.lib, updates, call.name);
      var tx := Journalled(io, d0, clients, call, env);
      && (tx.None? ==> w.disk == d0 && r.status == Failed && r.recovery == NotNeeded)
      && (tx.Some? ==>
            && d0.journal == NoJournal && Faithful(tx.value, d0) && tx.value.next == Encode(auth)
            && SnapshotStorages(tx.value.files) == StoragesOf(Resolve(clients, call.target).value)
            && Ended(d0, tx.value, updates, call.name, auth.id, env.appWrites, w, r))
  {
    ReadLivesKeepsDisk(io, Start(d0), clients, 0, []);
    var w1 := ReadLives(io, Start(d0), clients, 0, []).0;
    ExecuteOutcome(io, w1, Resolve(clients, call.target).value, call, env, Updates(d0.lib, LivesSeen(io, d0, clients)));
  }

  lemma StopsUnchanged(io: Schedule, d0: Disk, clients: seq<Client>, call: Call, env: Env)
    requires !Executes(io, d0, clients, call, env)
    ensures UseEffect(io, Start(d0), clients, call, env).0.disk == d0
  {
    ReadLivesKeepsDisk(io, Start(d0), clients, 0, []);
  }

  // ---- Reading ----------------------------------------------------------------------------

  /** Some client's file decodes to this bundle. */
  ghost predicate OnDisk(files: map<Storage, Content>, cs: seq<Client>, a: Auth) {
    exists c :: c in cs && c.storage in files && Decode(files[c.storage]) == Some(a)
  }

  lemma {:induction false} ReadLivesSound(io: Schedule, w: World, cs: seq<Client>, i: nat, lives: seq<Auth>)
    requires i <= |cs| && forall a :: a in lives ==> OnDisk(w.disk.files, cs, a)
    ensures forall a :: a in ReadLives(io, w, cs, i, lives).1 ==> OnDisk(w.disk.files, cs, a)
    decreases |cs| - i
  {
    if i < |cs| {
      if Seen(cs, i) {
        ReadLivesSound(io, w, cs, i + 1, lives);
      } else {
        var (w1, r) := ReadFile(io, w, cs[i].storage);
        forall a | a in lives + LiveOf(r)
          ensures OnDisk(w.disk.files, cs, a)
        {
          if a !in lives {
            assert cs[i] in cs && Decode(w.disk.files[cs[i].storage]) == Some(a);
          }
        }
        ReadLivesSound(io, w1, cs, i + 1, lives + LiveOf(r));
      }
    }
  }

  lemma UpdatesAreBundles(io: Schedule, d0: Disk, clients: seq<Client>)
    ensures forall n :: n in Updates(d0.lib, LivesSeen(io, d0, clients)) ==>
      var a := Updates(d0.lib, LivesSeen(io, d0, clients))[n];
      IsBundle(a) && OnDisk(d0.files, clients, a) && Find(d0.lib, a.id) == Some(n)
  {
    var lives := LivesSeen(io, d0, clients);
    ReadLivesSound(io, Start(d0), clients, 0, []);
    forall n | n in Updates(d0.lib, lives)
      ensures var a := Updates(d0.lib, lives)[n];
        IsBundle(a) && OnDisk(d0.files, clients, a) && Find(d0.lib, a.id) == Some(n)
    {
      JudgeExact(Get(d0.lib, n).value, LivesOf(d0.lib, lives, n));
      LivesOfMembers(d0.lib, lives, n);
    }
  }

  // ---- Crash atomicity ------------------------------------------------------------------

  ghost predicate AllOld(d0: Disk, d: Disk) {
    d.files == d0.files && StateKept(d0.state, d.state)
  }

  ghost predicate AllNew(d0: Disk, d: Disk, affected: seq<Client>, name: Name, auth: Auth) {
    && (forall s :: s in StoragesOf(affected) ==> Lookup(d.files, s) == Some(Encode(auth)))
    && SameFilesExcept(d0, d, StoragesOf(affected))
    && NowCurrent(d0.state, d.state, name)
  }

  /** Kill the switch anywhere, recover any number of times with every attempt killed,
      deferred or failing anywhere: once a start-up reports success the journal is gone and
      the files and the state are all old or all new. A quiet start-up without I/O errors
      does report success. */
  lemma CrashAtomicity(io: Schedule, d0: Disk, clients: seq<Client>, call: Call, env: Env,
                       runs: seq<StartUp>, last: StartUp)
    requires d0.journal == NoJournal && env.appWrites == map[]
    ensures var d2 := RecoverRun(UseEffect(io, Start(d0), clients, call, env).0.disk, runs);
      var (w3, ok) := RecoverEffect(last.io, Start(d2), last.probe);
      && (ok ==> w3.disk.journal == NoJournal
                 && (|| AllOld(d0, w3.disk)
                     || (Executes(io, d0, clients, call, env)
                         && AllNew(d0, w3.disk, Resolve(clients, call.target).value, call.name,
                                   Chosen(d0.lib, Updates(d0.lib, LivesSeen(io, d0, clients)), call.name)))))
      && ((forall n :: last.io(n) == Works)
          && (d2.journal.Journal? ==> forall b :: b in d2.journal.tx.files ==> last.probe(b.client) == NotRunning)
          ==> ok)
  {
    var d1 := UseEffect(io, Start(d0), clients, call, env).0.disk;
    SwitchLeavesWhole(io, d0, clients, call, env);
    if d1.journal == NoJournal {
      NothingToRecover(d1, runs);
    } else {
      RecoverInFlight(d0, d1, Journalled(io, d0, clients, call, env).value, runs, last);
    }
  }

  /** A switch that ended with no client writing is undone, done, or under its journal. */
  lemma EndedWhole(d0: Disk, tx: Tx, updates: map<Name, Auth>, cs: seq<Client>, name: Name, auth: Auth, w: World,
                   r: Result)
    requires Ended(d0, tx, updates, name, auth.id, map[], w, r)
    requires tx.next == Encode(auth) && SnapshotStorages(tx.files) == StoragesOf(cs)
    ensures || (w.disk.journal == NoJournal && (AllOld(d0, w.disk) || AllNew(d0, w.disk, cs, name, auth)))
            || (w.disk.journal == Journal(tx) && FilesInFlight(tx, d0, w.disk.files))
  {
    if RolledBack(d0, tx, updates, map[], w.disk) {
      SameFiles(w.disk.files, d0.files);
    }
  }

  /** With no client writing meanwhile, the switch itself leaves all old, all new, or a
      journal over files each of which is old or new. */
  lemma SwitchLeavesWhole(io: Schedule, d0: Disk, clients: seq<Client>, call: Call, env: Env)
    requires d0.journal == NoJournal && env.appWrites == map[]
    ensures var d1 := UseEffect(io, Start(d0), clients, call, env).0.disk;
      || (d1.journal == NoJournal && AllOld(d0, d1))
      || (&& Executes(io, d0, clients, call, env)
          && var tx := Journalled(io, d0, clients, call, env);
          && tx.Some?
          && (|| (d1.journal == NoJournal
                  && AllNew(d0, d1, Resolve(clients, call.target).value, call.name,
                            Chosen(d0.lib, Updates(d0.lib, LivesSeen(io, d0, clients)), call.name)))
              || (d1.journal == Journal(tx.value) && Faithful(tx.value, d0) && FilesInFlight(tx.value, d0, d1.files))))
  {
    if !Executes(io, d0, clients, call, env) {
      StopsUnchanged(io, d0, clients, call, env);
    } else {
      ExecutesOutcome(io, d0, clients, call, env);
      var (w, r) := UseEffect(io, Start(d0), clients, call, env);
      var tx := Journalled(io, d0, clients, call, env);
      var updates := Updates(d0.lib, LivesSeen(io, d0, clients));
      if tx.Some? {
        EndedWhole(d0, tx.value, updates, Resolve(clients, call.target).value, call.name,
                   Chosen(d0.lib, updates, call.name), w, r);
      }
    }
  }

  lemma {:induction false} NothingToRecover(d: Disk, runs: seq<StartUp>)
    requires d.journal == NoJournal
    ensures RecoverRun(d, runs) == d
  {
    if runs != [] {
      NothingToRecover(d, runs[..|runs| - 1]);
    }
  }

  lemma RecoverInFlight(d0: Disk, d1: Disk, tx: Tx, runs: seq<StartUp>, last: StartUp)
    requires Faithful(tx, d0) && d1.journal == Journal(tx) && FilesInFlight(tx, d0, d1.files)
    ensures var d2 := RecoverRun(d1, runs);
      var (w3, ok) := RecoverEffect(last.io, Start(d2), last.probe);
      && (ok ==> w3.disk.journal == NoJournal && AllOld(d0, w3.disk))
      && ((forall n :: last.io(n) == Works)
          && (d2.journal.Journal? ==> forall b :: b in d2.journal.tx.files ==> last.probe(b.client) == NotRunning)
          ==> ok)
  {
    InFlightIsGuarded(d0, d1, tx);
    RecoverRunConverges(d1, tx, runs);
    var d2 := RecoverRun(d1, runs);
    if d2.journal == Journal(tx) {
      RecoverOutcome(last.io, Start(d2), last.probe);
      if forall n :: last.io(n) == Works {
        RecoverCompletesExactly(last.io, Start(d2), last.probe);
      }
    }
  }

  lemma InFlightIsGuarded(d0: Disk, d1: Disk, tx: Tx)
    requires Faithful(tx, d0) && FilesInFlight(tx, d0, d1.files)
    ensures Guarded(tx, d1.files)
    ensures AllOld(d0, Restored(tx, d1))
  {
    forall k | 0 <= k < |tx.files|
      ensures Recognised(tx.files[k], tx.next, Lookup(d1.files, tx.files[k].client.storage))
    {
      assert Original(tx.files[k]) == Lookup(d0.files, tx.files[k].client.storage);
    }
    forall s
      ensures Lookup(Restored(tx, d1).files, s) == Lookup(d0.files, s)
    {
      RestoredLookup(tx, d1, s);
      SnapshotOfMember(tx.files, s);
      if s in SnapshotStorages(tx.files) {
        SnapshotOfIndex(tx.files, s);
      }
    }
    SameFiles(Restored(tx, d1).files, d0.files);
  }

  // ---- No token is lost -------------------------------------------------------------------

  /** What happens after the switch: start-ups, and clients rewriting files of the pending journal. */
  datatype Event = Restart(run: StartUp) | Rewrite(storage: Storage, content: Option<Content>)

  function Happen(d: Disk, e: Event): Disk {
    match e
    case Restart(run) => RecoverEffect(run.io, Start(d), run.probe).0.disk
    case Rewrite(s, Some(c)) => d.(files := d.files[s := c])
    case Rewrite(s, None) => d.(files := d.files - {s})
  }

  function After(d: Disk, events: seq<Event>): Disk {
    if events == [] then d else Happen(After(d, events[..|events| - 1]), events[|events| - 1])
  }

  /** Clients touch only files that a journal protects. */
  ghost predicate Protected(d: Disk, events: seq<Event>) {
    forall k :: 0 <= k < |events| && events[k].Rewrite? ==>
      var before := After(d, events[..k]);
      before.journal.Journal? && events[k].storage in SnapshotStorages(before.journal.tx.files)
  }

  /** A copy of bundle a survives: in slot n, in a client file, or in the journal. */
  ghost predicate Survives(d: Disk, n: Name, a: Auth) {
    || Get(d.lib, n) == Some(a)
    || (exists s :: s in d.files && Decode(d.files[s]) == Some(a))
    || (d.journal.Journal? && exists b :: b in d.journal.tx.files && b.had && Decode(b.before) == Some(a))
  }

  /** As Survives, but counting only copies that a pending rollback does not overwrite. */
  ghost predicate Covered(d: Disk, n: Name, a: Auth) {
    && (d.journal.Journal? ==> Distinct(d.journal.tx.files))
    && (|| Get(d.lib, n) == Some(a)
        || (exists s :: s in d.files && Decode(d.files[s]) == Some(a)
              && (d.journal.Journal? ==> s !in SnapshotStorages(d.journal.tx.files)))
        || (d.journal.Journal? && exists b :: b in d.journal.tx.files && b.had && Decode(b.before) == Some(a)))
  }

  lemma RestartKeepsCover(d: Disk, run: StartUp, n: Name, a: Auth)
    requires Covered(d, n, a) && d.journal.Journal?
    ensures Covered(Happen(d, Restart(run)), n, a)
  {
    var tx, d' := d.journal.tx, Happen(d, Restart(run));
    RecoverOutcome(run.io, Start(d), run.probe);
    if s :| s in d.files && Decode(d.files[s]) == Some(a) && s !in SnapshotStorages(tx.files) {
      RestoredLookup(tx, d, s);
      SnapshotOfMember(tx.files, s);
      assert Lookup(d'.files, s) == Lookup(d.files, s);
    } else if b :| b in tx.files && b.had && Decode(b.before) == Some(a) {
      RestoredLookup(tx, d, b.client.storage);
      var k :| 0 <= k < |tx.files| && tx.files[k] == b;
      SnapshotOfMember(tx.files, b.client.storage);
      assert Lookup(Restored(tx, d).files, b.client.storage) == Some(b.before);
    }
  }

  lemma HappenKeepsCover(d: Disk, e: Event, n: Name, a: Auth)
    requires Covered(d, n, a)
    requires e.Rewrite? ==> d.journal.Journal? && e.storage in SnapshotStorages(d.journal.tx.files)
    ensures Covered(Happen(d, e), n, a)
  {
    var d' := Happen(d, e);
    if e.Restart? && d.journal.Journal? {
      RestartKeepsCover(d, e.run, n, a);
    } else if e.Rewrite? {
      if s :| s in d.files && Decode(d.files[s]) == Some(a) && s !in SnapshotStorages(d.journal.tx.files) {
        assert s in d'.files && d'.files[s] == d.files[s];
      }
    }
  }

  lemma {:induction false} AfterKeepsCover(d: Disk, events: seq<Event>, n: Name, a: Auth)
    requires Covered(d, n, a) && Protected(d, events)
    ensures Covered(After(d, events), n, a)
  {
    if events != [] {
      var init := events[..|events| - 1];
      forall k | 0 <= k < |init|
        ensures events[..k] == init[..k]
      {}
      AfterKeepsCover(d, init, n, a);
      assert events[..|events| - 1] == init;
      HappenKeepsCover(After(d, init), events[|events| - 1], n, a);
    }
  }

  /** The bundle reconciliation settles on for slot n. */
  function NewestOf(lib: Library, lives: seq<Auth>, n: Name): Auth
    requires Get(lib, n).Some?
  {
    Chosen(lib, Updates(lib, lives), n)
  }

  /** For every saved account, the newest bundle the switch saw survives every failure,
      crash, rollback and recovery, also while clients rewrite the journalled files. */
  lemma NoTokenLost(io: Schedule, d0: Disk, clients: seq<Client>, call: Call, env: Env, n: Name, events: seq<Event>)
    requires d0.journal == NoJournal && Get(d0.lib, n).Some?
    requires Resolve(clients, call.target).Some? ==>
      env.appWrites.Keys <= StoragesOf(Resolve(clients, call.target).value)
    requires Protected(UseEffect(io, Start(d0), clients, call, env).0.disk, events)
    ensures Survives(After(UseEffect(io, Start(d0), clients, call, env).0.disk, events), n,
                     NewestOf(d0.lib, LivesSeen(io, d0, clients), n))
  {
    var d1 := UseEffect(io, Start(d0), clients, call, env).0.disk;
    var a := NewestOf(d0.lib, LivesSeen(io, d0, clients), n);
    UpdatesAreBundles(io, d0, clients);
    if !Executes(io, d0, clients, call, env) {
      StopsUnchanged(io, d0, clients, call, env);
    } else {
      ExecutesOutcome(io, d0, clients, call, env);
      if Journalled(io, d0, clients, call, env).Some? {
        EndedCovers(io, d0, clients, call, env, n);
      }
    }
    AfterKeepsCover(d1, events, n, a);
  }

  /** However a switch that wrote its journal left the disk, the newest bundle of slot n is covered. */
  lemma LeftCovers(d0: Disk, d: Disk, clients: seq<Client>, tx: Tx, updates: map<Name, Auth>, name: Name, id: Identity,
                   writes: map<Storage, Option<Content>>, n: Name)
    requires Faithful(tx, d0) && Get(d0.lib, n).Some? && writes.Keys <= SnapshotStorages(tx.files)
    requires n in updates ==> IsBundle(updates[n]) && OnDisk(d0.files, clients, updates[n])
    requires InFlight(d0, tx, updates, name, writes, d) || RolledBack(d0, tx, updates, writes, d)
             || Committed(d0, tx, updates, name, id, writes, d)
    ensures Covered(d, n, Chosen(d0.lib, updates, n))
  {
    if n in updates && !Committed(d0, tx, updates, name, id, writes, d) {
      var c :| c in clients && c.storage in d0.files && Decode(d0.files[c.storage]) == Some(updates[n]);
      var s := c.storage;
      if s in SnapshotStorages(tx.files) && d.journal == Journal(tx) {
        SnapshotOfIndex(tx.files, s);
        var k :| 0 <= k < |tx.files| && tx.files[k].client.storage == s;
        assert Original(tx.files[k]) == Lookup(d0.files, s);
      } else {
        assert Lookup(d.files, s) == Lookup(d0.files, s);
      }
    }
  }

  lemma EndedCovers(io: Schedule, d0: Disk, clients: seq<Client>, call: Call, env: Env, n: Name)
    requires Executes(io, d0, clients, call, env) && Journalled(io, d0, clients, call, env).Some?
    requires Get(d0.lib, n).Some?
    requires env.appWrites.Keys <= StoragesOf(Resolve(clients, call.target).value)
    ensures Covered(UseEffect(io, Start(d0), clients, call, env).0.disk, n,
                    NewestOf(d0.lib, LivesSeen(io, d0, clients), n))
  {
    ExecutesOutcome(io, d0, clients, call, env);
    UpdatesAreBundles(io, d0, clients);
    var updates := Updates(d0.lib, LivesSeen(io, d0, clients));
    LeftCovers(d0, UseEffect(io, Start(d0), clients, call, env).0.disk, clients,
               Journalled(io, d0, clients, call, env).value, updates, call.name,
               Chosen(d0.lib, updates, call.name).id, env.appWrites, n);
  }
}
