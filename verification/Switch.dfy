/** The account switch: gates, journalled writes, verification, adoption of refreshed
    credentials, commit. Each function below is the effect of one stretch of useAccount
    under a schedule of I/O fates; the methods are the imperative code with that effect. */
module Switch {
  import opened Options
  import opened Accounts
  import opened Clients
  import opened Disk
  import opened Reconcile
  import opened Store
  import opened Transaction

  datatype Status = Completed | Pending | Blocked | Failed
  datatype RecoveryStatus = Unstated | NotNeeded | WasRestored | RecoveryFailed
  datatype Result = Result(
    status: Status, recovery: RecoveryStatus, adopted: seq<Name>, written: seq<Storage>)

  datatype Call = Call(name: Name, target: string, force: bool, open: bool, dryRun: bool)

  /** What the outside world answers: process probes, App control, the files clients
      rewrite around the App start, and the order in which a map is walked. */
  datatype Env = Env(
    probe: Client -> Answer,
    stillRunning: bool,
    started: bool,
    runningNow: bool,
    appWrites: map<Storage, Option<Content>>,
    order: seq<Name>)

  function Stop(s: Status): Result {
    Result(s, Unstated, [], [])
  }

  // ---- Gates -----------------------------------------------------------------------

  function StateOf(c: Client, env: Env): ClientState {
    InspectClient(c, env.probe(c))
  }

  predicate Busy(c: Client, env: Env) {
    StateOf(c, env).process != ProcNone && StateOf(c, env).process != ProcIdle
  }

  predicate QueryFails(cs: seq<Client>, env: Env) {
    exists c :: c in cs && StateOf(c, env).reason == QueryFailed
  }

  predicate BusyCliOn(cs: seq<Client>, env: Env, s: Storage) {
    exists c :: c in cs && c.kind == Cli && c.storage == s && Busy(c, env)
  }

  predicate BusyAppOn(cs: seq<Client>, env: Env, s: Storage) {
    exists c :: c in cs && c.kind == App && c.storage == s && Busy(c, env)
  }

  predicate BusyApp(cs: seq<Client>, env: Env) {
    exists c :: c in cs && c.kind == App && Busy(c, env)
  }

  /** The storages a switch has to leave alone: a running CLI always holds its storage, a
      running App only while the switch may not restart it. */
  function Held(cs: seq<Client>, env: Env, force: bool): set<Storage> {
    set s | s in StoragesOf(cs) && (BusyCliOn(cs, env, s) || (!force && BusyAppOn(cs, env, s)))
  }

  predicate NeedsStart(cs: seq<Client>, env: Env, call: Call) {
    || (exists c :: c in cs && c.kind == App && ((call.force && StateOf(c, env).process != ProcNone) || call.open))
    || (call.open && !env.runningNow)
  }

  // ---- Reading the clients ------------------------------------------------------------

  predicate Seen(cs: seq<Client>, i: nat)
    requires i < |cs|
  {
    exists j :: 0 <= j < i && cs[j].id == cs[i].id && cs[j].storage == cs[i].storage
  }

  /** The bundles of the clients from index i on; an unreadable file counts as none. */
  function ReadLives(io: Schedule, w: World, cs: seq<Client>, i: nat, lives: seq<Auth>): (World, seq<Auth>)
    requires i <= |cs|
    decreases |cs| - i
  {
    if i == |cs| then (w, lives)
    else if Seen(cs, i) then ReadLives(io, w, cs, i + 1, lives)
    else
      var (w1, r) := ReadFile(io, w, cs[i].storage);
      ReadLives(io, w1, cs, i + 1, lives + LiveOf(r))
  }

  function LiveOf(r: ReadResult): seq<Auth> {
    if r.Bytes? && Decode(r.content).Some? then [Decode(r.content).value] else []
  }

  method LiveAuths(m: Machine, cs: seq<Client>) returns (lives: seq<Auth>)
    modifies m
    ensures (m.Now(), lives) == ReadLives(m.io, old(m.Now()), cs, 0, [])
  {
    lives := [];
    var seen: set<(string, Storage)> := {};
    ghost var w0 := m.Now();
    var i := 0;
    while i < |cs|
      invariant 0 <= i <= |cs|
      invariant seen == set j | 0 <= j < i :: (cs[j].id, cs[j].storage)
      invariant ReadLives(m.io, w0, cs, 0, []) == ReadLives(m.io, m.Now(), cs, i, lives)
    {
      assert Seen(cs, i) <==> (cs[i].id, cs[i].storage) in seen;
      if (cs[i].id, cs[i].storage) !in seen {
        seen := seen + {(cs[i].id, cs[i].storage)};
        var r := m.Read(cs[i].storage);
        lives := lives + LiveOf(r);
      }
      i := i + 1;
    }
  }

  // ---- Writing, verifying, adopting ------------------------------------------------------

  function WriteAll(io: Schedule, w: World, tx: Tx, i: nat): (World, bool)
    requires i <= |tx.files|
    decreases |tx.files| - i
  {
    if i == |tx.files| then (w, true)
    else
      var (w1, ok) := WriteFile(io, w, tx.files[i].client.storage, tx.next);
      if ok then WriteAll(io, w1, tx, i + 1) else (w1, false)
  }

  function Selected(name: Name, state: StateRec): StateRec {
    state.(current := Some(Some(name)))
  }

  /** Clients rewrite, create or delete their own files. */
  function ClientsWrite(w: World, writes: map<Storage, Option<Content>>): World {
    if !w.up then w
    else
      var gone := set s | s in writes && writes[s].None?;
      var put := map s | s in writes && writes[s].Some? :: writes[s].value;
      w.(disk := w.disk.(files := (w.disk.files - gone) + put))
  }

  predicate SeatIs(r: ReadResult, id: Identity) {
    r.Bytes? && Decode(r.content).Some? && SameSeat(Decode(r.content).value.id, id)
  }

  function Verify(io: Schedule, w: World, storages: seq<Storage>, id: Identity, i: nat): (World, bool)
    requires i <= |storages|
    decreases |storages| - i
  {
    if i == |storages| then (w, true)
    else
      var (w1, r) := ReadFile(io, w, storages[i]);
      if SeatIs(r, id) then Verify(io, w1, storages, id, i + 1) else (w1, false)
  }

  /** The members of `keys` in the order they first occur in s. */
  function Uniq(s: seq<Name>, keys: set<Name>): seq<Name> {
    if s == [] then []
    else
      var init := Uniq(s[..|s| - 1], keys);
      var n := s[|s| - 1];
      if n in keys && n !in init then init + [n] else init
  }

  /** Some order of the accounts to update; the hint decides which. */
  function PutOrder(hint: seq<Name>, lib: Library, updates: map<Name, Auth>): seq<Name> {
    Uniq(hint + lib.listing, updates.Keys)
  }

  /** Reads auth.json and meta.json of every slot about to change. */
  function Backup(io: Schedule, w: World, order: seq<Name>, i: nat): (World, bool)
    requires i <= |order|
    decreases |order| - i
  {
    if i == |order| then (w, true)
    else
      var (w1, ok1) := Touch(io, w);
      if !ok1 then (w1, false)
      else
        var (w2, ok2) := Touch(io, w1);
        if !ok2 then (w2, false) else Backup(io, w2, order, i + 1)
  }

  function PutAll(io: Schedule, w: World, updates: map<Name, Auth>, order: seq<Name>, i: nat): (World, bool)
    requires i <= |order| && forall n :: n in order ==> n in updates
    decreases |order| - i
  {
    if i == |order| then (w, true)
    else
      var (w1, ok) := PutEffect(io, w, order[i], updates[order[i]], true);
      if ok then PutAll(io, w1, updates, order, i + 1) else (w1, false)
  }

  /** Best effort: writes the remembered slots back, whatever each write reports. */
  function PutBackAll(io: Schedule, w: World, slots: map<Name, Slot>, order: seq<Name>, i: nat): World
    requires i <= |order| && forall n :: n in order ==> n in slots
    decreases |order| - i
  {
    if i == |order| then w
    else
      var (w1, _) := WriteStored(io, w, order[i], slots[order[i]].stored);
      var (w2, _) := WriteRevision(io, w1, order[i], slots[order[i]].revision);
      PutBackAll(io, w2, slots, order, i + 1)
  }

  function Kept(lib: Library, updates: map<Name, Auth>, name: Name): seq<Name> {
    Uniq(lib.listing, updates.Keys - {name})
  }

  function Undo(io: Schedule, w: World, tx: Tx, kept: seq<Name>): (World, Result) {
    var (w', ok) := RollbackEffect(io, w, tx);
    (w', Result(Failed, if ok then WasRestored else RecoveryFailed, kept, []))
  }

  predicate Adoptable(lib: Library, updates: map<Name, Auth>) {
    forall n :: n in updates ==> n in lib.listing && n in lib.slots
  }

  lemma {:induction false} UniqMembers(s: seq<Name>, keys: set<Name>)
    ensures forall n :: n in Uniq(s, keys) <==> n in s && n in keys
    ensures forall i, j :: 0 <= i < j < |Uniq(s, keys)| ==> Uniq(s, keys)[i] != Uniq(s, keys)[j]
  {
    if s != [] {
      UniqMembers(s[..|s| - 1], keys);
      assert s == s[..|s| - 1] + [s[|s| - 1]];
    }
  }

  /** The files of the journal, in writing order. */
  function Paths(tx: Tx): (r: seq<Storage>)
    ensures |r| == |tx.files| && forall i :: 0 <= i < |r| ==> r[i] == tx.files[i].client.storage
  {
    seq(|tx.files|, i requires 0 <= i < |tx.files| => tx.files[i].client.storage)
  }

  /** From the verified files to the commit. */
  function Commit(io: Schedule, w: World, env: Env, updates: map<Name, Auth>, tx: Tx, kept: seq<Name>): (World, Result)
    requires Adoptable(w.disk.lib, updates)
  {
    var order := PutOrder(env.order, w.disk.lib, updates);
    UniqMembers(env.order + w.disk.lib.listing, updates.Keys);
    var (w1, read) := Backup(io, w, order, 0);
    if !read then Undo(io, w1, tx, kept)
    else
      var (w2, saved) := PutAll(io, w1, updates, order, 0);
      if !saved then
        var (w3, r) := Undo(io, w2, tx, kept);
        (PutBackAll(io, w3, w.disk.lib.slots, order, 0), r)
      else
        var (w3, done) := RemoveJournal(io, w2);
        if !done then
          var (w4, r) := Undo(io, w3, tx, kept);
          (PutBackAll(io, w4, w.disk.lib.slots, order, 0), r)
        else (w3, Result(Completed, NotNeeded, kept, Paths(tx)))
  }

  /** From the journal to the verified files. */
  function Apply(io: Schedule, w: World, affected: seq<Client>, call: Call, env: Env,
                 updates: map<Name, Auth>, id: Identity, tx: Tx, kept: seq<Name>): (World, Result)
    requires Adoptable(w.disk.lib, updates)
  {
    var (w1, written) := WriteAll(io, w, tx, 0);
    WriteAllKeepsLibrary(io, w, tx, 0);
    if !written then Undo(io, w1, tx, kept)
    else
      var (w2, selected) := WriteStateFile(io, w1, Selected(call.name, ReadState(w1.disk.state)));
      if !selected then Undo(io, w2, tx, kept)
      else
        var w3 := ClientsWrite(w2, env.appWrites);
        if NeedsStart(affected, env, call) && !env.started then Undo(io, w3, tx, kept)
        else
          var (w4, verified) := Verify(io, w3, UniqueStorages(affected), id, 0);
          VerifyKeepsDisk(io, w3, UniqueStorages(affected), id, 0);
          if !verified then Undo(io, w4, tx, kept)
          else Commit(io, w4, env, updates, tx, kept)
  }

  lemma {:induction false} WriteAllKeepsLibrary(io: Schedule, w: World, tx: Tx, i: nat)
    requires i <= |tx.files|
    ensures WriteAll(io, w, tx, i).0.disk.lib == w.disk.lib
    decreases |tx.files| - i
  {
    if i < |tx.files| {
      WriteAllKeepsLibrary(io, WriteFile(io, w, tx.files[i].client.storage, tx.next).0, tx, i + 1);
    }
  }

  lemma {:induction false} VerifyKeepsDisk(io: Schedule, w: World, storages: seq<Storage>, id: Identity, i: nat)
    requires i <= |storages|
    ensures Verify(io, w, storages, id, i).0.disk == w.disk
    decreases |storages| - i
  {
    if i < |storages| {
      VerifyKeepsDisk(io, ReadFile(io, w, storages[i]).0, storages, id, i + 1);
    }
  }

  /** The bundle a switch writes: the refreshed one when a client holds it. */
  function Chosen(lib: Library, updates: map<Name, Auth>, name: Name): Auth
    requires Get(lib, name).Some?
  {
    if name in updates then updates[name] else Get(lib, name).value
  }

  function Execute(io: Schedule, w: World, affected: seq<Client>, call: Call, env: Env,
                   updates: map<Name, Auth>): (World, Result)
    requires Get(w.disk.lib, call.name).Some? && Adoptable(w.disk.lib, updates)
  {
    var auth := Chosen(w.disk.lib, updates, call.name);
    var kept := Kept(w.disk.lib, updates, call.name);
    var (w1, tx) := PrepareEffect(io, w, affected, auth);
    PrepareKeepsLibrary(io, w, affected, auth);
    if tx.None? then (w1, Result(Failed, NotNeeded, kept, []))
    else Apply(io, w1, affected, call, env, updates, auth.id, tx.value, kept)
  }

  lemma {:induction false} SnapKeepsDisk(io: Schedule, w: World, cs: seq<Client>, i: nat, taken: seq<Snapshot>)
    requires i <= |cs|
    ensures Snap(io, w, cs, i, taken).0.disk == w.disk
    decreases |cs| - i
  {
    if i < |cs| {
      if cs[i].storage in SnapshotStorages(taken) {
        SnapKeepsDisk(io, w, cs, i + 1, taken);
      } else {
        var (w1, r) := ReadFile(io, w, cs[i].storage);
        match r
        case ReadError =>
        case Bytes(c) => SnapKeepsDisk(io, w1, cs, i + 1, taken + [Snapshot(cs[i], c, true)]);
        case NotFound => SnapKeepsDisk(io, w1, cs, i + 1, taken + [Snapshot(cs[i], Empty, false)]);
      }
    }
  }

  lemma PrepareKeepsLibrary(io: Schedule, w: World, cs: seq<Client>, auth: Auth)
    ensures PrepareEffect(io, w, cs, auth).0.disk.lib == w.disk.lib
  {
    SnapKeepsDisk(io, w, cs, 0, []);
  }

  lemma UpdatesAdoptable(lib: Library, lives: seq<Auth>)
    ensures Adoptable(lib, Updates(lib, lives))
  {}

  lemma {:induction false} ReadLivesKeepsDisk(io: Schedule, w: World, cs: seq<Client>, i: nat, lives: seq<Auth>)
    requires i <= |cs|
    ensures ReadLives(io, w, cs, i, lives).0.disk == w.disk
    ensures ReadLives(io, w, cs, i, lives).0.up ==> w.up
    decreases |cs| - i
  {
    if i < |cs| {
      if Seen(cs, i) {
        ReadLivesKeepsDisk(io, w, cs, i + 1, lives);
      } else {
        var (w1, r) := ReadFile(io, w, cs[i].storage);
        ReadLivesKeepsDisk(io, w1, cs, i + 1, lives + LiveOf(r));
      }
    }
  }

  /** useAccount on the clients that LoadClients returned. */
  function UseEffect(io: Schedule, w: World, clients: seq<Client>, call: Call, env: Env): (World, Result) {
    var lib := w.disk.lib;
    if Get(lib, call.name).None? || !IsBundle(Get(lib, call.name).value) then (w, Stop(Failed))
    else
      var targets := Resolve(clients, call.target);
      if targets.None? then (w, Stop(Failed))
      else
        var affected := targets.value;
        if QueryFails(affected, env) then (w, Stop(Blocked))
        else if Held(affected, env, call.force) != {} then (w, Stop(Pending))
        else if call.dryRun then (w, Stop(Completed))
        else if call.force && BusyApp(affected, env) && env.stillRunning then (w, Stop(Failed))
        else
          var (w1, lives) := ReadLives(io, w, clients, 0, []);
          ReadLivesKeepsDisk(io, w, clients, 0, []);
          if AllConflicts(lib, lives) != [] then (w1, Stop(Blocked))
          else Execute(io, w1, affected, call, env, Updates(lib, lives))
  }

  // ---- The imperative switch ---------------------------------------------------------------

  method RollbackWith(m: Machine, tx: Tx, kept: seq<Name>) returns (res: Result)
    modifies m
    ensures (m.Now(), res) == Undo(m.io, old(m.Now()), tx, kept)
  {
    var ok := Rollback(m, tx);
    res := Result(Failed, if ok then WasRestored else RecoveryFailed, kept, []);
  }

  method RestoreAccounts(m: Machine, backups: seq<(Name, Slot)>, ghost slots: map<Name, Slot>, ghost order: seq<Name>)
    requires |backups| == |order| && forall n :: n in order ==> n in slots
    requires forall i :: 0 <= i < |order| ==> backups[i] == (order[i], slots[order[i]])
    modifies m
    ensures m.Now() == PutBackAll(m.io, old(m.Now()), slots, order, 0)
  {
    ghost var w0 := m.Now();
    var i := 0;
    while i < |backups|
      invariant 0 <= i <= |backups|
      invariant PutBackAll(m.io, w0, slots, order, 0) == PutBackAll(m.io, m.Now(), slots, order, i)
    {
      var _ := m.PutStored(backups[i].0, backups[i].1.stored);
      var _ := m.PutRevision(backups[i].0, backups[i].1.revision);
      i := i + 1;
    }
  }

  /** Remembers auth.json and meta.json of every slot about to change; None if one cannot be read. */
  method BackUpSlots(m: Machine, order: seq<Name>) returns (backups: Option<seq<(Name, Slot)>>)
    requires forall n :: n in order ==> n in m.disk.lib.slots
    modifies m`up, m`clock
    ensures (m.Now(), backups.Some?) == Backup(m.io, old(m.Now()), order, 0)
    ensures backups.Some? ==>
      && |backups.value| == |order|
      && forall k :: 0 <= k < |order| ==> backups.value[k] == (order[k], m.disk.lib.slots[order[k]])
  {
    ghost var w0 := m.Now();
    var taken: seq<(Name, Slot)> := [];
    var i := 0;
    while i < |order|
      invariant 0 <= i <= |order| && |taken| == i
      invariant forall k :: 0 <= k < i ==> taken[k] == (order[k], m.disk.lib.slots[order[k]])
      invariant Backup(m.io, w0, order, 0) == Backup(m.io, m.Now(), order, i)
    {
      var auth := m.Glance();
      if !auth {
        return None;
      }
      var meta := m.Glance();
      if !meta {
        return None;
      }
      taken := taken + [(order[i], m.disk.lib.slots[order[i]])];
      i := i + 1;
    }
    backups := Some(taken);
  }

  method SaveUpdates(m: Machine, updates: map<Name, Auth>, order: seq<Name>) returns (ok: bool)
    requires forall n :: n in order ==> n in updates
    modifies m
    ensures (m.Now(), ok) == PutAll(m.io, old(m.Now()), updates, order, 0)
  {
    ghost var w0 := m.Now();
    var i := 0;
    while i < |order|
      invariant 0 <= i <= |order|
      invariant PutAll(m.io, w0, updates, order, 0) == PutAll(m.io, m.Now(), updates, order, i)
    {
      ok := Put(m, order[i], updates[order[i]], true);
      if !ok {
        return;
      }
      i := i + 1;
    }
    ok := true;
  }

  method AdoptAndCommit(m: Machine, env: Env, updates: map<Name, Auth>, tx: Tx, kept: seq<Name>,
                        written: seq<Storage>) returns (res: Result)
    requires Adoptable(m.disk.lib, updates)
    requires written == Paths(tx)
    modifies m
    ensures (m.Now(), res) == Commit(m.io, old(m.Now()), env, updates, tx, kept)
  {
    var order := PutOrder(env.order, m.disk.lib, updates);
    UniqMembers(env.order + m.disk.lib.listing, updates.Keys);
    ghost var slots := m.disk.lib.slots;
    var backups := BackUpSlots(m, order);
    if backups.None? {
      res := RollbackWith(m, tx, kept);
      return;
    }
    var saved := SaveUpdates(m, updates, order);
    if !saved {
      res := RollbackWith(m, tx, kept);
      RestoreAccounts(m, backups.value, slots, order);
      return;
    }
    var done := m.DropJournal();
    if !done {
      res := RollbackWith(m, tx, kept);
      RestoreAccounts(m, backups.value, slots, order);
      return;
    }
    res := Result(Completed, NotNeeded, kept, written);
  }

  method WriteFiles(m: Machine, tx: Tx) returns (written: seq<Storage>, ok: bool)
    modifies m
    ensures (m.Now(), ok) == WriteAll(m.io, old(m.Now()), tx, 0)
    ensures ok ==> written == Paths(tx)
  {
    ghost var w0 := m.Now();
    written := [];
    var i := 0;
    while i < |tx.files|
      invariant 0 <= i <= |tx.files| && |written| == i
      invariant forall k :: 0 <= k < i ==> written[k] == tx.files[k].client.storage
      invariant WriteAll(m.io, w0, tx, 0) == WriteAll(m.io, m.Now(), tx, i)
    {
      ok := m.Write(tx.files[i].client.storage, tx.next);
      if !ok {
        return;
      }
      written := written + [tx.files[i].client.storage];
      i := i + 1;
    }
    ok := true;
  }

  method VerifyFiles(m: Machine, storages: seq<Storage>, id: Identity) returns (ok: bool)
    modifies m`up, m`clock
    ensures (m.Now(), ok) == Verify(m.io, old(m.Now()), storages, id, 0)
  {
    ghost var w0 := m.Now();
    var i := 0;
    while i < |storages|
      invariant 0 <= i <= |storages|
      invariant Verify(m.io, w0, storages, id, 0) == Verify(m.io, m.Now(), storages, id, i)
    {
      var r := m.Read(storages[i]);
      if !SeatIs(r, id) {
        return false;
      }
      i := i + 1;
    }
    ok := true;
  }

  method ApplyTransaction(m: Machine, affected: seq<Client>, call: Call, env: Env, updates: map<Name, Auth>,
                          id: Identity, tx: Tx, kept: seq<Name>) returns (res: Result)
    requires Adoptable(m.disk.lib, updates)
    modifies m
    ensures (m.Now(), res) == Apply(m.io, old(m.Now()), affected, call, env, updates, id, tx, kept)
  {
    WriteAllKeepsLibrary(m.io, m.Now(), tx, 0);
    var written, ok := WriteFiles(m, tx);
    if !ok {
      res := RollbackWith(m, tx, kept);
      return;
    }
    var selected := m.PutState(Selected(call.name, ReadState(m.disk.state)));
    if !selected {
      res := RollbackWith(m, tx, kept);
      return;
    }
    ClientsRewrite(m, env.appWrites);
    if NeedsStart(affected, env, call) && !env.started {
      res := RollbackWith(m, tx, kept);
      return;
    }
    var storages := UniqueStorages(affected);
    VerifyKeepsDisk(m.io, m.Now(), storages, id, 0);
    var verified := VerifyFiles(m, storages, id);
    if !verified {
      res := RollbackWith(m, tx, kept);
      return;
    }
    res := AdoptAndCommit(m, env, updates, tx, kept, written);
  }

  /** The environment's step, not the program's: clients rewrite their own files. */
  method ClientsRewrite(m: Machine, writes: map<Storage, Option<Content>>)
    modifies m`disk
    ensures m.Now() == ClientsWrite(old(m.Now()), writes)
  {
    if m.up {
      var gone := set s | s in writes && writes[s].None?;
      var put := map s | s in writes && writes[s].Some? :: writes[s].value;
      m.disk := m.disk.(files := (m.disk.files - gone) + put);
    }
  }

  method UseAccount(m: Machine, clients: seq<Client>, call: Call, env: Env) returns (res: Result)
    modifies m
    ensures (m.Now(), res) == UseEffect(m.io, old(m.Now()), clients, call, env)
  {
    var acct := Get(m.disk.lib, call.name);
    if acct.None? || !IsBundle(acct.value) {
      return Stop(Failed);
    }
    var targets := ResolveTargets(clients, call.target);
    if targets.None? {
      return Stop(Failed);
    }
    var affected := targets.value;
    var i := 0;
    while i < |affected|
      invariant 0 <= i <= |affected|
      invariant forall k :: 0 <= k < i ==> StateOf(affected[k], env).reason != QueryFailed
    {
      if StateOf(affected[i], env).reason == QueryFailed {
        return Stop(Blocked);
      }
      i := i + 1;
    }
    var hold := HoldWrites(affected, env, call.force);
    if hold != {} {
      return Stop(Pending);
    }
    if call.dryRun {
      return Stop(Completed);
    }
    if call.force && BusyApp(affected, env) && env.stillRunning {
      return Stop(Failed);
    }
    ReadLivesKeepsDisk(m.io, m.Now(), clients, 0, []);
    var lives := LiveAuths(m, clients);
    var updates, conflicts := LatestLives(m.disk.lib, lives);
    if conflicts != [] {
      return Stop(Blocked);
    }
    UpdatesAdoptable(m.disk.lib, lives);
    res := Perform(m, affected, hold, call, env, updates);
  }

  /** The clients on (or off) a held storage, in order. */
  function OnHeld(cs: seq<Client>, hold: set<Storage>, held: bool): seq<Client> {
    if cs == [] then []
    else
      var last := cs[|cs| - 1];
      OnHeld(cs[..|cs| - 1], hold, held) + if (last.storage in hold) == held then [last] else []
  }

  lemma {:induction false} NothingHeld(cs: seq<Client>)
    ensures OnHeld(cs, {}, false) == cs && OnHeld(cs, {}, true) == []
  {
    if cs != [] {
      NothingHeld(cs[..|cs| - 1]);
    }
  }

  method SetAside(affected: seq<Client>, hold: set<Storage>) returns (writable: seq<Client>, skipped: seq<Client>)
    ensures writable == OnHeld(affected, hold, false) && skipped == OnHeld(affected, hold, true)
  {
    writable, skipped := [], [];
    var i := 0;
    while i < |affected|
      invariant 0 <= i <= |affected|
      invariant writable == OnHeld(affected[..i], hold, false) && skipped == OnHeld(affected[..i], hold, true)
    {
      assert affected[..i + 1][..i] == affected[..i];
      if affected[i].storage in hold {
        skipped := skipped + [affected[i]];
      } else {
        writable := writable + [affected[i]];
      }
      i := i + 1;
    }
    assert affected[..|affected|] == affected;
  }

  /** Everything after the gates. The program still sets held clients aside here and reports
      a partial switch as pending at the end; since the gates stop on any held storage, all
      clients are written, none is skipped, and that report cannot happen. */
  method Perform(m: Machine, affected: seq<Client>, hold: set<Storage>, call: Call, env: Env,
                 updates: map<Name, Auth>) returns (res: Result)
    requires hold == {}
    requires Get(m.disk.lib, call.name).Some? && Adoptable(m.disk.lib, updates)
    modifies m
    ensures (m.Now(), res) == Execute(m.io, old(m.Now()), affected, call, env, updates)
  {
    var auth := Chosen(m.disk.lib, updates, call.name);
    var kept := Kept(m.disk.lib, updates, call.name);
    var writable, skipped := SetAside(affected, hold);
    NothingHeld(affected);
    PrepareKeepsLibrary(m.io, m.Now(), affected, auth);
    var tx := Prepare(m, writable, auth);
    if tx.None? {
      return Result(Failed, NotNeeded, kept, []);
    }
    res := ApplyTransaction(m, affected, call, env, updates, auth.id, tx.value, kept);
    if res.status == Completed && skipped != [] {
      res := res.(status := Pending);
    }
  }

  /** Collects the storages that may not be written, storage by storage. */
  method HoldWrites(affected: seq<Client>, env: Env, force: bool) returns (hold: set<Storage>)
    ensures hold == Held(affected, env, force)
  {
    var busyCli: set<Storage> := {};
    var i := 0;
    while i < |affected|
      invariant 0 <= i <= |affected|
      invariant busyCli == set s | s in StoragesOf(affected[..i]) && BusyCliOn(affected[..i], env, s)
    {
      assert affected[..i + 1] == affected[..i] + [affected[i]];
      if affected[i].kind == Cli && Busy(affected[i], env) {
        busyCli := busyCli + {affected[i].storage};
      }
      i := i + 1;
    }
    assert affected[..|affected|] == affected;
    hold := {};
    var storages := UniqueStorages(affected);
    UniqueStoragesMembers(affected);
    i := 0;
    while i < |storages|
      invariant 0 <= i <= |storages|
      invariant forall s :: s in hold <==> s in storages[..i] && s in Held(affected, env, force)
    {
      if storages[i] in busyCli {
        hold := hold + {storages[i]};
      } else if !force && BusyAppOn(affected, env, storages[i]) {
        hold := hold + {storages[i]};
      }
      i := i + 1;
    }
    assert storages[..|storages|] == storages;
  }
}
