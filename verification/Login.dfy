/** Web logins. Each login is a task beside the requests; the sections run under the service's
    mutex are its steps, and they interleave freely with cancellation, time-outs and restarts. */
module Login {
  import opened Options
  import opened Accounts
  import opened Disk
  import opened Store

  type Id = string

  datatype LoginStatus = Starting | Waiting | Succeeded | Failed | Cancelled | Expired

  datatype LoginRecord = LoginRecord(status: LoginStatus, slot: Name, title: string, updated: bool, mismatch: bool)

  /** Where the task's own thread is: running the login command, returned from it with an
      error or with a bundle, or finished. */
  datatype Phase = Capturing | Broken | Captured(auth: Auth) | Done

  /** The error state of the task's context; the first cause stays. */
  datatype Context = Open | Stopped | TimedOut

  /** `asked` is the slot a renewal was started for, "" for a new account. */
  datatype Task = Task(record: LoginRecord, asked: Name, phase: Phase, ctx: Context)

  /** `saved` holds the login files. */
  datatype Logins = Logins(tasks: map<Id, Task>, saved: map<Id, LoginRecord>, disk: Disk, serving: bool)

  datatype Renewal = NewAccount | Renew(slot: Name) | Unresolvable

  predicate Pending(st: LoginStatus) {
    st == Starting || st == Waiting
  }

  predicate Busy(s: Logins) {
    exists id :: id in s.tasks && Pending(s.tasks[id].record.status)
  }

  function Remember(s: Logins, id: Id, r: LoginRecord, f: Fate): Logins {
    if f == Works then s.(saved := s.saved[id := r]) else s
  }

  /** Replaces a task and saves its record; whether the save worked is ignored. */
  function Update(s: Logins, id: Id, t: Task, f: Fate): Logins {
    Remember(s.(tasks := s.tasks[id := t]), id, t.record, f)
  }

  function StartEffect(s: Logins, id: Id, title: string, renewal: Renewal, f: Fate): (Logins, Option<LoginRecord>) {
    if Busy(s) || renewal.Unresolvable? || f != Works then (s, None)
    else
      var asked := if renewal.Renew? then renewal.slot else "";
      var r := LoginRecord(Starting, asked, title, false, false);
      (Update(s, id, Task(r, asked, Capturing, Open), Works), Some(r))
  }

  function StatusOf(s: Logins, id: Id): Option<LoginRecord> {
    if id in s.tasks then Some(s.tasks[id].record)
    else if ValidSlotName(id) && id in s.saved then Some(s.saved[id])
    else None
  }

  function Stop(c: Context): Context {
    if c == Open then Stopped else c
  }

  function CancelEffect(s: Logins, id: Id, f: Fate): (Logins, Option<LoginRecord>) {
    if id in s.tasks && Pending(s.tasks[id].record.status) then
      var t := s.tasks[id];
      var t' := t.(record := t.record.(status := Cancelled), ctx := Stop(t.ctx));
      var s' := Update(s, id, t', f);
      (s', if f == Works then Some(t'.record) else None)
    else (s, StatusOf(s, id))
  }

  /** The login command printed a code or a link. */
  function EmitEffect(s: Logins, id: Id, f: Fate): Logins
    requires id in s.tasks
  {
    var t := s.tasks[id];
    if t.record.status == Cancelled then s else Update(s, id, t.(record := t.record.(status := Waiting)), f)
  }

  function FinishEffect(s: Logins, id: Id, f: Fate): Logins
    requires id in s.tasks
  {
    var t := s.tasks[id];
    var over := t.(phase := Done, ctx := Stop(t.ctx));
    if t.record.status == Cancelled then s.(tasks := s.tasks[id := over])
    else Update(s, id, over.(record := t.record.(status := if t.ctx == TimedOut then Expired else Failed)), f)
  }

  // ---- Commit ----------------------------------------------------------------------------------

  /** The slot the bundle goes to; None when a renewal signed in as somebody else. */
  function SlotFor(lib: Library, asked: Name, a: Auth, newSlot: Name): Option<Name> {
    if asked != "" then
      if Matches(lib, asked, a.id) then Some(asked) else None
    else if Find(lib, a.id).Some? then Find(lib, a.id)
    else Some(newSlot)
  }

  /** Saves the bundle, and the display name if one was given. */
  function SaveLoginEffect(io: Schedule, w: World, slot: Name, a: Auth, title: string): (World, bool) {
    var (w1, ok) := PutEffect(io, w, slot, a, true);
    if !ok || title == "" then (w1, ok)
    else if Get(w1.disk.lib, slot).None? then (w1, false)
    else WriteRevision(io, w1, slot, w1.disk.lib.slots[slot].revision)
  }

  predicate MayCommit(t: Task) {
    t.ctx == Open && t.record.status != Cancelled
  }

  /** After the save: the host may have died, and the record tells how it went. */
  function SavedEffect(s: Logins, id: Id, slot: Name, updated: bool, w: World, ok: bool, f: Fate): Logins
    requires id in s.tasks
  {
    if !w.up then Logins(map[], s.saved, w.disk, false)
    else
      var t := s.tasks[id];
      var r := if ok then t.record.(status := Succeeded, slot := slot, updated := updated)
               else t.record.(status := Failed);
      Update(s.(disk := w.disk), id, t.(record := r, phase := Done, ctx := Stop(t.ctx)), f)
  }

  function CommitEffect(s: Logins, id: Id, io: Schedule, newSlot: Name, f: Fate): Logins
    requires id in s.tasks && s.tasks[id].phase.Captured?
  {
    var t := s.tasks[id];
    var a := t.phase.auth;
    var over := t.(phase := Done, ctx := Stop(t.ctx));
    if !MayCommit(t) then s.(tasks := s.tasks[id := over])
    else if !IsBundle(a) then Update(s, id, over.(record := t.record.(status := Failed)), f)
    else
      var slot := SlotFor(s.disk.lib, t.asked, a, newSlot);
      if slot.None? then Update(s, id, over.(record := t.record.(status := Failed, mismatch := true)), f)
      else
        var (w, ok) := SaveLoginEffect(io, Start(s.disk), slot.value, a, t.record.title);
        var updated := t.asked != "" || Find(s.disk.lib, a.id).Some?;
        SavedEffect(s, id, slot.value, updated, w, ok, f)
  }

  predicate Stale(s: Logins, id: Id) {
    ValidSlotName(id) && id in s.saved && Pending(s.saved[id].status)
  }

  /** Expires the pending logins among the files listed from index i on; a failed save ends the start-up. */
  function ExpireFrom(s: Logins, files: seq<Id>, i: nat, saves: Id -> Fate): (Logins, bool)
    requires i <= |files|
    decreases |files| - i
  {
    if i == |files| then (s, true)
    else if !Stale(s, files[i]) then ExpireFrom(s, files, i + 1, saves)
    else if saves(files[i]) != Works then (s, false)
    else ExpireFrom(s.(saved := s.saved[files[i] := s.saved[files[i]].(status := Expired)]), files, i + 1, saves)
  }

  /** The login part of Recover, on the files that the folder lists. */
  function RestartEffect(s: Logins, files: seq<Id>, saves: Id -> Fate): Logins {
    var (s', done) := ExpireFrom(s.(tasks := map[], serving := false), files, 0, saves);
    s'.(serving := done)
  }

  // ---- The service -------------------------------------------------------------------------------

  class Desk {
    var tasks: map<Id, Task>
    var saved: map<Id, LoginRecord>
    var disk: Disk
    var serving: bool

    function Now(): Logins
      reads this
    {
      Logins(tasks, saved, disk, serving)
    }

    constructor (d: Disk)
      ensures Now() == Logins(map[], map[], d, false)
    {
      tasks, saved, disk, serving := map[], map[], d, false;
    }

    method Replace(id: Id, t: Task, f: Fate)
      modifies this`tasks, this`saved
      ensures Now() == Update(old(Now()), id, t, f)
    {
      tasks := tasks[id := t];
      if f == Works {
        saved := saved[id := t.record];
      }
    }

    method StartLogin(id: Id, title: string, renewal: Renewal, f: Fate) returns (r: Option<LoginRecord>)
      modifies this`tasks, this`saved
      ensures (Now(), r) == StartEffect(old(Now()), id, title, renewal, f)
    {
      var rest := tasks.Keys;
      while rest != {}
        invariant rest <= tasks.Keys
        invariant forall k :: k in tasks && k !in rest ==> !Pending(tasks[k].record.status)
        decreases |rest|
      {
        var k :| k in rest;
        if Pending(tasks[k].record.status) {
          return None;
        }
        rest := rest - {k};
      }
      if renewal.Unresolvable? {
        return None;
      }
      var record := LoginRecord(Starting, if renewal.Renew? then renewal.slot else "", title, false, false);
      if f != Works {
        return None;
      }
      Replace(id, Task(record, record.slot, Capturing, Open), Works);
      r := Some(record);
    }

    method LoginStatus(id: Id) returns (r: Option<LoginRecord>)
      ensures r == StatusOf(Now(), id)
    {
      if id in tasks {
        return Some(tasks[id].record);
      }
      r := if ValidSlotName(id) && id in saved then Some(saved[id]) else None;
    }

    method CancelLogin(id: Id, f: Fate) returns (r: Option<LoginRecord>)
      modifies this`tasks, this`saved
      ensures (Now(), r) == CancelEffect(old(Now()), id, f)
    {
      if id in tasks {
        var t := tasks[id];
        if Pending(t.record.status) {
          t := t.(record := t.record.(status := Cancelled), ctx := Stop(t.ctx));
          Replace(id, t, f);
          if f != Works {
            return None;
          }
        }
        return Some(t.record);
      }
      r := LoginStatus(id);
    }

    method Emit(id: Id, f: Fate)
      requires id in tasks
      modifies this`tasks, this`saved
      ensures Now() == EmitEffect(old(Now()), id, f)
    {
      if tasks[id].record.status == Cancelled {
        return;
      }
      Replace(id, tasks[id].(record := tasks[id].record.(status := Waiting)), f);
    }

    method FinishLogin(id: Id, f: Fate)
      requires id in tasks
      modifies this`tasks, this`saved
      ensures Now() == FinishEffect(old(Now()), id, f)
    {
      var t := tasks[id];
      var over := t.(phase := Done, ctx := Stop(t.ctx));
      if t.record.status == Cancelled {
        tasks := tasks[id := over];
        return;
      }
      var status := Failed;
      if t.ctx == TimedOut {
        status := Expired;
      }
      Replace(id, over.(record := t.record.(status := status)), f);
    }

    /** Saves the bundle under the display name, all while the mutex is held. */
    method SaveBundle(io: Schedule, slot: Name, a: Auth, title: string) returns (ok: bool, up: bool)
      modifies this`disk
      ensures var (w, done) := SaveLoginEffect(io, Start(old(disk)), slot, a, title);
        disk == w.disk && up == w.up && ok == done
    {
      var m := new Machine(io, disk);
      ok := Put(m, slot, a, true);
      if ok && title != "" {
        ok := Get(m.disk.lib, slot).Some?;
        if ok {
          ok := m.PutRevision(slot, m.disk.lib.slots[slot].revision);
        }
      }
      disk, up := m.disk, m.up;
    }

    /** Which slot the bundle goes to, and whether it was there before. */
    method ChooseSlot(asked: Name, a: Auth, newSlot: Name) returns (slot: Option<Name>, updated: bool)
      ensures slot == SlotFor(disk.lib, asked, a, newSlot)
      ensures updated == (asked != "" || Find(disk.lib, a.id).Some?)
    {
      var found := FindByIdentity(disk.lib, a.id);
      updated := found.Some?;
      if asked != "" {
        var before := Get(disk.lib, asked);
        if before.None? || !SameSeat(before.value.id, a.id) {
          return None, true;
        }
        return Some(asked), true;
      }
      slot := if found.None? then Some(newSlot) else found;
    }

    /** Saves the bundle and records how that went. */
    method SaveLogin(id: Id, io: Schedule, slot: Name, updated: bool, auth: Auth, f: Fate)
      requires id in tasks
      modifies this
      ensures var (w, done) := SaveLoginEffect(io, Start(old(disk)), slot, auth, old(tasks)[id].record.title);
        Now() == SavedEffect(old(Now()), id, slot, updated, w, done, f)
    {
      var t := tasks[id];
      var ok, up := SaveBundle(io, slot, auth, t.record.title);
      if !up {
        tasks, serving := map[], false;
        return;
      }
      var r := t.record.(status := Failed);
      if ok {
        r := t.record.(status := Succeeded, slot := slot, updated := updated);
      }
      Replace(id, t.(record := r, phase := Done, ctx := Stop(t.ctx)), f);
    }

    method Commit(id: Id, io: Schedule, newSlot: Name, f: Fate)
      requires id in tasks && tasks[id].phase.Captured?
      modifies this
      ensures Now() == CommitEffect(old(Now()), id, io, newSlot, f)
    {
      var t := tasks[id];
      var auth := t.phase.auth;
      var over := t.(phase := Done, ctx := Stop(t.ctx));
      if t.ctx != Open || t.record.status == Cancelled {
        tasks := tasks[id := over];
        return;
      }
      if !IsBundle(auth) {
        Replace(id, over.(record := t.record.(status := Failed)), f);
        return;
      }
      var slot, updated := ChooseSlot(t.asked, auth, newSlot);
      if slot.None? {
        Replace(id, over.(record := t.record.(status := Failed, mismatch := true)), f);
        return;
      }
      SaveLogin(id, io, slot.value, updated, auth, f);
    }

    /** The login part of Recover. */
    method ExpirePending(files: seq<Id>, saves: Id -> Fate)
      modifies this
      ensures Now() == RestartEffect(old(Now()), files, saves)
    {
      tasks, serving := map[], false;
      ghost var s0 := Now();
      var i := 0;
      while i < |files|
        invariant 0 <= i <= |files|
        invariant !serving
        invariant ExpireFrom(s0, files, 0, saves) == ExpireFrom(Now(), files, i, saves)
      {
        var id := files[i];
        if ValidSlotName(id) && id in saved && Pending(saved[id].status) {
          if saves(id) != Works {
            return;
          }
          saved := saved[id := saved[id].(status := Expired)];
        }
        i := i + 1;
      }
      serving := true;
    }
  }
}
