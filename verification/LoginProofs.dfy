/** Safety of web logins over every interleaving of their steps. */
module LoginProofs {
  import opened Options
  import opened Accounts
  import opened Disk
  import opened Store
  import opened Login

  /** TimeOut and CaptureEnds belong to the login's own thread and clock; Elsewhere is anything
      else that changes the disk between two steps. */
  datatype Event =
    | StartReq(id: Id, title: string, renewal: Renewal, save: Fate)
    | CancelReq(id: Id, save: Fate)
    | Emits(id: Id, save: Fate)
    | TimeOut(id: Id)
    | CaptureEnds(id: Id, result: Option<Auth>)
    | Finishes(id: Id, save: Fate)
    | Commits(id: Id, io: Schedule, newSlot: Name, save: Fate)
    | KillHost
    | StartHost(files: seq<Id>, saves: Id -> Fate)
    | Elsewhere(disk: Disk)

  /** The login command reports codes only while it runs. */
  predicate Enabled(s: Logins, ev: Event) {
    match ev
    case Emits(id, _) => id in s.tasks && s.tasks[id].phase == Capturing
    case TimeOut(id) => id in s.tasks && s.tasks[id].ctx == Open
    case CaptureEnds(id, _) => id in s.tasks && s.tasks[id].phase == Capturing
    case Finishes(id, _) => id in s.tasks && (s.tasks[id].phase == Broken || s.tasks[id].phase.Captured?)
    case Commits(id, _, _, _) => id in s.tasks && s.tasks[id].phase.Captured?
    case StartReq(_, _, _, _) => s.serving
    case CancelReq(_, _) => s.serving
    case StartHost(_, _) => !s.serving
    case _ => true
  }

  function Step(s: Logins, ev: Event): Logins {
    if !Enabled(s, ev) then s
    else match ev
      case StartReq(id, title, renewal, f) => StartEffect(s, id, title, renewal, f).0
      case CancelReq(id, f) => CancelEffect(s, id, f).0
      case Emits(id, f) => EmitEffect(s, id, f)
      case TimeOut(id) => s.(tasks := s.tasks[id := s.tasks[id].(ctx := TimedOut)])
      case CaptureEnds(id, result) =>
        s.(tasks := s.tasks[id := s.tasks[id].(phase := if result.Some? then Captured(result.value) else Broken)])
      case Finishes(id, f) => FinishEffect(s, id, f)
      case Commits(id, io, newSlot, f) => CommitEffect(s, id, io, newSlot, f)
      case KillHost => s.(tasks := map[], serving := false)
      case StartHost(files, saves) => RestartEffect(s, files, saves)
      case Elsewhere(d) => s.(disk := d)
  }

  function Run(s: Logins, evs: seq<Event>): Logins {
    if evs == [] then s else Step(Run(s, evs[..|evs| - 1]), evs[|evs| - 1])
  }

  /** newID draws names that are not in use. */
  predicate NewIds(s: Logins, ev: Event) {
    && (ev.StartReq? ==> ev.id !in s.tasks && ev.id !in s.saved)
    && (ev.Commits? ==> ev.newSlot !in s.disk.lib.slots)
  }

  ghost predicate FreshRun(s: Logins, evs: seq<Event>) {
    forall i :: 0 <= i < |evs| ==> NewIds(Run(s, evs[..i]), evs[i])
  }

  lemma FreshPrefix(s: Logins, evs: seq<Event>)
    requires evs != [] && FreshRun(s, evs)
    ensures FreshRun(s, evs[..|evs| - 1]) && NewIds(Run(s, evs[..|evs| - 1]), evs[|evs| - 1])
  {
    var init := evs[..|evs| - 1];
    forall i | 0 <= i < |init|
      ensures NewIds(Run(s, init[..i]), init[i])
    {
      assert init[..i] == evs[..i];
    }
  }

  // ---- One login at a time -----------------------------------------------------------------------

  predicate PendingTask(s: Logins, id: Id) {
    id in s.tasks && Pending(s.tasks[id].record.status)
  }

  ghost predicate OneActive(s: Logins) {
    forall a, b :: PendingTask(s, a) && PendingTask(s, b) ==> a == b
  }

  /** A task's thread and its record agree; a login is expired only if its time ran out, and then
      it neither fails nor succeeds. */
  ghost predicate Coherent(t: Task) {
    && (!Pending(t.record.status) && t.record.status != Cancelled ==> t.phase == Done)
    && (t.record.status == Cancelled || t.phase == Done ==> t.ctx != Open)
    && (t.ctx == Stopped ==> t.record.status == Cancelled || t.phase == Done)
    && (t.record.status == Expired ==> t.ctx == TimedOut)
    && (t.record.status == Failed || t.record.status == Succeeded ==> t.ctx == Stopped)
  }

  ghost predicate LoginInv(s: Logins) {
    && OneActive(s)
    && (forall id :: id in s.tasks ==> Coherent(s.tasks[id]) && id in s.saved)
    && (!s.serving ==> s.tasks == map[])
  }

  /** A step touches one task's record, or ends all tasks. */
  ghost predicate Touches(s: Logins, s': Logins, id: Id) {
    && id in s.tasks && s'.serving == s.serving
    && s'.tasks.Keys == s.tasks.Keys
    && (forall k :: k in s.tasks && k != id ==> s'.tasks[k] == s.tasks[k])
    && (Pending(s'.tasks[id].record.status) ==> Pending(s.tasks[id].record.status))
    && Coherent(s'.tasks[id])
    && (forall k :: k in s.saved ==> k in s'.saved && (k != id ==> s'.saved[k] == s.saved[k]))
    && (!Pending(s.tasks[id].record.status) ==> s'.tasks[id].record == s.tasks[id].record && s'.saved == s.saved)
  }

  ghost predicate Ends(s: Logins, s': Logins) {
    s'.tasks == map[] && forall k :: k in s.saved ==>
      k in s'.saved && (Pending(s.saved[k].status) || s'.saved[k] == s.saved[k])
  }

  ghost predicate Starts(s: Logins, s': Logins, id: Id) {
    && s.serving && s'.serving && !Busy(s) && id !in s.tasks && id !in s.saved
    && s'.tasks.Keys == s.tasks.Keys + {id}
    && (forall k :: k in s.tasks ==> s'.tasks[k] == s.tasks[k])
    && Coherent(s'.tasks[id]) && id in s'.saved
    && (forall k :: k in s.saved ==> k in s'.saved && s'.saved[k] == s.saved[k])
  }

  ghost predicate SameTasks(s: Logins, s': Logins) {
    s'.tasks == s.tasks && s'.saved == s.saved && s'.serving == s.serving
  }

  /** A step of one login. */
  predicate OfTask(ev: Event) {
    ev.CancelReq? || ev.Emits? || ev.TimeOut? || ev.CaptureEnds? || ev.Finishes? || ev.Commits?
  }

  ghost predicate Moved(s: Logins, s': Logins, ev: Event) {
    || SameTasks(s, s')
    || Ends(s, s')
    || (ev.StartReq? && Starts(s, s', ev.id))
    || (OfTask(ev) && Touches(s, s', ev.id))
  }

  lemma {:induction false} ExpireShape(s: Logins, files: seq<Id>, i: nat, saves: Id -> Fate)
    requires i <= |files|
    ensures var s' := ExpireFrom(s, files, i, saves).0;
      && s'.tasks == s.tasks && s'.disk == s.disk && s'.saved.Keys == s.saved.Keys
      && forall k :: k in s.saved && !Pending(s.saved[k].status) ==> s'.saved[k] == s.saved[k]
    decreases |files| - i
  {
    if i < |files| {
      if !Stale(s, files[i]) {
        ExpireShape(s, files, i + 1, saves);
      } else if saves(files[i]) == Works {
        ExpireShape(s.(saved := s.saved[files[i] := s.saved[files[i]].(status := Expired)]), files, i + 1, saves);
      }
    }
  }

  function ExpiredRecord(s: Logins, files: seq<Id>, id: Id): LoginRecord
    requires id in s.saved
  {
    if id in files && Stale(s, id) then s.saved[id].(status := Expired) else s.saved[id]
  }

  lemma {:induction false} ExpiresFrom(s: Logins, files: seq<Id>, i: nat, saves: Id -> Fate)
    requires i <= |files|
    ensures var (s', done) := ExpireFrom(s, files, i, saves);
      && (done <==> forall id :: id in files[i..] && Stale(s, id) ==> saves(id) == Works)
      && s'.saved.Keys == s.saved.Keys
      && (done ==> forall id :: id in s.saved ==> s'.saved[id] == ExpiredRecord(s, files[i..], id))
    decreases |files| - i
  {
    if i < |files| {
      assert files[i..] == [files[i]] + files[i + 1..];
      if !Stale(s, files[i]) {
        ExpiresFrom(s, files, i + 1, saves);
      } else if saves(files[i]) == Works {
        ExpiresFrom(s.(saved := s.saved[files[i] := s.saved[files[i]].(status := Expired)]), files, i + 1, saves);
      }
    }
  }

  /** A start-up serves if and only if every pending login file it lists could be saved, and then
      has expired exactly those: none of them is pending any more, and no other file changed. */
  lemma ServingExpiresExactly(s: Logins, ev: Event)
    requires ev.StartHost? && !s.serving
    ensures Step(s, ev).serving <==> forall id :: id in ev.files && Stale(s, id) ==> ev.saves(id) == Works
    ensures Step(s, ev).saved.Keys == s.saved.Keys
    ensures Step(s, ev).serving ==> forall id :: id in s.saved ==>
      && Step(s, ev).saved[id] == ExpiredRecord(s, ev.files, id)
      && (id in ev.files ==> !Stale(Step(s, ev), id))
  {
    ExpiresFrom(s.(tasks := map[], serving := false), ev.files, 0, ev.saves);
    assert ev.files[0..] == ev.files;
  }

  lemma UpdateTouches(s: Logins, d: Disk, id: Id, t: Task, f: Fate)
    requires id in s.tasks && Pending(s.tasks[id].record.status) && Coherent(t)
    ensures Touches(s, Update(s.(disk := d), id, t, f), id)
  {}

  lemma SavedShape(s: Logins, id: Id, slot: Name, updated: bool, w: World, ok: bool, f: Fate)
    requires LoginInv(s) && id in s.tasks && MayCommit(s.tasks[id]) && s.tasks[id].phase.Captured?
    ensures var s' := SavedEffect(s, id, slot, updated, w, ok, f); Touches(s, s', id) || Ends(s, s')
  {
    var t := s.tasks[id];
    var over := t.(phase := Done, ctx := Stop(t.ctx));
    UpdateTouches(s, w.disk, id, over.(record := t.record.(status := Succeeded, slot := slot, updated := updated)), f);
    UpdateTouches(s, w.disk, id, over.(record := t.record.(status := Failed)), f);
  }

  lemma CommitShape(s: Logins, id: Id, io: Schedule, newSlot: Name, f: Fate)
    requires LoginInv(s) && id in s.tasks && s.tasks[id].phase.Captured?
    ensures var s' := CommitEffect(s, id, io, newSlot, f); Touches(s, s', id) || Ends(s, s')
  {
    var t := s.tasks[id];
    var a := t.phase.auth;
    var over := t.(phase := Done, ctx := Stop(t.ctx));
    if MayCommit(t) {
      var slot := SlotFor(s.disk.lib, t.asked, a, newSlot);
      if !IsBundle(a) {
        UpdateTouches(s, s.disk, id, over.(record := t.record.(status := Failed)), f);
      } else if slot.None? {
        UpdateTouches(s, s.disk, id, over.(record := t.record.(status := Failed, mismatch := true)), f);
      } else {
        var (w, ok) := SaveLoginEffect(io, Start(s.disk), slot.value, a, t.record.title);
        SavedShape(s, id, slot.value, t.asked != "" || Find(s.disk.lib, a.id).Some?, w, ok, f);
      }
    }
  }

  lemma FinishShape(s: Logins, id: Id, f: Fate)
    requires LoginInv(s) && id in s.tasks && (s.tasks[id].phase == Broken || s.tasks[id].phase.Captured?)
    ensures Touches(s, FinishEffect(s, id, f), id)
  {
    var t := s.tasks[id];
    if t.record.status != Cancelled {
      var over := t.(phase := Done, ctx := Stop(t.ctx));
      var status := if t.ctx == TimedOut then Expired else Failed;
      UpdateTouches(s, s.disk, id, over.(record := t.record.(status := status)), f);
    }
  }

  lemma CancelShape(s: Logins, id: Id, f: Fate)
    requires LoginInv(s)
    ensures SameTasks(s, CancelEffect(s, id, f).0) || Touches(s, CancelEffect(s, id, f).0, id)
  {
    if id in s.tasks && Pending(s.tasks[id].record.status) {
      var t := s.tasks[id];
      UpdateTouches(s, s.disk, id, t.(record := t.record.(status := Cancelled), ctx := Stop(t.ctx)), f);
    }
  }

  lemma EmitShape(s: Logins, id: Id, f: Fate)
    requires LoginInv(s) && id in s.tasks && s.tasks[id].phase == Capturing
    ensures SameTasks(s, EmitEffect(s, id, f)) || Touches(s, EmitEffect(s, id, f), id)
  {
    var t := s.tasks[id];
    if t.record.status != Cancelled {
      UpdateTouches(s, s.disk, id, t.(record := t.record.(status := Waiting)), f);
    }
  }

  lemma StartShape(s: Logins, id: Id, title: string, renewal: Renewal, f: Fate)
    requires LoginInv(s) && s.serving && id !in s.tasks && id !in s.saved
    ensures var s' := StartEffect(s, id, title, renewal, f).0; SameTasks(s, s') || Starts(s, s', id)
  {}

  lemma StepShape(s: Logins, ev: Event)
    requires LoginInv(s) && NewIds(s, ev)
    ensures Moved(s, Step(s, ev), ev)
  {
    if Enabled(s, ev) {
      match ev
      case Commits(id, io, newSlot, f) => CommitShape(s, id, io, newSlot, f);
      case StartHost(files, saves) => ExpireShape(s.(tasks := map[], serving := false), files, 0, saves);
      case StartReq(id, title, renewal, f) => StartShape(s, id, title, renewal, f);
      case CancelReq(id, f) => CancelShape(s, id, f);
      case Emits(id, f) => EmitShape(s, id, f);
      case Finishes(id, f) => FinishShape(s, id, f);
      case _ =>
    }
  }

  lemma TouchesKeepsInv(s: Logins, s': Logins, id: Id)
    requires LoginInv(s) && Touches(s, s', id)
    ensures LoginInv(s')
  {
    forall a, b | PendingTask(s', a) && PendingTask(s', b)
      ensures a == b
    {
      assert PendingTask(s, a) && PendingTask(s, b);
    }
    forall k | k in s'.tasks
      ensures Coherent(s'.tasks[k]) && k in s'.saved
    {
      assert k in s.tasks;
    }
    assert s.tasks.Keys != {};
  }

  lemma StartsKeepsInv(s: Logins, s': Logins, id: Id)
    requires LoginInv(s) && Starts(s, s', id)
    ensures LoginInv(s')
  {
    forall k | k in s'.tasks && Pending(s'.tasks[k].record.status)
      ensures k == id
    {
      assert k in s.tasks.Keys + {id};
    }
    forall k | k in s'.tasks
      ensures Coherent(s'.tasks[k]) && k in s'.saved
    {
      assert k in s.tasks.Keys + {id};
    }
  }

  lemma MovedKeepsInv(s: Logins, s': Logins, ev: Event)
    requires LoginInv(s) && Moved(s, s', ev)
    ensures LoginInv(s')
  {
    if ev.StartReq? && Starts(s, s', ev.id) {
      StartsKeepsInv(s, s', ev.id);
    } else if !SameTasks(s, s') && !Ends(s, s') {
      TouchesKeepsInv(s, s', ev.id);
    } else {
      assert forall k :: PendingTask(s', k) ==> PendingTask(s, k);
    }
  }

  /** In every interleaving at most one login is active, and every task agrees with its record. */
  lemma {:induction false} InvRun(s: Logins, evs: seq<Event>)
    requires LoginInv(s) && FreshRun(s, evs)
    ensures LoginInv(Run(s, evs))
  {
    if evs != [] {
      FreshPrefix(s, evs);
      InvRun(s, evs[..|evs| - 1]);
      var t, last := Run(s, evs[..|evs| - 1]), evs[|evs| - 1];
      StepShape(t, last);
      MovedKeepsInv(t, Step(t, last), last);
    }
  }

  // ---- A final status is final --------------------------------------------------------------------

  /** A cancelled login stays cancelled, and a succeeded, failed or expired one stays that: its
      record is never changed again, neither in memory nor on disk, across any interleaving. */
  lemma {:induction false} FinalForever(s: Logins, evs: seq<Event>, id: Id)
    requires LoginInv(s) && FreshRun(s, evs)
    requires id in s.tasks && !Pending(s.tasks[id].record.status)
    ensures var t := Run(s, evs);
      && (id in t.tasks ==> t.tasks[id].record == s.tasks[id].record)
      && id in t.saved
      && (s.saved[id] == s.tasks[id].record ==> t.saved[id] == s.saved[id])
  {
    if evs != [] {
      FreshPrefix(s, evs);
      FinalForever(s, evs[..|evs| - 1], id);
      InvRun(s, evs[..|evs| - 1]);
      StepShape(Run(s, evs[..|evs| - 1]), evs[|evs| - 1]);
    }
  }

  // ---- Requests that take effect ------------------------------------------------------------------

  /** Only the record and the thread of task id changed, to t, and t is on record if the save worked. */
  ghost predicate Becomes(s: Logins, s': Logins, id: Id, t: Task, save: Fate) {
    && s'.tasks == s.tasks[id := t] && s'.disk == s.disk && s'.serving == s.serving
    && s'.saved == if save == Works then s.saved[id := t.record] else s.saved
  }

  /** What a look at a login shows: the record of its task, else the one on file. */
  function Shown(s: Logins, id: Id): Option<LoginRecord> {
    if id in s.tasks then Some(s.tasks[id].record)
    else if id in s.saved && ValidSlotName(id) then Some(s.saved[id])
    else None
  }

  /** A login is started if and only if none is pending, the account to renew was found and the
      record could be saved; it is then starting, for that account. */
  lemma StartsExactly(s: Logins, ev: Event)
    requires LoginInv(s) && NewIds(s, ev) && ev.StartReq? && s.serving
    ensures StartEffect(s, ev.id, ev.title, ev.renewal, ev.save).1
         == if Step(s, ev) == s then None else Some(Step(s, ev).tasks[ev.id].record)
    ensures var s' := Step(s, ev);
      var asked := if ev.renewal.Renew? then ev.renewal.slot else "";
      if (exists k :: PendingTask(s, k)) || ev.renewal.Unresolvable? || ev.save != Works then s' == s
      else
        var r := LoginRecord(Starting, asked, ev.title, false, false);
        Becomes(s, s', ev.id, Task(r, asked, Capturing, Open), Works)
  {
    forall k | k in s.tasks && Pending(s.tasks[k].record.status)
      ensures PendingTask(s, k)
    {}
    assert Busy(s) <==> exists k :: PendingTask(s, k);
  }

  /** A pending login can be cancelled at any time, which stops its thread; no other login can. */
  lemma CancelsExactly(s: Logins, ev: Event)
    requires LoginInv(s) && ev.CancelReq? && s.serving
    ensures var s', reply := Step(s, ev), CancelEffect(s, ev.id, ev.save).1;
      reply == if PendingTask(s, ev.id) && ev.save != Works then None else Shown(s', ev.id)
    ensures var s' := Step(s, ev);
      if !PendingTask(s, ev.id) then s' == s
      else
        ev.id in s'.tasks && s'.tasks[ev.id].record == s.tasks[ev.id].record.(status := Cancelled)
        && s'.tasks[ev.id].ctx != Open && Becomes(s, s', ev.id, s'.tasks[ev.id], ev.save)
  {}

  /** A reported code makes a login waiting, and its thread ends it as expired if its time ran
      out, else as failed; a cancelled one stays cancelled. */
  lemma ThreadReports(s: Logins, ev: Event)
    requires LoginInv(s) && Enabled(s, ev) && (ev.Emits? || ev.Finishes?)
    ensures var s', t := Step(s, ev), s.tasks[ev.id];
      if t.record.status == Cancelled then s'.tasks[ev.id].record == t.record && s'.saved == s.saved
      else
        var status := if ev.Emits? then Waiting else if t.ctx == TimedOut then Expired else Failed;
        s'.tasks[ev.id].record == t.record.(status := status) && Becomes(s, s', ev.id, s'.tasks[ev.id], ev.save)
  {}

  // ---- What a login does to the library --------------------------------------------------------------

  /** Only the given slot may differ, and it holds what it held or bundle a. */
  ghost predicate OnlySlot(lib: Library, lib': Library, slot: Name, a: Auth) {
    && (forall n :: n in lib.slots && n != slot ==> n in lib'.slots && lib'.slots[n] == lib.slots[n])
    && (forall n :: n in lib'.slots ==> n in lib.slots || n == slot)
    && (slot in lib.slots ==> slot in lib'.slots)
    && (slot in lib'.slots ==>
          || lib'.slots[slot].stored == Readable(a)
          || (slot in lib.slots && lib'.slots[slot].stored == lib.slots[slot].stored))
  }

  ghost predicate OnlyLibrary(d: Disk, d': Disk) {
    d'.files == d.files && d'.journal == d.journal && d'.state == d.state
  }

  lemma PutShape(io: Schedule, w: World, slot: Name, a: Auth)
    ensures var (w', ok) := PutEffect(io, w, slot, a, true);
      && OnlySlot(w.disk.lib, w'.disk.lib, slot, a) && OnlyLibrary(w.disk, w'.disk)
      && (ok ==> w'.up && Get(w'.disk.lib, slot) == Some(a))
  {}

  lemma SaveShape(io: Schedule, w: World, slot: Name, a: Auth, title: string)
    ensures var (w', ok) := SaveLoginEffect(io, w, slot, a, title);
      && OnlySlot(w.disk.lib, w'.disk.lib, slot, a) && OnlyLibrary(w.disk, w'.disk)
      && (ok ==> w'.up && Get(w'.disk.lib, slot) == Some(a))
  {
    PutShape(io, w, slot, a);
  }

  /** Every readable slot is still there with its old bundle, or with bundle a of the same seat. */
  ghost predicate SeatsKept(lib: Library, lib': Library, a: Auth) {
    forall n :: Get(lib, n).Some? ==>
      Get(lib', n) == Get(lib, n) || (Get(lib', n) == Some(a) && SameSeat(Get(lib, n).value.id, a.id))
  }

  lemma ChosenSlotMatches(lib: Library, asked: Name, a: Auth, newSlot: Name)
    requires newSlot !in lib.slots && SlotFor(lib, asked, a, newSlot).Some?
    ensures var slot := SlotFor(lib, asked, a, newSlot).value;
      slot == newSlot || Matches(lib, slot, a.id)
  {
    FindSound(lib, a.id, 0);
  }

  lemma OnlySlotKeepsSeats(lib: Library, lib': Library, slot: Name, a: Auth)
    requires OnlySlot(lib, lib', slot, a) && (slot !in lib.slots || Matches(lib, slot, a.id))
    ensures SeatsKept(lib, lib', a)
  {}

  lemma SavedKeepsSeats(io: Schedule, d: Disk, asked: Name, a: Auth, newSlot: Name, title: string)
    requires newSlot !in d.lib.slots && SlotFor(d.lib, asked, a, newSlot).Some?
    ensures var d' := SaveLoginEffect(io, Start(d), SlotFor(d.lib, asked, a, newSlot).value, a, title).0.disk;
      SeatsKept(d.lib, d'.lib, a) && OnlyLibrary(d, d')
  {
    var slot := SlotFor(d.lib, asked, a, newSlot).value;
    ChosenSlotMatches(d.lib, asked, a, newSlot);
    SaveShape(io, Start(d), slot, a, title);
    OnlySlotKeepsSeats(d.lib, SaveLoginEffect(io, Start(d), slot, a, title).0.disk.lib, slot, a);
  }

  /** A commit, however its writes fail and wherever the process dies, leaves every saved account
      with the same seat; it changes nothing at all if the login was cancelled or timed out. */
  lemma CommitKeepsSeats(s: Logins, id: Id, io: Schedule, newSlot: Name, f: Fate)
    requires id in s.tasks && s.tasks[id].phase.Captured? && newSlot !in s.disk.lib.slots
    ensures var d' := CommitEffect(s, id, io, newSlot, f).disk;
      && SeatsKept(s.disk.lib, d'.lib, s.tasks[id].phase.auth) && OnlyLibrary(s.disk, d')
      && (!MayCommit(s.tasks[id]) ==> d' == s.disk)
  {
    var t := s.tasks[id];
    var a := t.phase.auth;
    if MayCommit(t) && IsBundle(a) && SlotFor(s.disk.lib, t.asked, a, newSlot).Some? {
      SavedKeepsSeats(io, s.disk, t.asked, a, newSlot, t.record.title);
    }
  }

  /** "Succeeded" means the captured bundle is in the slot the record names; a renewal only
      succeeds in the slot it was asked for. */
  lemma SuccessIsStored(s: Logins, id: Id, io: Schedule, newSlot: Name, f: Fate)
    requires LoginInv(s) && id in s.tasks && s.tasks[id].phase.Captured?
    ensures var s' := CommitEffect(s, id, io, newSlot, f);
      id in s'.tasks && s'.tasks[id].record.status == Succeeded ==>
        var r := s'.tasks[id].record;
        && Get(s'.disk.lib, r.slot) == Some(s.tasks[id].phase.auth)
        && (s.tasks[id].asked != "" ==> r.slot == s.tasks[id].asked)
        && (r.slot in s.disk.lib.slots || r.slot == newSlot)
  {
    var t := s.tasks[id];
    var a := t.phase.auth;
    FindSound(s.disk.lib, a.id, 0);
    if MayCommit(t) && IsBundle(a) && SlotFor(s.disk.lib, t.asked, a, newSlot).Some? {
      SaveShape(io, Start(s.disk), SlotFor(s.disk.lib, t.asked, a, newSlot).value, a, t.record.title);
    }
  }

  ghost predicate NoSlotOfSeat(lib: Library, id: Identity) {
    forall n :: n in lib.slots ==> !Matches(lib, n, id)
  }

  /** Which slot a login may save its bundle in, and whether that renews one. */
  ghost predicate RightSlot(lib: Library, asked: Name, id: Identity, newSlot: Name, slot: Name, updated: bool) {
    if asked != "" then slot == asked && updated && Matches(lib, asked, id)
    else if NoSlotOfSeat(lib, id) then slot == newSlot && !updated
    else updated && exists i: nat :: FirstOfSeat(lib, id, i) && slot == lib.listing[i]
  }

  lemma ChosenSlotIsRight(lib: Library, asked: Name, a: Auth, newSlot: Name)
    requires ListsSlots(lib)
    ensures var slot := SlotFor(lib, asked, a, newSlot);
      && (slot.Some? ==> RightSlot(lib, asked, a.id, newSlot, slot.value, asked != "" || Find(lib, a.id).Some?))
      && (slot.None? <==> asked != "" && !Matches(lib, asked, a.id))
  {
    FindSound(lib, a.id, 0);
    assert lib.listing[0..] == lib.listing;
    FindFirst(lib, a.id, 0);
  }

  lemma SavedGoesTo(io: Schedule, d: Disk, asked: Name, a: Auth, newSlot: Name, title: string)
    requires ListsSlots(d.lib) && SlotFor(d.lib, asked, a, newSlot).Some?
    ensures var slot := SlotFor(d.lib, asked, a, newSlot).value;
      var (w, ok) := SaveLoginEffect(io, Start(d), slot, a, title);
      ok ==>
        && RightSlot(d.lib, asked, a.id, newSlot, slot, asked != "" || Find(d.lib, a.id).Some?)
        && w.disk.lib.slots.Keys == d.lib.slots.Keys + {slot} && Get(w.disk.lib, slot) == Some(a)
  {
    ChosenSlotIsRight(d.lib, asked, a, newSlot);
    SaveShape(io, Start(d), SlotFor(d.lib, asked, a, newSlot).value, a, title);
  }

  /** The disk after a commit that may save is what its writes left, also if the host died in them. */
  lemma CommitLeavesWrites(s: Logins, id: Id, io: Schedule, newSlot: Name, f: Fate)
    requires id in s.tasks && s.tasks[id].phase.Captured? && MayCommit(s.tasks[id])
    requires Refreshable(s.tasks[id].phase.auth)
    ensures var t := s.tasks[id];
      var slot := SlotFor(s.disk.lib, t.asked, t.phase.auth, newSlot);
      slot.Some? ==>
        var (w, ok) := SaveLoginEffect(io, Start(s.disk), slot.value, t.phase.auth, t.record.title);
        var s' := CommitEffect(s, id, io, newSlot, f);
        s'.disk == w.disk && s'.serving == (s.serving && w.up)
  {}

  /** A login that succeeds saves its bundle in the slot it renews: the one it was asked for, else
      the first slot of the seat; only if no slot has the seat it makes a new one. */
  lemma SuccessGoesTo(s: Logins, id: Id, io: Schedule, newSlot: Name, f: Fate)
    requires LoginInv(s) && id in s.tasks && s.tasks[id].phase.Captured? && ListsSlots(s.disk.lib)
    ensures var s' := CommitEffect(s, id, io, newSlot, f);
      id in s'.tasks && s'.tasks[id].record.status == Succeeded ==>
        var r, lib, a := s'.tasks[id].record, s.disk.lib, s.tasks[id].phase.auth;
        && RightSlot(lib, s.tasks[id].asked, a.id, newSlot, r.slot, r.updated)
        && s'.disk.lib.slots.Keys == lib.slots.Keys + {r.slot}
        && Get(s'.disk.lib, r.slot) == Some(a)
  {
    var t := s.tasks[id];
    var lib, a := s.disk.lib, t.phase.auth;
    if MayCommit(t) && IsBundle(a) && SlotFor(lib, t.asked, a, newSlot).Some? {
      SavedGoesTo(io, s.disk, t.asked, a, newSlot, t.record.title);
    }
  }

  /** With all I/O working a commit succeeds if and only if the login was neither cancelled nor
      timed out, captured a bundle, a renewal signed in as the same seat, and a new slot can have
      the proposed name. A renewal that signed in as somebody else says so and changes nothing. */
  lemma CommitSucceedsExactly(s: Logins, id: Id, io: Schedule, newSlot: Name, f: Fate)
    requires LoginInv(s) && id in s.tasks && s.tasks[id].phase.Captured? && ListsSlots(s.disk.lib)
    requires forall n :: io(n) == Works
    ensures var s', t := CommitEffect(s, id, io, newSlot, f), s.tasks[id];
      var lib, a := s.disk.lib, t.phase.auth;
      && id in s'.tasks
      && (s'.tasks[id].record.status == Succeeded <==>
            && t.ctx == Open && t.record.status != Cancelled && Refreshable(a)
            && (t.asked != "" ==> Matches(lib, t.asked, a.id))
            && (t.asked == "" && NoSlotOfSeat(lib, a.id) ==> ValidSlotName(newSlot)))
      && (t.ctx == Open && t.record.status != Cancelled && Refreshable(a)
          && t.asked != "" && !Matches(lib, t.asked, a.id) ==>
            s'.tasks[id].record.status == Failed && s'.tasks[id].record.mismatch && s'.disk == s.disk)
      && (t.ctx == Open && t.record.status != Cancelled && !Refreshable(a) ==>
            s'.tasks[id].record == t.record.(status := Failed) && s'.disk == s.disk)
  {
    var t := s.tasks[id];
    var lib, a := s.disk.lib, t.phase.auth;
    ChosenSlotIsRight(lib, t.asked, a, newSlot);
    if MayCommit(t) && IsBundle(a) && SlotFor(lib, t.asked, a, newSlot).Some? {
      SaveSucceedsExactly(io, Start(s.disk), SlotFor(lib, t.asked, a, newSlot).value, a, t.record.title);
    }
  }

  lemma SaveSucceedsExactly(io: Schedule, w: World, slot: Name, a: Auth, title: string)
    requires w.up && IsBundle(a) && forall n :: io(n) == Works
    ensures SaveLoginEffect(io, w, slot, a, title).0.up
    ensures SaveLoginEffect(io, w, slot, a, title).1 <==> ValidSlotName(slot)
  {}

  /** No other login step touches the store; a cancelled login never does. */
  lemma StoreUntouched(s: Logins, ev: Event)
    requires LoginInv(s) && !ev.Elsewhere?
    requires ev.Commits? ==> ev.id in s.tasks && s.tasks[ev.id].record.status == Cancelled
    ensures Step(s, ev).disk == s.disk
  {
    if ev.StartHost? {
      ExpireShape(s.(tasks := map[], serving := false), ev.files, 0, ev.saves);
    }
  }

  // ---- The stranded login -----------------------------------------------------------------------------

  /** A commit ends a login without a final status if and only if its time ran out after its
      capture, and it was not cancelled. */
  lemma CommitStrandsExactly(s: Logins, id: Id, io: Schedule, newSlot: Name, f: Fate)
    requires LoginInv(s) && id in s.tasks && s.tasks[id].phase.Captured?
    ensures Stranded(CommitEffect(s, id, io, newSlot, f), id) <==>
      Pending(s.tasks[id].record.status) && s.tasks[id].ctx == TimedOut
  {
    var t := s.tasks[id];
    var a := t.phase.auth;
    if MayCommit(t) && IsBundle(a) && SlotFor(s.disk.lib, t.asked, a, newSlot).Some? {
      SaveShape(io, Start(s.disk), SlotFor(s.disk.lib, t.asked, a, newSlot).value, a, t.record.title);
    }
  }

  /** No other step strands a login. */
  lemma OnlyCommitStrands(s: Logins, ev: Event, id: Id)
    requires LoginInv(s) && NewIds(s, ev) && id in s.tasks && !Stranded(s, id)
    requires !(ev.Commits? && ev.id == id)
    ensures !Stranded(Step(s, ev), id)
  {
    StepShape(s, ev);
    if Enabled(s, ev) && ev.Finishes? && ev.id == id {
      FinishShape(s, id, ev.save);
    }
  }

  ghost predicate Stranded(s: Logins, id: Id) {
    id in s.tasks && s.tasks[id].phase == Done && Pending(s.tasks[id].record.status)
  }

  /** It then blocks every new login until somebody cancels it or the host ends. */
  lemma {:induction false} StrandedBlocks(s: Logins, evs: seq<Event>, id: Id)
    requires LoginInv(s) && FreshRun(s, evs) && Stranded(s, id)
    requires forall k :: 0 <= k < |evs| ==> evs[k] != KillHost && !(evs[k].CancelReq? && evs[k].id == id)
    ensures var t := Run(s, evs);
      Stranded(t, id) && forall new_, title, renewal, f :: StartEffect(t, new_, title, renewal, f) == (t, None)
  {
    if evs != [] {
      var init, last := evs[..|evs| - 1], evs[|evs| - 1];
      FreshPrefix(s, evs);
      StrandedBlocks(s, init, id);
      InvRun(s, init);
      StrandedStep(Run(s, init), last, id);
    }
  }

  lemma StrandedStep(s: Logins, ev: Event, id: Id)
    requires LoginInv(s) && NewIds(s, ev) && Stranded(s, id) && s.serving
    requires ev != KillHost && !(ev.CancelReq? && ev.id == id)
    ensures Stranded(Step(s, ev), id)
  {
    if ev.Commits? && Enabled(s, ev) && ev.id != id {
      assert PendingTask(s, id) && !PendingTask(s, ev.id);
      assert s.tasks[ev.id].record.status == Cancelled;
    }
  }
}
