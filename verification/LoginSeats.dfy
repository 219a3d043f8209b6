/** The seats of saved accounts over whole runs of logins. */
module LoginSeats {
  import opened Options
  import opened Accounts
  import opened Disk
  import opened Store
  import opened Login
  import opened LoginProofs

  // ---- Seats that stay ---------------------------------------------------------------------------

  /** The slot still holds bundle a, or one of its seat. */
  ghost predicate Holds(lib: Library, n: Name, a: Auth) {
    Get(lib, n) == Some(a) || (Get(lib, n).Some? && SameSeat(a.id, Get(lib, n).value.id))
  }

  /** If the step commits a login while slot n is readable, the claims of the first bundle, of the
      slot's current one and of the captured one chain. */
  ghost predicate StepChains(s: Logins, ev: Event, n: Name, first: Auth) {
    ev.Commits? && Enabled(s, ev) && Get(s.disk.lib, n).Some? ==>
      Chains(ShapeOf(first.id), ShapeOf(Get(s.disk.lib, n).value.id), ShapeOf(s.tasks[ev.id].phase.auth.id))
  }

  /** Nobody but the logins changes the library. */
  ghost predicate OnlyLogins(s: Logins, ev: Event) {
    ev.Elsewhere? ==> ev.disk.lib == s.disk.lib
  }

  ghost predicate ChainedRun(s: Logins, evs: seq<Event>, n: Name, first: Auth) {
    forall k :: 0 <= k < |evs| ==>
      StepChains(Run(s, evs[..k]), evs[k], n, first) && OnlyLogins(Run(s, evs[..k]), evs[k])
  }

  lemma HoldsStep(s: Logins, ev: Event, n: Name, first: Auth)
    requires LoginInv(s) && NewIds(s, ev) && Holds(s.disk.lib, n, first)
    requires StepChains(s, ev, n, first) && OnlyLogins(s, ev)
    ensures Holds(Step(s, ev).disk.lib, n, first)
  {
    if ev.Commits? && Enabled(s, ev) {
      CommitKeepsSeats(s, ev.id, ev.io, ev.newSlot, ev.save);
      var b, c := Get(s.disk.lib, n).value, s.tasks[ev.id].phase.auth;
      SameSeatTransitiveExactly(ShapeOf(first.id), ShapeOf(b.id), ShapeOf(c.id));
    } else if !ev.Elsewhere? && !ev.Commits? {
      StoreUntouched(s, ev);
    }
  }

  /** Over every interleaving of logins, however their writes fail and whenever the host dies,
      a saved account keeps its seat, if with every login that commits the claims chain. */
  lemma {:induction false} SeatsOverRuns(s: Logins, evs: seq<Event>, n: Name, first: Auth)
    requires LoginInv(s) && FreshRun(s, evs) && Get(s.disk.lib, n) == Some(first) && ChainedRun(s, evs, n, first)
    ensures Holds(Run(s, evs).disk.lib, n, first)
  {
    if evs != [] {
      var init, last := evs[..|evs| - 1], evs[|evs| - 1];
      FreshPrefix(s, evs);
      forall k | 0 <= k < |init|
        ensures StepChains(Run(s, init[..k]), init[k], n, first) && OnlyLogins(Run(s, init[..k]), init[k])
      {
        assert init[..k] == evs[..k];
      }
      SeatsOverRuns(s, init, n, first);
      LoginProofs.InvRun(s, init);
      HoldsStep(Run(s, init), last, n, first);
    }
  }

  /** Claims always chain among bundles with user and workspace ids, and among bundles that carry the same claims. */
  lemma FullAndEqualChain(s: Shape, t: Shape, u: Shape)
    requires (s.user && s.workspace && t.user && t.workspace && u.user && u.workspace) || s == t == u
    ensures Chains(s, t, u)
  {}

  // ---- Seats that drift ---------------------------------------------------------------------------

  lemma {:induction false} RunConcat(s: Logins, xs: seq<Event>, ys: seq<Event>)
    ensures Run(s, xs + ys) == Run(Run(s, xs), ys)
  {
    if ys == [] {
      assert xs + ys == xs;
    } else {
      var init := ys[..|ys| - 1];
      assert (xs + ys)[..|xs + ys| - 1] == xs + init;
      RunConcat(s, xs, init);
    }
  }

  lemma FreshAt(s: Logins, xs: seq<Event>, ys: seq<Event>, i: nat)
    requires FreshRun(Run(s, xs), ys) && |xs| <= i < |xs + ys|
    ensures NewIds(Run(s, (xs + ys)[..i]), (xs + ys)[i])
  {
    var k := i - |xs|;
    RunConcat(s, xs, ys[..k]);
    assert (xs + ys)[..i] == xs + ys[..k];
    assert NewIds(Run(Run(s, xs), ys[..k]), ys[k]);
  }

  lemma FreshConcat(s: Logins, xs: seq<Event>, ys: seq<Event>)
    requires FreshRun(s, xs) && FreshRun(Run(s, xs), ys)
    ensures FreshRun(s, xs + ys)
  {
    forall i | 0 <= i < |xs + ys|
      ensures NewIds(Run(s, (xs + ys)[..i]), (xs + ys)[i])
    {
      if i < |xs| {
        assert (xs + ys)[..i] == xs[..i];
      } else {
        FreshAt(s, xs, ys, i);
      }
    }
  }

  /** A login that renews the account in slot "work" with bundle b. */
  function Renewal(id: Id, b: Auth): seq<Event> {
    [StartReq(id, "", Renew("work"), Works), CaptureEnds(id, Some(b)), Commits(id, _ => Works, "spare", Works)]
  }

  /** A host with one saved account and no login under way. */
  ghost predicate Settled(s: Logins, a: Auth) {
    && LoginInv(s) && s.serving && !Busy(s)
    && s.disk.lib.slots.Keys == {"work"} && Get(s.disk.lib, "work") == Some(a)
  }

  lemma RunThree(s: Logins, x: Event, y: Event, z: Event)
    ensures Run(s, [x, y, z]) == Step(Step(Step(s, x), y), z)
    ensures NewIds(s, x) && NewIds(Step(s, x), y) && NewIds(Step(Step(s, x), y), z) ==> FreshRun(s, [x, y, z])
  {
    var evs := [x, y, z];
    assert evs[..2] == [x, y] && evs[..1] == [x] && evs[..0] == [] && [x, y][..1] == [x] && [x][..0] == [];
    assert Run(s, []) == s;
    assert Run(s, [x]) == Step(s, x);
    assert Run(s, [x, y]) == Step(Step(s, x), y);
  }

  /** The task of a renewal as its login ends with bundle b. */
  ghost predicate RenewalHeld(s: Logins, s2: Logins, id: Id, b: Auth) {
    && s2.disk == s.disk && s2.serving && s2.tasks.Keys == s.tasks.Keys + {id} && s2.saved.Keys == s.saved.Keys + {id}
    && s2.tasks[id] == Task(LoginRecord(Starting, "work", "", false, false), "work", Captured(b), Open)
    && forall k :: k in s.tasks && k != id ==> s2.tasks[k] == s.tasks[k]
  }

  lemma RenewalCaptured(s: Logins, id: Id, a: Auth, b: Auth)
    requires Settled(s, a) && id !in s.tasks && id !in s.saved
    ensures RenewalHeld(s, Step(Step(s, StartReq(id, "", Renew("work"), Works)), CaptureEnds(id, Some(b))), id, b)
    ensures NewIds(s, StartReq(id, "", Renew("work"), Works))
    ensures NewIds(Step(s, StartReq(id, "", Renew("work"), Works)), CaptureEnds(id, Some(b)))
  {}

  lemma SaveWorks(w: World, n: Name, b: Auth)
    requires w.up && IsBundle(b) && ValidSlotName(n) && n in w.disk.lib.slots
    ensures var (w', ok) := SaveLoginEffect(_ => Works, w, n, b, "");
      ok && w'.up && Get(w'.disk.lib, n) == Some(b) && w'.disk.lib.slots.Keys == w.disk.lib.slots.Keys
  {}

  lemma InvStep(s: Logins, ev: Event)
    requires LoginInv(s) && NewIds(s, ev)
    ensures LoginInv(Step(s, ev))
  {
    StepShape(s, ev);
    MovedKeepsInv(s, Step(s, ev), ev);
  }

  /** The commit of a captured renewal. */
  lemma RenewalCommits(s: Logins, s2: Logins, s3: Logins, id: Id, a: Auth, b: Auth)
    requires Settled(s, a) && RenewalHeld(s, s2, id, b) && IsBundle(b) && SameSeat(a.id, b.id)
    requires s3 == Step(s2, Commits(id, _ => Works, "spare", Works))
    ensures NewIds(s2, Commits(id, _ => Works, "spare", Works))
    ensures s3.serving && !Busy(s3) && s3.saved.Keys == s2.saved.Keys
    ensures s3.disk.lib.slots.Keys == {"work"} && Get(s3.disk.lib, "work") == Some(b)
  {
    SaveWorks(Start(s2.disk), "work", b);
    assert s3 == CommitEffect(s2, id, _ => Works, "spare", Works);
    forall k | k in s3.tasks
      ensures !Pending(s3.tasks[k].record.status)
    {
      assert k != id ==> k in s.tasks && s3.tasks[k] == s.tasks[k] && !PendingTask(s, k);
    }
  }

  /** Three steps with new identifiers keep the invariant. */
  lemma InvThree(s: Logins, x: Event, y: Event, z: Event)
    requires LoginInv(s) && NewIds(s, x) && NewIds(Step(s, x), y) && NewIds(Step(Step(s, x), y), z)
    ensures LoginInv(Step(Step(Step(s, x), y), z)) && FreshRun(s, [x, y, z])
  {
    InvStep(s, x);
    InvStep(Step(s, x), y);
    InvStep(Step(Step(s, x), y), z);
    RunThree(s, x, y, z);
  }

  /** A renewal whose bundle matches the slot replaces its bundle. */
  lemma {:induction false} RenewalReplaces(s: Logins, id: Id, a: Auth, b: Auth)
    requires Settled(s, a) && id !in s.tasks && id !in s.saved && IsBundle(b) && SameSeat(a.id, b.id)
    ensures FreshRun(s, Renewal(id, b)) && Settled(Run(s, Renewal(id, b)), b)
    ensures Run(s, Renewal(id, b)).saved.Keys == s.saved.Keys + {id}
  {
    var x, y := StartReq(id, "", Renew("work"), Works), CaptureEnds(id, Some(b));
    var z := Commits(id, _ => Works, "spare", Works);
    RenewalCaptured(s, id, a, b);
    var s2 := Step(Step(s, x), y);
    RenewalCommits(s, s2, Step(s2, z), id, a, b);
    InvThree(s, x, y, z);
    RunThree(s, x, y, z);
    assert Renewal(id, b) == [x, y, z];
  }

  /** Two renewals in a row leave the second bundle. */
  lemma TwoRenewals(s: Logins, a: Auth, b: Auth, c: Auth)
    requires Settled(s, a) && s.tasks == map[] && s.saved == map[] && IsBundle(b) && IsBundle(c)
    requires SameSeat(a.id, b.id) && SameSeat(b.id, c.id)
    ensures var evs := Renewal("one", b) + Renewal("two", c);
      FreshRun(s, evs) && Get(Run(s, evs).disk.lib, "work") == Some(c)
  {
    RenewalReplaces(s, "one", a, b);
    var mid := Run(s, Renewal("one", b));
    assert "two" !in mid.saved.Keys;
    RenewalReplaces(mid, "two", b, c);
    RunConcat(s, Renewal("one", b), Renewal("two", c));
    FreshConcat(s, Renewal("one", b), Renewal("two", c));
  }

  function Bundled(id: Identity): Auth {
    Auth(id.(authMode := "chatgpt"), "R", None, 0)
  }

  function Alone(a: Auth): Logins {
    Logins(map[], map[], Disk(map[], NoJournal, None, Library(["work"], map["work" := Slot(Readable(a), None)])), true)
  }

  /** For claims that do not chain two renewals suffice: the first replaces a bundle by one of its
      seat, the second that one by one of its seat, and the slot no longer holds the first seat. */
  lemma SeatDrifts(s: Shape, t: Shape, u: Shape) returns (a: Auth, b: Auth, c: Auth)
    requires !Chains(s, t, u)
    ensures ShapeOf(a.id) == s && ShapeOf(b.id) == t && ShapeOf(c.id) == u
    ensures var evs := Renewal("one", b) + Renewal("two", c);
      && LoginInv(Alone(a)) && FreshRun(Alone(a), evs) && (forall ev :: ev in evs ==> !ev.Elsewhere?)
      && Get(Alone(a).disk.lib, "work") == Some(a)
      && Get(Run(Alone(a), evs).disk.lib, "work") == Some(c) && !Holds(Run(Alone(a), evs).disk.lib, "work", a)
  {
    var x, y, z := UnchainedFails(s, t, u);
    a, b, c := Bundled(x), Bundled(y), Bundled(z);
    BundledSeat(x, y);
    BundledSeat(y, z);
    BundledSeat(x, z);
    AloneSettled(a);
    TwoRenewals(Alone(a), a, b, c);
  }

  lemma AloneSettled(a: Auth)
    ensures Settled(Alone(a), a)
  {
    assert ValidSlotName("work");
  }

  lemma BundledSeat(x: Identity, y: Identity)
    ensures ShapeOf(Bundled(x).id) == ShapeOf(x) && IsBundle(Bundled(x))
    ensures SameSeat(Bundled(x).id, Bundled(y).id) <==> SameSeat(x, y)
    ensures SameSeat(x, y) ==> SameSeat(Bundled(x).id, Bundled(x).id)
  {
    SameSeatDecided(x, y);
    SameSeatDecided(Bundled(x).id, Bundled(y).id);
    SameSeatDecided(Bundled(x).id, Bundled(x).id);
  }
}
