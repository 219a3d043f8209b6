/** When reconciling again after a completed switch finds nothing left to do. */
module FixedPoint {
  import opened Options
  import opened Accounts
  import opened Clients
  import opened Disk
  import opened Reconcile
  import opened Store
  import opened Transaction
  import opened Recovery
  import opened Switch
  import opened SwitchProofs
  import opened Guarantees

  /** User and workspace claims everywhere, and no two slots for one seat. */
  ghost predicate DistinctSeats(lib: Library, lives: seq<Auth>) {
    && (forall n :: n in lib.listing && Get(lib, n).Some? ==> Full(Get(lib, n).value.id))
    && (forall a :: a in lives ==> Full(a.id))
    && (forall m, n | m in lib.listing && n in lib.listing && Get(lib, m).Some? && Get(lib, n).Some? ::
          SameSeat(Get(lib, m).value.id, Get(lib, n).value.id) ==> m == n)
  }

  /** The library after the updates were saved. */
  ghost predicate Saved(lib: Library, updates: map<Name, Auth>, lib1: Library) {
    && lib1.listing == lib.listing
    && forall n :: n in lib.listing ==> Get(lib1, n) == if n in updates then Some(updates[n]) else Get(lib, n)
  }

  /** What is observed now was observed before, or is the bundle the switch wrote. */
  ghost predicate Survivors(lives: seq<Auth>, written: Auth, lives1: seq<Auth>) {
    forall a :: a in lives1 ==> a == written || a in lives
  }

  /** A surviving copy of the account with another token and a date. */
  ghost predicate Rival(stored: Auth, lives1: seq<Auth>, a: Auth) {
    a in lives1 && SameSeat(a.id, stored.id) && a.refresh != stored.refresh && Dated(a)
  }

  /** A surviving copy of the stored token, the stored one included. */
  ghost predicate CopyOf(stored: Auth, lives1: seq<Auth>, k: Auth) {
    && (k == stored || (k in lives1 && SameSeat(k.id, stored.id)))
    && k.refresh == stored.refresh && Dated(k)
  }

  /** Every surviving rival is older than some surviving copy of the stored token. */
  ghost predicate RivalsOutdated(stored: Auth, lives1: seq<Auth>) {
    forall a :: Rival(stored, lives1, a) ==>
      exists k :: CopyOf(stored, lives1, k) && k.refreshed.value > a.refreshed.value
  }

  lemma SavedMatches(lib: Library, lives: seq<Auth>, lib1: Library, n: Name, id: Identity)
    requires DistinctSeats(lib, lives) && Saved(lib, Updates(lib, lives), lib1)
    requires Full(id) && n in lib.listing
    ensures Matches(lib1, n, id) == Matches(lib, n, id)
  {
    var updates := Updates(lib, lives);
    if n in updates {
      JudgeExact(Get(lib, n).value, LivesOf(lib, lives, n));
      LivesOfMembers(lib, lives, n);
      FindSound(lib, updates[n].id, 0);
      SameSeatOnFull(Get(lib, n).value.id, updates[n].id, id);
    }
  }

  /** The candidates of an account after the switch were candidates before. */
  lemma CandidatesShrink(lib: Library, lives: seq<Auth>, name: Name, lib1: Library, lives1: seq<Auth>, n: Name)
    requires DistinctSeats(lib, lives) && Saved(lib, Updates(lib, lives), lib1)
    requires name in lib.listing && Get(lib, name).Some?
    requires Survivors(lives, NewestOf(lib, lives, name), lives1)
    requires n in lib.listing && Get(lib, n).Some?
    ensures var stored := NewestOf(lib, lives, n);
      && Get(lib1, n) == Some(stored)
      && stored in [Get(lib, n).value] + LivesOf(lib, lives, n)
      && Full(stored.id) && SameSeat(stored.id, Get(lib, n).value.id)
      && (forall a :: a in LivesOf(lib1, lives1, n) <==> a in lives1 && SameSeat(a.id, stored.id))
      && (forall a :: a in LivesOf(lib1, lives1, n) ==> a in [Get(lib, n).value] + LivesOf(lib, lives, n))
  {
    var updates := Updates(lib, lives);
    var stored := NewestOf(lib, lives, n);
    NewestIsCandidate(lib, lives, n);
    NewestIsCandidate(lib, lives, name);
    LivesOfMembers(lib, lives, n);
    LivesOfMembers(lib1, lives1, n);
    forall a | a in lives1
      ensures Full(a.id)
      ensures Find(lib1, a.id) == Find(lib, a.id)
      ensures Find(lib, a.id) == Some(n) <==> SameSeat(a.id, stored.id)
    {
      forall m | m in lib.listing
        ensures Matches(lib1, m, a.id) == Matches(lib, m, a.id)
      {
        SavedMatches(lib, lives, lib1, m, a.id);
      }
      FindCongruent(lib1, lib, a.id, 0);
      SameSeatOnFull(a.id, stored.id, Get(lib, n).value.id);
      FindSound(lib, a.id, 0);
      if SameSeat(a.id, stored.id) {
        assert Matches(lib, n, a.id);
        forall m | m in lib.listing && Matches(lib, m, a.id)
          ensures m == n
        {
          SameSeatOnFull(Get(lib, m).value.id, a.id, Get(lib, n).value.id);
        }
        FindUnique(lib, a.id, n);
      }
    }
    forall a | a in LivesOf(lib1, lives1, n)
      ensures a in [Get(lib, n).value] + LivesOf(lib, lives, n)
    {
      if a !in lives {
        assert a == NewestOf(lib, lives, name);
        SameSeatOnFull(Get(lib, name).value.id, a.id, Get(lib, n).value.id);
        assert name == n;
      }
    }
  }

  lemma NewestIsCandidate(lib: Library, lives: seq<Auth>, n: Name)
    requires DistinctSeats(lib, lives) && n in lib.listing && Get(lib, n).Some?
    ensures var stored := NewestOf(lib, lives, n);
      && stored in [Get(lib, n).value] + LivesOf(lib, lives, n)
      && Full(stored.id) && SameSeat(stored.id, Get(lib, n).value.id)
      && SameSeat(Get(lib, n).value.id, stored.id)
  {
    JudgeExact(Get(lib, n).value, LivesOf(lib, lives, n));
    LivesOfMembers(lib, lives, n);
    var stored := NewestOf(lib, lives, n);
    FindSound(lib, stored.id, 0);
    SameSeatOnFull(stored.id, Get(lib, n).value.id, stored.id);
  }

  predicate Later(k: Auth, a: Auth)
    requires Dated(a)
  {
    Dated(k) && k.refreshed.value > a.refreshed.value
  }

  /** Some candidate carries the stored token and is dated after a. */
  ghost predicate Outdated(stored: Auth, mine: seq<Auth>, a: Auth)
    requires Dated(a)
  {
    exists k :: k in [stored] + mine && k.refresh == stored.refresh && Later(k, a)
  }

  /** Every dated candidate with another token is older than some candidate with the stored one. */
  ghost predicate OthersOutdated(stored: Auth, mine: seq<Auth>) {
    forall a :: a in mine && a.refresh != stored.refresh && Dated(a) ==>
      Outdated(stored, mine, a)
  }

  /** Judging a subset of settled candidates: no conflict, and the stored bundle is kept exactly
      when nothing outlives its token. */
  lemma JudgedSubset(stored: Auth, mine: seq<Auth>)
    requires !Conflicting([stored] + mine)
    ensures !Judge(stored, mine).Conflict?
    ensures Judge(stored, mine).Keep? <==> OthersOutdated(stored, mine)
  {
    var cands := [stored] + mine;
    JudgeExact(stored, mine);
    NewestIsLatest(cands);
    ConflictingBySet(cands);
    if Judge(stored, mine).Adopt? {
      var a := Judge(stored, mine).auth;
      assert a in mine && a.refresh != stored.refresh && Dated(a);
    } else {
      forall a | a in mine && a.refresh != stored.refresh && Dated(a)
        ensures Outdated(stored, mine, a)
      {
        var k := Newest(cands).value;
        assert !Clash(a, k);
        assert k in cands && k.refresh == stored.refresh && Dated(k);
      }
    }
  }

  lemma RivalsAreOthers(stored: Auth, mine: seq<Auth>, lives1: seq<Auth>)
    requires forall a :: a in mine <==> a in lives1 && SameSeat(a.id, stored.id)
    ensures RivalsOutdated(stored, lives1) <==> OthersOutdated(stored, mine)
  {
    assert forall a :: Rival(stored, lives1, a) <==> a in mine && a.refresh != stored.refresh && Dated(a);
    assert forall k :: CopyOf(stored, lives1, k) <==> k in [stored] + mine && k.refresh == stored.refresh && Dated(k);
  }

  /** What was adopted as the latest stays the latest among fewer candidates. */
  lemma AdoptedOutdatesOthers(stored0: Auth, mine0: seq<Auth>, mine: seq<Auth>)
    requires Judge(stored0, mine0).Adopt?
    requires forall a :: a in mine ==> a in [stored0] + mine0
    ensures OthersOutdated(Judge(stored0, mine0).auth, mine)
  {
    var stored := Judge(stored0, mine0).auth;
    JudgeExact(stored0, mine0);
    forall a | a in mine && a.refresh != stored.refresh && Dated(a)
      ensures Outdated(stored, mine, a)
    {
      assert !Clash(a, stored);
      assert stored in [stored] + mine;
    }
  }

  /** Judged again, an account never conflicts, and is left alone exactly when no surviving
      rival outlives every surviving copy of the stored token. */
  lemma JudgedAgain(lib: Library, lives: seq<Auth>, name: Name, lib1: Library, lives1: seq<Auth>, n: Name)
    requires DistinctSeats(lib, lives) && Saved(lib, Updates(lib, lives), lib1)
    requires name in lib.listing && Get(lib, name).Some?
    requires Survivors(lives, NewestOf(lib, lives, name), lives1)
    requires n in lib.listing && Get(lib, n).Some? && !VerdictFor(lib, lives, n).Conflict?
    ensures Get(lib1, n).Some? && !VerdictFor(lib1, lives1, n).Conflict?
    ensures n in Updates(lib, lives) ==> VerdictFor(lib1, lives1, n).Keep?
    ensures n !in Updates(lib, lives) ==>
      (VerdictFor(lib1, lives1, n).Keep? <==> RivalsOutdated(Get(lib, n).value, lives1))
  {
    CandidatesShrink(lib, lives, name, lib1, lives1, n);
    var stored0, stored := Get(lib, n).value, NewestOf(lib, lives, n);
    var mine0, mine := LivesOf(lib, lives, n), LivesOf(lib1, lives1, n);
    assert !Conflicting([stored] + mine) by {
      if Conflicting([stored] + mine) {
        ConflictMonotone([stored] + mine, [stored0] + mine0);
      }
    }
    JudgedSubset(stored, mine);
    RivalsAreOthers(stored, mine, lives1);
    if n in Updates(lib, lives) {
      AdoptedOutdatesOthers(stored0, mine0, mine);
    }
  }

  /** Nothing is left to adopt and nothing conflicts. */
  ghost predicate Settled(lib: Library, lives: seq<Auth>) {
    Updates(lib, lives) == map[] && AllConflicts(lib, lives) == []
  }

  lemma SettledByAccount(lib: Library, lives: seq<Auth>)
    ensures Settled(lib, lives) <==>
      forall n :: n in lib.listing && Get(lib, n).Some? ==> VerdictFor(lib, lives, n).Keep?
  {
    ConflictsMembers(lib, lives, |lib.listing|);
    assert lib.listing[..|lib.listing|] == lib.listing;
    var updates, conflicts := Updates(lib, lives), AllConflicts(lib, lives);
    if Settled(lib, lives) {
      forall n | n in lib.listing && Get(lib, n).Some?
        ensures VerdictFor(lib, lives, n).Keep?
      {
        assert n !in updates && n !in conflicts;
      }
    } else if conflicts != [] {
      assert conflicts[0] in conflicts;
    } else {
      var n :| n in updates;
    }
  }

  lemma SomeMember(s: seq<Name>)
    ensures s != [] ==> exists n :: n in s
  {
    if s != [] {
      assert s[0] in s;
    }
  }

  /** Reconciling again is a fixed point exactly when, for every account whose bundle was
      not replaced, each surviving rival is older than a surviving copy of its token. */
  lemma ReconciledAgain(lib: Library, lives: seq<Auth>, name: Name, lib1: Library, lives1: seq<Auth>)
    requires DistinctSeats(lib, lives) && Saved(lib, Updates(lib, lives), lib1)
    requires name in lib.listing && Get(lib, name).Some?
    requires Survivors(lives, NewestOf(lib, lives, name), lives1)
    requires AllConflicts(lib, lives) == []
    ensures AllConflicts(lib1, lives1) == []
    ensures Settled(lib1, lives1) <==>
      forall n :: n in lib.listing && Get(lib, n).Some? && n !in Updates(lib, lives) ==>
        RivalsOutdated(Get(lib, n).value, lives1)
  {
    ConflictsMembers(lib, lives, |lib.listing|);
    ConflictsMembers(lib1, lives1, |lib.listing|);
    assert lib.listing[..|lib.listing|] == lib.listing;
    forall n | n in lib.listing && Get(lib, n).Some?
      ensures Get(lib1, n).Some? && !VerdictFor(lib1, lives1, n).Conflict?
      ensures VerdictFor(lib1, lives1, n).Keep? <==>
        (n !in Updates(lib, lives) ==> RivalsOutdated(Get(lib, n).value, lives1))
    {
      assert n !in AllConflicts(lib, lives);
      JudgedAgain(lib, lives, name, lib1, lives1, n);
    }
    assert forall n :: n in lib.listing ==> (Get(lib1, n).Some? <==> Get(lib, n).Some?);
    SomeMember(AllConflicts(lib1, lives1));
    SettledByAccount(lib1, lives1);
  }

  /** The refresh time is a function of the refresh token. */
  ghost predicate OneTimePerToken(lib: Library, lives: seq<Auth>) {
    forall n, a | n in lib.listing && Get(lib, n).Some? && a in lives ::
      a.refresh == Get(lib, n).value.refresh ==> a.refreshed == Get(lib, n).value.refreshed
  }

  /** With one time per token the second reconciliation always finds nothing to do. */
  lemma ReconciledOnce(lib: Library, lives: seq<Auth>, name: Name, lib1: Library, lives1: seq<Auth>)
    requires DistinctSeats(lib, lives) && Saved(lib, Updates(lib, lives), lib1)
    requires name in lib.listing && Get(lib, name).Some?
    requires Survivors(lives, NewestOf(lib, lives, name), lives1)
    requires AllConflicts(lib, lives) == [] && OneTimePerToken(lib, lives)
    ensures Settled(lib1, lives1)
  {
    ConflictsMembers(lib, lives, |lib.listing|);
    assert lib.listing[..|lib.listing|] == lib.listing;
    forall n | n in lib.listing && Get(lib, n).Some? && n !in Updates(lib, lives)
      ensures RivalsOutdated(Get(lib, n).value, lives1)
    {
      var stored := Get(lib, n).value;
      var cands := [stored] + LivesOf(lib, lives, n);
      assert n !in AllConflicts(lib, lives);
      CandidatesShrink(lib, lives, name, lib1, lives1, n);
      JudgeExact(stored, LivesOf(lib, lives, n));
      LivesOfMembers(lib, lives, n);
      NewestIsLatest(cands);
      forall a | Rival(stored, lives1, a)
        ensures CopyOf(stored, lives1, stored) && stored.refreshed.value > a.refreshed.value
      {
        assert a in cands && stored in cands;
        assert !Clash(a, stored);
        var best := Newest(cands).value;
        assert best.refreshed == stored.refreshed;
      }
    }
    ReconciledAgain(lib, lives, name, lib1, lives1);
  }

  // ---- On the disk ------------------------------------------------------------------------

  /** Every bundle in a client file was observed. */
  ghost predicate SawAll(d: Disk, cs: seq<Client>, lives: seq<Auth>) {
    forall a :: OnDisk(d.files, cs, a) ==> a in lives
  }

  lemma {:induction false} ReadLivesComplete(io: Schedule, w: World, cs: seq<Client>, i: nat, lives: seq<Auth>)
    requires i <= |cs| && w.up && forall n :: io(n) == Works
    requires forall a :: OnDisk(w.disk.files, cs[..i], a) ==> a in lives
    ensures forall a :: OnDisk(w.disk.files, cs, a) ==> a in ReadLives(io, w, cs, i, lives).1
    decreases |cs| - i
  {
    if i == |cs| {
      assert cs[..i] == cs;
    } else {
      assert cs[..i + 1] == cs[..i] + [cs[i]];
      if Seen(cs, i) {
        var j :| 0 <= j < i && cs[j].id == cs[i].id && cs[j].storage == cs[i].storage;
        assert cs[j] in cs[..i];
        forall a | OnDisk(w.disk.files, cs[..i + 1], a)
          ensures a in lives
        {
          assert OnDisk(w.disk.files, cs[..i], a);
        }
        ReadLivesComplete(io, w, cs, i + 1, lives);
      } else {
        var (w1, r) := ReadFile(io, w, cs[i].storage);
        forall a | OnDisk(w.disk.files, cs[..i + 1], a)
          ensures a in lives + LiveOf(r)
        {
          if a !in lives {
            assert !OnDisk(w.disk.files, cs[..i], a);
          }
        }
        ReadLivesComplete(io, w1, cs, i + 1, lives + LiveOf(r));
      }
    }
  }

  lemma {:induction false} OnHeldMembers(cs: seq<Client>, hold: set<Storage>, held: bool)
    ensures forall c :: c in OnHeld(cs, hold, held) <==> c in cs && (c.storage in hold) == held
  {
    if cs != [] {
      OnHeldMembers(cs[..|cs| - 1], hold, held);
      assert cs == cs[..|cs| - 1] + [cs[|cs| - 1]];
    }
  }

  /** The bundles in the files a switch to this target will not write. */
  function Untouched(io: Schedule, d0: Disk, clients: seq<Client>, target: string): seq<Auth>
    requires Resolve(clients, target).Some?
  {
    LivesSeen(io, d0, OnHeld(clients, StoragesOf(Resolve(clients, target).value), false))
  }

  lemma ReadExactly(io: Schedule, d: Disk, cs: seq<Client>)
    requires forall n :: io(n) == Works
    ensures forall a :: a in LivesSeen(io, d, cs) <==> OnDisk(d.files, cs, a)
  {
    assert cs[..0] == [];
    ReadLivesComplete(io, Start(d), cs, 0, []);
    ReadLivesSound(io, Start(d), cs, 0, []);
  }

  /** Rivals and copies of an account that was not updated are the same, whether looked for
      after the switch or, before it, among the files it does not write. */
  lemma RivalsKnownBefore(lib: Library, lives: seq<Auth>, name: Name, n: Name, before: seq<Auth>, after: seq<Auth>)
    requires DistinctSeats(lib, lives)
    requires name in lib.listing && Get(lib, name).Some?
    requires n in lib.listing && Get(lib, n).Some? && n !in Updates(lib, lives)
    requires forall a :: a in before ==> a in after && a in lives
    requires forall a :: a in after ==> a in before || a == NewestOf(lib, lives, name)
    ensures RivalsOutdated(Get(lib, n).value, before) <==> RivalsOutdated(Get(lib, n).value, after)
  {
    var stored, written := Get(lib, n).value, NewestOf(lib, lives, name);
    NewestIsCandidate(lib, lives, name);
    SameSeatOnFull(Get(lib, name).value.id, written.id, stored.id);
    assert SameSeat(written.id, stored.id) ==> name == n && written == stored;
    forall a
      ensures Rival(stored, before, a) <==> Rival(stored, after, a)
      ensures CopyOf(stored, before, a) <==> CopyOf(stored, after, a)
    {}
  }

  /** After a completed switch that saw every client file, a second observation of the disk
      reports no conflict; it has nothing to adopt exactly when, before the switch, every
      rival in a file outside the target was older than a copy of the stored token there or
      in the library; and that always holds when a token has one refresh time. */
  lemma CompletedSwitchSettles(io: Schedule, d0: Disk, clients: seq<Client>, call: Call, env: Env, again: Schedule)
    requires forall n :: again(n) == Works
    requires env.appWrites == map[] && !call.dryRun && call.name in d0.lib.listing
    requires UseEffect(io, Start(d0), clients, call, env).0.up
    requires UseEffect(io, Start(d0), clients, call, env).1.status == Completed
    requires SawAll(d0, clients, LivesSeen(io, d0, clients))
    requires DistinctSeats(d0.lib, LivesSeen(io, d0, clients))
    ensures var d1 := UseEffect(io, Start(d0), clients, call, env).0.disk;
      var lives, lives1 := LivesSeen(io, d0, clients), LivesSeen(again, d1, clients);
      && Resolve(clients, call.target).Some?
      && AllConflicts(d1.lib, lives1) == []
      && (Settled(d1.lib, lives1) <==>
            forall n :: n in d0.lib.listing && Get(d0.lib, n).Some? && n !in Updates(d0.lib, lives) ==>
              RivalsOutdated(Get(d0.lib, n).value, Untouched(again, d0, clients, call.target)))
      && (OneTimePerToken(d0.lib, lives) ==> Settled(d1.lib, lives1))
  {
    var d1 := UseEffect(io, Start(d0), clients, call, env).0.disk;
    var lives, lives1 := LivesSeen(io, d0, clients), LivesSeen(again, d1, clients);
    assert Executes(io, d0, clients, call, env);
    var affected := StoragesOf(Resolve(clients, call.target).value);
    var before := Untouched(again, d0, clients, call.target);
    CompletedFiles(io, d0, clients, call, env);
    SightsAfter(d0, d1, clients, affected, NewestOf(d0.lib, lives, call.name), again);
    UpdatesAreBundles(io, d0, clients);
    ReconciledAgain(d0.lib, lives, call.name, d1.lib, lives1);
    forall n | n in d0.lib.listing && Get(d0.lib, n).Some? && n !in Updates(d0.lib, lives)
      ensures RivalsOutdated(Get(d0.lib, n).value, before) <==> RivalsOutdated(Get(d0.lib, n).value, lives1)
    {
      RivalsKnownBefore(d0.lib, lives, call.name, n, before, lives1);
    }
    if OneTimePerToken(d0.lib, lives) {
      ReconciledOnce(d0.lib, lives, call.name, d1.lib, lives1);
    }
  }

  /** The files of d1 are those of d0, except that the affected ones hold bundle a. */
  ghost predicate Switched(d0: Disk, d1: Disk, affected: set<Storage>, a: Auth) {
    && (forall s :: s !in affected ==> Lookup(d1.files, s) == Lookup(d0.files, s))
    && (forall s :: s in affected ==> Lookup(d1.files, s) == Some(Encode(a)))
  }

  /** What the second observation can see. */
  lemma SightsAfter(d0: Disk, d1: Disk, clients: seq<Client>, affected: set<Storage>, a: Auth, again: Schedule)
    requires forall n :: again(n) == Works
    requires Switched(d0, d1, affected, a)
    ensures var before, lives1 := LivesSeen(again, d0, OnHeld(clients, affected, false)), LivesSeen(again, d1, clients);
      && (forall b :: b in before ==> b in lives1 && OnDisk(d0.files, clients, b))
      && (forall b :: b in lives1 ==> b in before || b == a)
  {
    var others := OnHeld(clients, affected, false);
    OnHeldMembers(clients, affected, false);
    ReadExactly(again, d1, clients);
    ReadExactly(again, d0, others);
    forall b | OnDisk(d0.files, others, b)
      ensures OnDisk(d1.files, clients, b) && OnDisk(d0.files, clients, b)
    {
      var c :| c in others && c.storage in d0.files && Decode(d0.files[c.storage]) == Some(b);
      assert Lookup(d1.files, c.storage) == Lookup(d0.files, c.storage);
    }
    forall b | OnDisk(d1.files, clients, b) && b != a
      ensures OnDisk(d0.files, others, b)
    {
      var c :| c in clients && c.storage in d1.files && Decode(d1.files[c.storage]) == Some(b);
      assert Lookup(d1.files, c.storage) == Lookup(d0.files, c.storage);
    }
  }

  lemma CommittedFiles(d0: Disk, tx: Tx, updates: map<Name, Auth>, name: Name, auth: Auth, d1: Disk)
    requires Committed(d0, tx, updates, name, auth.id, map[], d1) && tx.next == Encode(auth)
    requires forall n :: n in updates ==> Get(d0.lib, n).Some?
    ensures Saved(d0.lib, updates, d1.lib) && Switched(d0, d1, SnapshotStorages(tx.files), auth)
  {
    forall n | n in d0.lib.listing
      ensures Get(d1.lib, n) == if n in updates then Some(updates[n]) else Get(d0.lib, n)
    {
      if n in d0.lib.slots {
        assert d1.lib.slots[n] == AdoptedSlot(d0.lib, updates, n);
      }
    }
  }

  lemma CompletedFiles(io: Schedule, d0: Disk, clients: seq<Client>, call: Call, env: Env)
    requires env.appWrites == map[] && Executes(io, d0, clients, call, env)
    requires UseEffect(io, Start(d0), clients, call, env).0.up
    requires UseEffect(io, Start(d0), clients, call, env).1.status == Completed
    ensures var d1, lives := UseEffect(io, Start(d0), clients, call, env).0.disk, LivesSeen(io, d0, clients);
      && Saved(d0.lib, Updates(d0.lib, lives), d1.lib)
      && Switched(d0, d1, StoragesOf(Resolve(clients, call.target).value), NewestOf(d0.lib, lives, call.name))
  {
    var (w, r) := UseEffect(io, Start(d0), clients, call, env);
    var updates := Updates(d0.lib, LivesSeen(io, d0, clients));
    ExecutesOutcome(io, d0, clients, call, env);
    UpdatesAreBundles(io, d0, clients);
    CommittedFiles(d0, Journalled(io, d0, clients, call, env).value, updates, call.name,
                   Chosen(d0.lib, updates, call.name), w.disk);
  }
}
