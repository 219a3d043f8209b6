/** Saving a bundle into a slot of the account library. */
module Store {
  import opened Options
  import opened Accounts
  import opened Disk

  /** cred_version after the next save: one more than the stored one, and at least 1. */
  function NextRevision(lib: Library, n: Name): int {
    var version := if n in lib.slots && lib.slots[n].revision.Some? then lib.slots[n].revision.value else 0;
    if version + 1 < 1 then 1 else version + 1
  }

  predicate Claimed(id: Identity) {
    id.user != "" || id.email != ""
  }

  /** Without `overwrite`, a readable slot that names somebody else is refused. */
  predicate Refuses(lib: Library, n: Name, auth: Auth, overwrite: bool) {
    && !overwrite
    && n in lib.slots
    && lib.slots[n].stored.Readable?
    && Claimed(lib.slots[n].stored.auth.id)
    && Claimed(auth.id)
    && !SameSeat(lib.slots[n].stored.auth.id, auth.id)
  }

  function PutEffect(io: Schedule, w: World, n: Name, auth: Auth, overwrite: bool): (World, bool) {
    if !IsBundle(auth) || !ValidSlotName(n) || Refuses(w.disk.lib, n, auth, overwrite) then (w, false)
    else
      var revision := NextRevision(w.disk.lib, n);
      var (w1, ok) := WriteStored(io, w, n, Readable(auth));
      if !ok then (w1, false) else WriteRevision(io, w1, n, Some(revision))
  }

  method Put(m: Machine, n: Name, auth: Auth, overwrite: bool) returns (ok: bool)
    modifies m
    ensures (m.Now(), ok) == PutEffect(m.io, old(m.Now()), n, auth, overwrite)
  {
    if !IsBundle(auth) || !ValidSlotName(n) {
      return false;
    }
    if Refuses(m.disk.lib, n, auth, overwrite) {
      return false;
    }
    var revision := NextRevision(m.disk.lib, n);
    ok := m.PutStored(n, Readable(auth));
    if !ok {
      return;
    }
    ok := m.PutRevision(n, Some(revision));
  }

  // ---- What a save promises ------------------------------------------------------------------

  /** A slot name is a single path component: the slot lies directly in the accounts folder. */
  lemma SlotStaysInside(n: Name)
    requires ValidSlotName(n)
    ensures n != "" && n != "." && n != ".." && '/' !in n && '\\' !in n
  {
    assert |n| > 1 && n[0] == '.' && n[0 + 1] == '.' ==> DoubleDot(n);
  }

  /** The revision that follows: one more, and at least 1. */
  function Following(revision: Option<int>): int {
    if revision.Some? && revision.value > 0 then revision.value + 1 else 1
  }

  function RevisionOf(lib: Library, n: Name): Option<int> {
    if n in lib.slots then lib.slots[n].revision else None
  }

  /** A save leaves the bundle at the revision that follows; so the account's revision differs
      from every earlier one. */
  lemma PutRaisesRevision(io: Schedule, w: World, n: Name, auth: Auth, overwrite: bool)
    requires PutEffect(io, w, n, auth, overwrite).1
    ensures var lib, lib' := w.disk.lib, PutEffect(io, w, n, auth, overwrite).0.disk.lib;
      && lib'.slots.Keys == lib.slots.Keys + {n}
      && lib'.slots[n] == Slot(Readable(auth), Some(Following(RevisionOf(lib, n))))
      && forall m :: m in lib.slots && m != n ==> lib'.slots[m] == lib.slots[m]
    ensures var before := RevisionOf(w.disk.lib, n);
      Following(before) > 0 && (before.Some? ==> Following(before) > before.value)
  {}

  /** However a save fails, the slot holds what it held or the new bundle, at its old revision or
      the one that follows; no other slot is touched. */
  lemma PutLeaves(io: Schedule, w: World, n: Name, auth: Auth, overwrite: bool)
    ensures var lib, lib' := w.disk.lib, PutEffect(io, w, n, auth, overwrite).0.disk.lib;
      && (forall m :: m in lib.slots && m != n ==> m in lib'.slots && lib'.slots[m] == lib.slots[m])
      && (forall m :: m in lib'.slots ==> m in lib.slots || m == n)
      && (n in lib.slots ==> n in lib'.slots)
      && (n in lib'.slots ==>
            && (lib'.slots[n].stored == Readable(auth)
                || (n in lib.slots && lib'.slots[n].stored == lib.slots[n].stored))
            && (lib'.slots[n].revision == RevisionOf(lib, n)
                || lib'.slots[n].revision == Some(Following(RevisionOf(lib, n)))))
  {}

  lemma SetStoredKeepsListing(lib: Library, n: Name, stored: Stored)
    requires ListsSlots(lib) && Sorted(lib.listing)
    ensures ListsSlots(SetStored(lib, n, stored)) && Sorted(SetStored(lib, n, stored).listing)
  {
    if n !in lib.slots {
      InsertKeepsSorted(lib.listing, n);
    }
  }

  /** Whatever its I/O does, a save leaves the accounts listed once each and in byte order. */
  lemma PutKeepsListing(io: Schedule, w: World, n: Name, auth: Auth, overwrite: bool)
    requires ListsSlots(w.disk.lib) && Sorted(w.disk.lib.listing)
    ensures var lib' := PutEffect(io, w, n, auth, overwrite).0.disk.lib;
      ListsSlots(lib') && Sorted(lib'.listing)
  {
    SetStoredKeepsListing(w.disk.lib, n, Readable(auth));
  }

  /** The bundle is of ChatGPT and can be refreshed. */
  predicate Refreshable(auth: Auth) {
    auth.id.authMode == "chatgpt" && auth.refresh != ""
  }

  /** The slot is readable, and it and the new bundle each name a user or an address but not one seat. */
  predicate SomebodyElses(lib: Library, n: Name, id: Identity) {
    && n in lib.slots && lib.slots[n].stored.Readable?
    && var held := lib.slots[n].stored.auth.id;
       (held.user != "" || held.email != "") && (id.user != "" || id.email != "") && !SameSeat(held, id)
  }

  /** Whatever its I/O does, a save changes nothing if the bundle is no refreshable one, if the
      name is not valid, or, without overwrite, if the slot is somebody else's; with all I/O
      working it succeeds if and only if nothing of that holds. */
  lemma PutSucceedsExactly(io: Schedule, w: World, n: Name, auth: Auth, overwrite: bool)
    ensures var fine := Refreshable(auth) && ValidSlotName(n) && (overwrite || !SomebodyElses(w.disk.lib, n, auth.id));
      && (!fine ==> PutEffect(io, w, n, auth, overwrite) == (w, false))
      && (w.up && (forall i :: io(i) == Works) ==> (PutEffect(io, w, n, auth, overwrite).1 <==> fine))
  {}

  /** A slot whose bundle is known by its subject alone is not protected: without overwrite it is
      taken by a bundle of another subject. */
  lemma SubjectNotProtected(mine: Auth, theirs: Auth)
    requires Refreshable(mine) && mine.id.user == "" && mine.id.email == "" && mine.id.sub == "1"
    requires Refreshable(theirs) && theirs.id.user == "" && theirs.id.email == "" && theirs.id.sub == "2"
    ensures var w := Start(Disk(map[], NoJournal, None, Library(["work"], map["work" := Slot(Readable(mine), None)])));
      !SameSeat(mine.id, theirs.id)
      && PutEffect(_ => Works, w, "work", theirs, false).1
      && Get(PutEffect(_ => Works, w, "work", theirs, false).0.disk.lib, "work") == Some(theirs)
  {}
}
