/** Which copy of an account's credentials is the newest: the per-account verdict,
    the observation of all clients (LatestLives) and the preview's conflict detector. */
module Reconcile {
  import opened Options
  import opened Accounts

  // ---- One account ------------------------------------------------------------

  /** Different refresh tokens that time does not strictly order. */
  predicate Clash(a: Auth, b: Auth) {
    && a.refresh != b.refresh
    && (a.refreshed.None? || b.refreshed.None? || a.refreshed.value == b.refreshed.value)
  }

  predicate Conflicting(cands: seq<Auth>) {
    exists i, j :: 0 <= i < j < |cands| && Clash(cands[i], cands[j])
  }

  method ConflictingAuths(cands: seq<Auth>) returns (r: bool)
    ensures r <==> exists a, b :: a in cands && b in cands && Clash(a, b)
    ensures r == Conflicting(cands)
  {
    ConflictingBySet(cands);
    var i := 0;
    while i < |cands|
      invariant 0 <= i <= |cands|
      invariant forall p, q :: 0 <= p < i && p < q < |cands| ==> !Clash(cands[p], cands[q])
    {
      var j := i + 1;
      while j < |cands|
        invariant i < j <= |cands|
        invariant forall q :: i < q < j ==> !Clash(cands[i], cands[q])
      {
        if Clash(cands[i], cands[j]) {
          return true;
        }
        j := j + 1;
      }
      i := i + 1;
    }
    r := false;
  }

  /** The index pairs of the scan see every clash between two members. */
  lemma ConflictingBySet(cands: seq<Auth>)
    ensures Conflicting(cands) <==> exists a, b :: a in cands && b in cands && Clash(a, b)
  {
    if Conflicting(cands) {
      var i, j :| 0 <= i < j < |cands| && Clash(cands[i], cands[j]);
      assert cands[i] in cands && cands[j] in cands;
    }
    if a, b :| a in cands && b in cands && Clash(a, b) {
      var i :| 0 <= i < |cands| && cands[i] == a;
      var j :| 0 <= j < |cands| && cands[j] == b;
      if i < j {
        assert Clash(cands[i], cands[j]);
      } else {
        assert j < i && Clash(cands[j], cands[i]);
      }
    }
  }

  predicate Dated(a: Auth) {
    a.refreshed.Some?
  }

  /** The first dated candidate that no other one is after. */
  function Newest(cands: seq<Auth>): Option<Auth> {
    if cands == [] then None
    else
      var best := Newest(cands[..|cands| - 1]);
      var c := cands[|cands| - 1];
      if Dated(c) && (best.None? || !Dated(best.value) || c.refreshed.value > best.value.refreshed.value)
      then Some(c) else best
  }

  predicate IsLatest(a: Auth, cands: seq<Auth>) {
    a in cands && Dated(a) && forall b :: b in cands && Dated(b) ==> b.refreshed.value <= a.refreshed.value
  }

  lemma {:induction false} NewestIsLatest(cands: seq<Auth>)
    ensures Newest(cands).Some? ==> IsLatest(Newest(cands).value, cands)
    ensures Newest(cands).None? <==> forall a :: a in cands ==> !Dated(a)
  {
    if cands != [] {
      var init := cands[..|cands| - 1];
      NewestIsLatest(init);
      assert cands == init + [cands[|cands| - 1]];
      if Newest(cands).None? {
        assert Newest(init).None?;
      }
    }
  }

  /** Among equally late candidates the first one counts. */
  lemma {:induction false} NewestIsFirst(cands: seq<Auth>)
    requires Newest(cands).Some?
    ensures var best := Newest(cands).value;
      Dated(best)
      && exists i :: (0 <= i < |cands| && cands[i] == best
                      && forall j :: 0 <= j < i && Dated(cands[j]) ==>
                           cands[j].refreshed.value < best.refreshed.value)
  {
    NewestIsLatest(cands);
    var init := cands[..|cands| - 1];
    NewestIsLatest(init);
    if Newest(cands) == Newest(init) {
      NewestIsFirst(init);
    } else {
      var i := |cands| - 1;
      assert cands[i] == Newest(cands).value;
      forall j | 0 <= j < i && Dated(cands[j])
        ensures cands[j].refreshed.value < Newest(cands).value.refreshed.value
      {
        assert init[j] == cands[j] && cands[j] in init;
      }
    }
  }

  method NewestAuth(cands: seq<Auth>) returns (best: Option<Auth>)
    ensures best == Newest(cands)
    ensures best.Some? ==> IsLatest(best.value, cands)
    ensures best.Some? ==>
      Dated(best.value)
      && exists i :: (0 <= i < |cands| && cands[i] == best.value
                      && forall j :: 0 <= j < i && Dated(cands[j]) ==>
                           cands[j].refreshed.value < best.value.refreshed.value)
    ensures best.None? <==> forall a :: a in cands ==> !Dated(a)
  {
    best := None;
    var i := 0;
    while i < |cands|
      invariant 0 <= i <= |cands|
      invariant best == Newest(cands[..i])
      invariant best.Some? ==> Dated(best.value)
    {
      assert cands[..i + 1][..i] == cands[..i];
      if Dated(cands[i]) && (best.None? || cands[i].refreshed.value > best.value.refreshed.value) {
        best := Some(cands[i]);
      }
      i := i + 1;
    }
    assert cands[..|cands|] == cands;
    NewestIsLatest(cands);
    if best.Some? {
      NewestIsFirst(cands);
    }
  }

  /** What reconciliation decides for one account. */
  datatype Verdict = Keep | Adopt(auth: Auth) | Conflict

  function Judge(stored: Auth, lives: seq<Auth>): Verdict {
    var cands := [stored] + lives;
    if Conflicting(cands) then Conflict
    else
      var best := Newest(cands);
      if best.None? || best.value.refresh == stored.refresh then Keep
      else if SecondBranch(stored, best.value) then Conflict
      else Adopt(best.value)
  }

  /** The guard of the second conflict report. */
  predicate SecondBranch(stored: Auth, best: Auth) {
    !Dated(best) || (Dated(stored) && !(best.refreshed.value > stored.refreshed.value))
  }

  method JudgeAccount(stored: Auth, lives: seq<Auth>) returns (v: Verdict)
    ensures v == Judge(stored, lives)
  {
    var cands := [stored] + lives;
    var clash := ConflictingAuths(cands);
    if clash {
      return Conflict;
    }
    var best := NewestAuth(cands);
    if best.None? || best.value.refresh == stored.refresh {
      return Keep;
    }
    if SecondBranch(stored, best.value) {
      return Conflict;
    }
    v := Adopt(best.value);
  }

  /** The refresh token the account ends up with. */
  function Outcome(v: Verdict, stored: Auth): string {
    if v.Adopt? then v.auth.refresh else stored.refresh
  }

  lemma SecondBranchUnreachable(stored: Auth, lives: seq<Auth>)
    requires !Conflicting([stored] + lives)
    requires Newest([stored] + lives).Some?
    requires Newest([stored] + lives).value.refresh != stored.refresh
    ensures !SecondBranch(stored, Newest([stored] + lives).value)
    ensures Dated(stored)
  {
    var cands := [stored] + lives;
    NewestIsLatest(cands);
    ConflictingBySet(cands);
    assert stored in cands;
  }

  /** The verdict is exact: a conflict is reported exactly when two candidates with
      different tokens are not strictly ordered in time, and otherwise every latest
      dated candidate carries the resulting token. */
  lemma JudgeExact(stored: Auth, lives: seq<Auth>)
    ensures var cands := [stored] + lives; var v := Judge(stored, lives);
      && (v.Conflict? <==> exists a, b :: a in cands && b in cands && Clash(a, b))
      && (!v.Conflict? ==> forall a :: IsLatest(a, cands) ==> a.refresh == Outcome(v, stored))
      && (!v.Conflict? && (forall a :: a in cands ==> !Dated(a)) ==>
            forall a :: a in cands ==> a.refresh == Outcome(v, stored))
      && (v.Adopt? ==> v.auth in lives && IsLatest(v.auth, cands) && v.auth.refresh != stored.refresh
                       && Dated(stored) && stored.refreshed.value < v.auth.refreshed.value)
  {
    var cands := [stored] + lives;
    ConflictingBySet(cands);
    NewestIsLatest(cands);
    assert stored in cands;
    if !Conflicting(cands) {
      var best := Newest(cands);
      if best.Some? && best.value.refresh != stored.refresh {
        SecondBranchUnreachable(stored, lives);
      }
      forall a | IsLatest(a, cands)
        ensures a.refresh == Outcome(Judge(stored, lives), stored)
      {
        assert !Clash(a, best.value);
      }
      if best.None? {
        forall a | a in cands
          ensures a.refresh == stored.refresh
        {
          assert !Clash(a, stored);
        }
      }
    }
  }

  /** The order, and the number of copies, of the observed bundles do not matter. */
  lemma JudgeOrderIndependent(stored: Auth, lives: seq<Auth>, others: seq<Auth>)
    requires forall a :: a in lives <==> a in others
    ensures Judge(stored, lives).Conflict? <==> Judge(stored, others).Conflict?
    ensures Judge(stored, lives).Adopt? <==> Judge(stored, others).Adopt?
    ensures Outcome(Judge(stored, lives), stored) == Outcome(Judge(stored, others), stored)
  {
    var c1, c2 := [stored] + lives, [stored] + others;
    assert forall a :: a in c1 <==> a in c2;
    JudgeExact(stored, lives);
    JudgeExact(stored, others);
    NewestIsLatest(c1);
    NewestIsLatest(c2);
    if !Judge(stored, lives).Conflict? {
      if Newest(c1).Some? {
        assert IsLatest(Newest(c1).value, c2);
      }
    }
  }

  // ---- The whole library ------------------------------------------------------

  /** The observed bundles that the library attributes to slot n. */
  function LivesOf(lib: Library, lives: seq<Auth>, n: Name): seq<Auth> {
    if lives == [] then []
    else
      var last := lives[|lives| - 1];
      LivesOf(lib, lives[..|lives| - 1], n) + if Find(lib, last.id) == Some(n) then [last] else []
  }

  lemma {:induction false} LivesOfMembers(lib: Library, lives: seq<Auth>, n: Name)
    ensures forall a :: a in LivesOf(lib, lives, n) <==> a in lives && Find(lib, a.id) == Some(n)
  {
    if lives != [] {
      LivesOfMembers(lib, lives[..|lives| - 1], n);
      assert lives == lives[..|lives| - 1] + [lives[|lives| - 1]];
    }
  }

  function VerdictFor(lib: Library, lives: seq<Auth>, n: Name): Verdict
    requires Get(lib, n).Some?
  {
    Judge(Get(lib, n).value, LivesOf(lib, lives, n))
  }

  function Updates(lib: Library, lives: seq<Auth>): map<Name, Auth> {
    map n | n in lib.listing && Get(lib, n).Some? && VerdictFor(lib, lives, n).Adopt?
      :: VerdictFor(lib, lives, n).auth
  }

  predicate InConflict(lib: Library, lives: seq<Auth>, n: Name) {
    Get(lib, n).Some? && VerdictFor(lib, lives, n).Conflict?
  }

  /** The members of a listing that satisfy the report, in listing order. */
  function Conflicts(lib: Library, lives: seq<Auth>, k: nat): seq<Name>
    requires k <= |lib.listing|
  {
    if k == 0 then []
    else
      var n := lib.listing[k - 1];
      Conflicts(lib, lives, k - 1) + if InConflict(lib, lives, n) then [n] else []
  }

  function AllConflicts(lib: Library, lives: seq<Auth>): seq<Name> {
    Conflicts(lib, lives, |lib.listing|)
  }

  lemma {:induction false} ConflictsMembers(lib: Library, lives: seq<Auth>, k: nat)
    requires k <= |lib.listing|
    ensures forall n :: n in Conflicts(lib, lives, k) <==> n in lib.listing[..k] && InConflict(lib, lives, n)
  {
    if k > 0 {
      ConflictsMembers(lib, lives, k - 1);
      assert lib.listing[..k] == lib.listing[..k - 1] + [lib.listing[k - 1]];
    }
  }

  function Group(groups: map<Name, seq<Auth>>, n: Name): seq<Auth> {
    if n in groups then groups[n] else []
  }

  lemma LivesOfOneMore(lib: Library, lives: seq<Auth>, k: nat, n: Name)
    requires k < |lives|
    ensures LivesOf(lib, lives[..k + 1], n)
         == LivesOf(lib, lives[..k], n) + if Find(lib, lives[k].id) == Some(n) then [lives[k]] else []
  {
    assert lives[..k + 1][..k] == lives[..k];
  }

  /** Attributes every observed bundle to the slot the library scan finds for it. */
  method GroupLives(lib: Library, lives: seq<Auth>) returns (groups: map<Name, seq<Auth>>)
    ensures forall n :: Group(groups, n) == LivesOf(lib, lives, n)
  {
    groups := map[];
    var k := 0;
    while k < |lives|
      invariant 0 <= k <= |lives|
      invariant forall n :: Group(groups, n) == LivesOf(lib, lives[..k], n)
    {
      ghost var before := groups;
      var name := FindByIdentity(lib, lives[k].id);
      if name.Some? {
        groups := groups[name.value := Group(groups, name.value) + [lives[k]]];
      }
      forall n
        ensures Group(groups, n) == LivesOf(lib, lives[..k + 1], n)
      {
        LivesOfOneMore(lib, lives, k, n);
        assert Group(before, n) == LivesOf(lib, lives[..k], n);
      }
      k := k + 1;
    }
    assert lives[..|lives|] == lives;
  }

  /** What is decided for a named slot, if it is readable. */
  function Decided(lib: Library, lives: seq<Auth>): Name -> Option<Verdict> {
    n => if Get(lib, n).Some? then Some(VerdictFor(lib, lives, n)) else None
  }

  function Adoptions(names: seq<Name>, decided: Name -> Option<Verdict>): map<Name, Auth> {
    if names == [] then map[]
    else
      var n := names[|names| - 1];
      var before := Adoptions(names[..|names| - 1], decided);
      if decided(n).Some? && decided(n).value.Adopt? then before[n := decided(n).value.auth] else before
  }

  function Clashes(names: seq<Name>, decided: Name -> Option<Verdict>): seq<Name> {
    if names == [] then []
    else
      var n := names[|names| - 1];
      Clashes(names[..|names| - 1], decided) + if decided(n) == Some(Conflict) then [n] else []
  }

  lemma {:induction false} AdoptionsMembers(names: seq<Name>, decided: Name -> Option<Verdict>)
    ensures forall n :: n in Adoptions(names, decided) <==> n in names && decided(n).Some? && decided(n).value.Adopt?
    ensures forall n :: n in Adoptions(names, decided) ==> decided(n) == Some(Adopt(Adoptions(names, decided)[n]))
  {
    if names != [] {
      AdoptionsMembers(names[..|names| - 1], decided);
      assert names == names[..|names| - 1] + [names[|names| - 1]];
    }
  }

  lemma UpdatesAreAdoptions(lib: Library, lives: seq<Auth>)
    ensures Adoptions(lib.listing, Decided(lib, lives)) == Updates(lib, lives)
  {
    AdoptionsMembers(lib.listing, Decided(lib, lives));
  }

  lemma {:induction false} ConflictsAreClashes(lib: Library, lives: seq<Auth>, k: nat)
    requires k <= |lib.listing|
    ensures Clashes(lib.listing[..k], Decided(lib, lives)) == Conflicts(lib, lives, k)
  {
    if k > 0 {
      ConflictsAreClashes(lib, lives, k - 1);
      assert lib.listing[..k][..k - 1] == lib.listing[..k - 1];
    }
  }

  /** The decision for a slot, given which observed bundles are its. */
  function DecidedIn(lib: Library, groups: map<Name, seq<Auth>>, n: Name): Option<Verdict> {
    if Get(lib, n).Some? then Some(Judge(Get(lib, n).value, Group(groups, n))) else None
  }

  method JudgeSlot(lib: Library, groups: map<Name, seq<Auth>>, n: Name) returns (v: Option<Verdict>)
    ensures v == DecidedIn(lib, groups, n)
  {
    var acct := Get(lib, n);
    if acct.None? {
      return None;
    }
    var judged := JudgeAccount(acct.value, Group(groups, n));
    v := Some(judged);
  }

  /** Judges the slots of the listing one by one. */
  method JudgeAll(lib: Library, groups: map<Name, seq<Auth>>, ghost decided: Name -> Option<Verdict>)
    returns (updates: map<Name, Auth>, conflicts: seq<Name>)
    requires forall n :: decided(n) == DecidedIn(lib, groups, n)
    ensures updates == Adoptions(lib.listing, decided)
    ensures conflicts == Clashes(lib.listing, decided)
  {
    updates, conflicts := map[], [];
    var i := 0;
    while i < |lib.listing|
      invariant 0 <= i <= |lib.listing|
      invariant updates == Adoptions(lib.listing[..i], decided)
      invariant conflicts == Clashes(lib.listing[..i], decided)
    {
      var n := lib.listing[i];
      assert lib.listing[..i + 1][..i] == lib.listing[..i];
      var v := JudgeSlot(lib, groups, n);
      if v == Some(Conflict) {
        conflicts := conflicts + [n];
      } else if v.Some? && v.value.Adopt? {
        updates := updates[n := v.value.auth];
      }
      i := i + 1;
    }
    assert lib.listing[..|lib.listing|] == lib.listing;
  }

  /** Observes the clients without changing anything. */
  method LatestLives(lib: Library, lives: seq<Auth>)
    returns (updates: map<Name, Auth>, conflicts: seq<Name>)
    ensures updates == Updates(lib, lives)
    ensures conflicts == AllConflicts(lib, lives)
  {
    var groups := GroupLives(lib, lives);
    updates, conflicts := JudgeAll(lib, groups, Decided(lib, lives));
    UpdatesAreAdoptions(lib, lives);
    ConflictsAreClashes(lib, lives, |lib.listing|);
    assert lib.listing[..|lib.listing|] == lib.listing;
  }

  /** A rearranged observation gives the same conflicts, the same accounts to update
      and the same tokens. */
  lemma LatestLivesOrderIndependent(lib: Library, lives: seq<Auth>, others: seq<Auth>)
    requires multiset(lives) == multiset(others)
    ensures AllConflicts(lib, lives) == AllConflicts(lib, others)
    ensures Updates(lib, lives).Keys == Updates(lib, others).Keys
    ensures forall n :: n in Updates(lib, lives) ==>
      Updates(lib, lives)[n].refresh == Updates(lib, others)[n].refresh
  {
    forall n | Get(lib, n).Some?
      ensures VerdictFor(lib, lives, n).Conflict? == VerdictFor(lib, others, n).Conflict?
      ensures VerdictFor(lib, lives, n).Adopt? == VerdictFor(lib, others, n).Adopt?
      ensures VerdictFor(lib, lives, n).Adopt? ==>
        VerdictFor(lib, lives, n).auth.refresh == VerdictFor(lib, others, n).auth.refresh
    {
      LivesOfMembers(lib, lives, n);
      LivesOfMembers(lib, others, n);
      assert forall a :: a in lives <==> a in multiset(lives);
      assert forall a :: a in others <==> a in multiset(others);
      JudgeOrderIndependent(Get(lib, n).value, LivesOf(lib, lives, n), LivesOf(lib, others, n));
    }
    ConflictsCongruent(lib, lives, others, |lib.listing|);
  }

  lemma {:induction false} ConflictsCongruent(lib: Library, lives: seq<Auth>, others: seq<Auth>, k: nat)
    requires k <= |lib.listing|
    requires forall n :: InConflict(lib, lives, n) == InConflict(lib, others, n)
    ensures Conflicts(lib, lives, k) == Conflicts(lib, others, k)
  {
    if k > 0 {
      ConflictsCongruent(lib, lives, others, k - 1);
    }
  }

  // ---- The preview's detector --------------------------------------------------

  /** The observed bundles of the same seat as `id`. */
  function SeatMates(lives: seq<Auth>, id: Identity): seq<Auth> {
    if lives == [] then []
    else
      var last := lives[|lives| - 1];
      SeatMates(lives[..|lives| - 1], id) + if SameSeat(last.id, id) then [last] else []
  }

  lemma {:induction false} SeatMatesMembers(lives: seq<Auth>, id: Identity)
    ensures forall a :: a in SeatMates(lives, id) <==> a in lives && SameSeat(a.id, id)
  {
    if lives != [] {
      SeatMatesMembers(lives[..|lives| - 1], id);
      assert lives == lives[..|lives| - 1] + [lives[|lives| - 1]];
    }
  }

  predicate Suspect(lib: Library, lives: seq<Auth>, n: Name) {
    Get(lib, n).Some? && Conflicting([Get(lib, n).value] + SeatMates(lives, Get(lib, n).value.id))
  }

  function Suspects(lib: Library, lives: seq<Auth>, k: nat): seq<Name>
    requires k <= |lib.listing|
  {
    if k == 0 then []
    else
      var n := lib.listing[k - 1];
      Suspects(lib, lives, k - 1) + if Suspect(lib, lives, n) then [n] else []
  }

  function AllSuspects(lib: Library, lives: seq<Auth>): seq<Name> {
    Suspects(lib, lives, |lib.listing|)
  }

  method CredentialConflicts(lib: Library, lives: seq<Auth>) returns (conflicts: seq<Name>)
    ensures conflicts == AllSuspects(lib, lives)
  {
    conflicts := [];
    var i := 0;
    while i < |lib.listing|
      invariant 0 <= i <= |lib.listing|
      invariant conflicts == Suspects(lib, lives, i)
    {
      var acct := Get(lib, lib.listing[i]);
      if acct.Some? {
        var mates: seq<Auth> := [];
        var k := 0;
        while k < |lives|
          invariant 0 <= k <= |lives|
          invariant mates == SeatMates(lives[..k], acct.value.id)
        {
          assert lives[..k + 1][..k] == lives[..k];
          if SameSeat(lives[k].id, acct.value.id) {
            mates := mates + [lives[k]];
          }
          k := k + 1;
        }
        assert lives[..|lives|] == lives;
        var clash := ConflictingAuths([acct.value] + mates);
        if clash {
          conflicts := conflicts + [lib.listing[i]];
        }
      }
      i := i + 1;
    }
  }

  /** More candidates never remove a conflict. */
  lemma ConflictMonotone(few: seq<Auth>, many: seq<Auth>)
    requires forall a :: a in few ==> a in many
    requires Conflicting(few)
    ensures Conflicting(many)
  {
    ConflictingBySet(few);
    ConflictingBySet(many);
  }

  /** Every bundle attributed to slot n is a seat mate of it. */
  lemma LivesAreMates(lib: Library, lives: seq<Auth>, n: Name)
    requires Get(lib, n).Some?
    ensures forall a :: a in LivesOf(lib, lives, n) ==> a in SeatMates(lives, Get(lib, n).value.id)
  {
    var stored := Get(lib, n).value;
    LivesOfMembers(lib, lives, n);
    SeatMatesMembers(lives, stored.id);
    forall a | a in LivesOf(lib, lives, n)
      ensures a in SeatMates(lives, stored.id)
    {
      FindSound(lib, a.id, 0);
      SameSeatSymmetric(stored.id, a.id);
    }
  }

  /** A seat mate of slot n that the library attributes to another slot. */
  predicate Foreign(lib: Library, n: Name, a: Auth) {
    Some(a) != Get(lib, n) && Find(lib, a.id) != Some(n)
  }

  /** What the preview compares for slot n. */
  function Mates(lib: Library, lives: seq<Auth>, n: Name): seq<Auth>
    requires Get(lib, n).Some?
  {
    [Get(lib, n).value] + SeatMates(lives, Get(lib, n).value.id)
  }

  /** Some two candidates clash, and every clash involves a bundle of another slot. */
  ghost predicate OnlyForeignClashes(lib: Library, lives: seq<Auth>, n: Name)
    requires Get(lib, n).Some?
  {
    var mates := Mates(lib, lives, n);
    && (exists a, b :: a in mates && b in mates && Clash(a, b))
    && (forall a, b :: a in mates && b in mates && Clash(a, b) ==> Foreign(lib, n, a) || Foreign(lib, n, b))
  }

  /** What the executor compares for a slot is what the preview compares, less the foreign bundles. */
  lemma ExecutorCandidates(lib: Library, lives: seq<Auth>, n: Name)
    requires Get(lib, n).Some?
    ensures forall a ::
      a in [Get(lib, n).value] + LivesOf(lib, lives, n) <==> a in Mates(lib, lives, n) && !Foreign(lib, n, a)
  {
    LivesAreMates(lib, lives, n);
    LivesOfMembers(lib, lives, n);
    SeatMatesMembers(lives, Get(lib, n).value.id);
  }

  /** The executor reports a slot exactly when two candidates clash, neither of them foreign. */
  lemma InConflictExactly(lib: Library, lives: seq<Auth>, n: Name)
    requires Get(lib, n).Some?
    ensures InConflict(lib, lives, n) <==>
      exists a, b :: a in Mates(lib, lives, n) && b in Mates(lib, lives, n) && Clash(a, b)
                     && !Foreign(lib, n, a) && !Foreign(lib, n, b)
  {
    JudgeExact(Get(lib, n).value, LivesOf(lib, lives, n));
    ExecutorCandidates(lib, lives, n);
  }

  /** The detectors part over a slot exactly when only foreign bundles clash. */
  lemma DetectorsPartExactly(lib: Library, lives: seq<Auth>, n: Name)
    requires Get(lib, n).Some?
    ensures InConflict(lib, lives, n) ==> Suspect(lib, lives, n)
    ensures Suspect(lib, lives, n) && !InConflict(lib, lives, n) <==> OnlyForeignClashes(lib, lives, n)
  {
    InConflictExactly(lib, lives, n);
    ConflictingBySet(Mates(lib, lives, n));
  }

  /** No observed identity matches two listed slots. */
  ghost predicate Unambiguous(lib: Library, lives: seq<Auth>) {
    forall a, m, n | a in lives && m in lib.listing && n in lib.listing ::
      Matches(lib, m, a.id) && Matches(lib, n, a.id) ==> m == n
  }

  lemma UnambiguousHasNoForeign(lib: Library, lives: seq<Auth>, n: Name)
    requires Unambiguous(lib, lives) && n in lib.listing && Get(lib, n).Some?
    ensures !OnlyForeignClashes(lib, lives, n)
  {
    var stored := Get(lib, n).value;
    SeatMatesMembers(lives, stored.id);
    forall a | a in SeatMates(lives, stored.id)
      ensures Find(lib, a.id) == Some(n)
    {
      SameSeatSymmetric(stored.id, a.id);
      assert Matches(lib, n, a.id);
      FindUnique(lib, a.id, n);
    }
  }

  ghost predicate PartOver(lib: Library, lives: seq<Auth>, n: Name) {
    Get(lib, n).Some? && OnlyForeignClashes(lib, lives, n)
  }

  /** Over no listed slot do the detectors part. */
  ghost predicate NoParting(lib: Library, lives: seq<Auth>) {
    forall n :: n in lib.listing ==> !PartOver(lib, lives, n)
  }

  lemma {:induction false} SameReports(lib: Library, lives: seq<Auth>, k: nat)
    requires k <= |lib.listing|
    requires forall i :: 0 <= i < k ==> Suspect(lib, lives, lib.listing[i]) == InConflict(lib, lives, lib.listing[i])
    ensures Conflicts(lib, lives, k) == Suspects(lib, lives, k)
  {
    if k > 0 {
      SameReports(lib, lives, k - 1);
    }
  }

  lemma {:induction false} SuspectsMembers(lib: Library, lives: seq<Auth>, k: nat)
    requires k <= |lib.listing|
    ensures forall n :: n in Suspects(lib, lives, k) <==> n in lib.listing[..k] && Suspect(lib, lives, n)
  {
    if k > 0 {
      SuspectsMembers(lib, lives, k - 1);
      assert lib.listing[..k] == lib.listing[..k - 1] + [lib.listing[k - 1]];
    }
  }

  /** The executor's conflicts are among the preview's, and the two reports are the same list if
      and only if over no listed slot only foreign bundles clash; so whenever no observed
      identity fits two slots. */
  lemma DetectorsAgree(lib: Library, lives: seq<Auth>)
    ensures forall n :: n in AllConflicts(lib, lives) ==> n in AllSuspects(lib, lives)
    ensures AllConflicts(lib, lives) == AllSuspects(lib, lives) <==> NoParting(lib, lives)
    ensures Unambiguous(lib, lives) ==> AllConflicts(lib, lives) == AllSuspects(lib, lives)
  {
    assert lib.listing[..|lib.listing|] == lib.listing;
    SuspectsMembers(lib, lives, |lib.listing|);
    ConflictsMembers(lib, lives, |lib.listing|);
    forall n | Get(lib, n).Some?
      ensures InConflict(lib, lives, n) ==> Suspect(lib, lives, n)
      ensures Suspect(lib, lives, n) && !InConflict(lib, lives, n) <==> PartOver(lib, lives, n)
    {
      DetectorsPartExactly(lib, lives, n);
    }
    if NoParting(lib, lives) {
      SameReports(lib, lives, |lib.listing|);
    } else {
      var n :| n in lib.listing && PartOver(lib, lives, n);
      assert n in AllSuspects(lib, lives) && n !in AllConflicts(lib, lives);
    }
    if Unambiguous(lib, lives) {
      forall n | n in lib.listing && Get(lib, n).Some?
        ensures !PartOver(lib, lives, n)
      {
        UnambiguousHasNoForeign(lib, lives, n);
      }
    }
  }

  /** Two slots of one seat: a live copy of the first clashes with the second. */
  ghost predicate Twins(lib: Library, a: Name, b: Name, live: Auth) {
    && lib.listing == [a, b] && a != b
    && Get(lib, a) == Some(live) && Get(lib, b).Some?
    && Full(live.id) && Full(Get(lib, b).value.id) && SameSeat(live.id, Get(lib, b).value.id)
    && Clash(Get(lib, b).value, live)
  }

  lemma TwinsPart(lib: Library, a: Name, b: Name, live: Auth)
    requires Twins(lib, a, b, live)
    ensures !PartOver(lib, [live], a) && PartOver(lib, [live], b)
  {
    var other := Get(lib, b).value;
    assert Find(lib, live.id) == Some(a);
    SeatMatesMembers([live], live.id);
    SeatMatesMembers([live], other.id);
    assert forall x :: x in Mates(lib, [live], a) ==> x == live;
    assert forall x :: x in Mates(lib, [live], b) <==> x == live || x == other;
  }

  /** With two slots for one seat the detectors part: the clash is a conflict for the preview
      and none for the executor. */
  lemma DetectorsDifferOnTwins(lib: Library, a: Name, b: Name, live: Auth)
    requires Twins(lib, a, b, live)
    ensures AllConflicts(lib, [live]) == []
    ensures AllSuspects(lib, [live]) == [b]
  {
    TwinsPart(lib, a, b, live);
    DetectorsPartExactly(lib, [live], a);
    DetectorsPartExactly(lib, [live], b);
    SeatMatesMembers([live], live.id);
    ConflictingBySet(Mates(lib, [live], a));
    assert Conflicts(lib, [live], 1) == [];
    assert Suspects(lib, [live], 1) == [];
  }
}
