/** What an import does to the library: which bundles it takes, and what it leaves alone. */
module ImportProofs {
  import opened Options
  import opened Accounts
  import opened Disk
  import opened Store
  import opened Import

  /** A bundle is new to a library and to the bundles that entered before it: none has its
      seat, and none is readable under its name. */
  ghost predicate IsNew(lib: Library, entered: map<Name, Auth>, x: Item) {
    && x.Offer?
    && Find(lib, x.auth.id).None? && Get(lib, x.name).None?
    && x.name !in entered && forall n :: n in entered ==> !SameSeat(entered[n].id, x.auth.id)
  }

  /** The bundles that enter among the first k items, by name. */
  ghost function Entered(lib: Library, items: seq<Item>, k: nat): map<Name, Auth>
    requires k <= |items|
  {
    if k == 0 then map[]
    else
      var before := Entered(lib, items, k - 1);
      if IsNew(lib, before, items[k - 1]) then before[items[k - 1].name := items[k - 1].auth] else before
  }

  lemma {:induction false} EnteredAreNew(lib: Library, items: seq<Item>, k: nat)
    requires k <= |items|
    ensures forall n :: n in Entered(lib, items, k) ==> Get(lib, n).None?
  {
    if k > 0 {
      EnteredAreNew(lib, items, k - 1);
    }
  }

  lemma {:induction false} EnteredStay(lib: Library, items: seq<Item>, i: nat, k: nat)
    requires i <= k <= |items|
    ensures forall n :: n in Entered(lib, items, i) ==>
      n in Entered(lib, items, k) && Entered(lib, items, k)[n] == Entered(lib, items, i)[n]
  {
    if i < k {
      EnteredStay(lib, items, i, k - 1);
    }
  }

  function Taken(lib: Library, n: Name, a: Auth): Slot {
    Slot(Readable(a), Some(Following(RevisionOf(lib, n))))
  }

  /** The library after some bundles entered: those were saved, all other slots are as they were. */
  ghost predicate Grown(lib0: Library, lib: Library, entered: map<Name, Auth>) {
    && ListsSlots(lib)
    && lib.slots.Keys == lib0.slots.Keys + entered.Keys
    && (forall n :: n in entered ==> ValidSlotName(n) && lib.slots[n] == Taken(lib0, n, entered[n]))
    && (forall n :: n in lib0.slots && n !in entered ==> lib.slots[n] == lib0.slots[n])
  }

  lemma FindExactly(lib: Library, id: Identity)
    requires ListsSlots(lib)
    ensures Find(lib, id).Some? ==> Find(lib, id).value in lib.slots && Matches(lib, Find(lib, id).value, id)
    ensures Find(lib, id).None? <==> forall n :: n in lib.slots ==> !Matches(lib, n, id)
  {
    FindSound(lib, id, 0);
    assert lib.listing[0..] == lib.listing;
  }

  /** Looking a seat up in the grown library looks it up before, and among the bundles that entered. */
  lemma GrownFind(lib0: Library, lib: Library, entered: map<Name, Auth>, id: Identity)
    requires ListsSlots(lib0) && Grown(lib0, lib, entered) && forall n :: n in entered ==> Get(lib0, n).None?
    ensures Find(lib, id).None? <==>
      Find(lib0, id).None? && forall n :: n in entered ==> !SameSeat(entered[n].id, id)
  {
    FindExactly(lib0, id);
    FindExactly(lib, id);
    if Find(lib, id).None? {
      forall n | n in lib0.slots
        ensures !Matches(lib0, n, id)
      {
        assert n in lib.slots && !Matches(lib, n, id);
      }
      forall n | n in entered
        ensures !SameSeat(entered[n].id, id)
      {
        assert n in lib.slots && !Matches(lib, n, id);
      }
    } else {
      var n := Find(lib, id).value;
      assert n in entered || Matches(lib0, n, id);
    }
  }

  /** The verdict of the loop is decided by the library before the call and the bundles that entered since. */
  lemma VerdictExact(lib0: Library, lib: Library, entered: map<Name, Auth>, x: Item)
    requires x.Offer? && ListsSlots(lib0) && Grown(lib0, lib, entered)
    requires forall n :: n in entered ==> Get(lib0, n).None?
    ensures Classify(lib, x.name, x.auth) == Added <==> IsNew(lib0, entered, x)
  {
    GrownFind(lib0, lib, entered, x.auth.id);
  }

  /** A bundle is skipped if the first slot of its seat has its refresh token already. It is a
      conflict if that slot has another one, or if no slot has the seat but one has the name. */
  lemma VerdictMeans(lib: Library, n: Name, a: Auth)
    requires ListsSlots(lib)
    ensures Classify(lib, n, a) == Skipped <==>
      exists i: nat :: FirstOfSeat(lib, a.id, i) && Get(lib, lib.listing[i]).value.refresh == a.refresh
    ensures Classify(lib, n, a) == Conflicted <==>
      || (exists i: nat :: FirstOfSeat(lib, a.id, i) && Get(lib, lib.listing[i]).value.refresh != a.refresh)
      || ((forall m :: m in lib.slots ==> !Matches(lib, m, a.id)) && Get(lib, n).Some?)
  {
    FindExactly(lib, a.id);
    FindFirst(lib, a.id, 0);
  }

  lemma PutTakes(io: Schedule, w: World, n: Name, a: Auth)
    requires PutEffect(io, w, n, a, false).1 && Get(w.disk.lib, n).None? && ListsSlots(w.disk.lib)
    ensures var lib' := PutEffect(io, w, n, a, false).0.disk.lib;
      && ValidSlotName(n) && ListsSlots(lib')
      && lib'.slots == w.disk.lib.slots[n := Taken(w.disk.lib, n, a)]
  {}

  lemma TakeGrows(lib0: Library, lib: Library, lib': Library, entered: map<Name, Auth>, n: Name, a: Auth)
    requires Grown(lib0, lib, entered) && n !in entered
    requires ValidSlotName(n) && ListsSlots(lib') && lib'.slots == lib.slots[n := Taken(lib, n, a)]
    ensures Grown(lib0, lib', entered[n := a])
  {}

  /** After k items: what entered was saved, and each item was counted once. */
  ghost predicate Progress(lib0: Library, lib: Library, items: seq<Item>, k: nat, c: Counts)
    requires k <= |items|
  {
    && Grown(lib0, lib, Entered(lib0, items, k))
    && c.added == |Entered(lib0, items, k)| && c.added + c.skipped + c.conflicts == k
  }

  lemma ProgressStep(lib0: Library, io: Schedule, w: World, items: seq<Item>, k: nat, c: Counts)
    requires k < |items| && ListsSlots(lib0) && Progress(lib0, w.disk.lib, items, k, c)
    ensures var (w1, c1, ok) := RunItem(io, w, items[k], c);
      ok ==> Progress(lib0, w1.disk.lib, items, k + 1, c1)
  {
    var entered, x := Entered(lib0, items, k), items[k];
    var (w1, c1, ok) := RunItem(io, w, x, c);
    EnteredAreNew(lib0, items, k);
    if ok {
      VerdictExact(lib0, w.disk.lib, entered, x);
      if IsNew(lib0, entered, x) {
        PutTakes(io, w, x.name, x.auth);
        TakeGrows(lib0, w.disk.lib, w1.disk.lib, entered, x.name, x.auth);
      }
    }
  }

  lemma RunUnfolds(io: Schedule, w: World, items: seq<Item>, k: nat, c: Counts)
    requires k <= |items|
    ensures k == |items| ==> RunItems(io, w, items[k..], c) == (w, c, true)
    ensures k < |items| ==>
      var (w1, c1, ok) := RunItem(io, w, items[k], c);
      RunItems(io, w, items[k..], c) == if ok then RunItems(io, w1, items[k + 1..], c1) else (w1, c1, false)
  {
    if k < |items| {
      assert items[k..][1..] == items[k + 1..];
    }
  }

  lemma {:induction false} RunGrows(lib0: Library, io: Schedule, w: World, items: seq<Item>, k: nat, c: Counts,
                                    r: (World, Counts, bool))
    requires k <= |items| && ListsSlots(lib0) && Progress(lib0, w.disk.lib, items, k, c)
    requires r == RunItems(io, w, items[k..], c)
    ensures r.2 ==> Progress(lib0, r.0.disk.lib, items, |items|, r.1)
    decreases |items| - k
  {
    RunUnfolds(io, w, items, k, c);
    if k < |items| {
      var (w1, c1, ok) := RunItem(io, w, items[k], c);
      if ok {
        ProgressStep(lib0, io, w, items, k, c);
        RunGrows(lib0, io, w1, items, k + 1, c1, r);
      }
    }
  }

  /** An import ends without error only if every folder could be listed. */
  lemma {:induction false} AllListed(io: Schedule, w: World, items: seq<Item>, c: Counts)
    ensures RunItems(io, w, items, c).2 ==> forall x :: x in items ==> x.Offer?
    decreases |items|
  {
    if items != [] {
      var (w1, c1, ok) := RunItem(io, w, items[0], c);
      AllListed(io, w1, items[1..], c1);
      assert items == [items[0]] + items[1..];
    }
  }

  /** An import without errors takes exactly the bundles that enter, counts every valid bundle
      once, and changes no other slot. */
  lemma ImportExact(io: Schedule, w: World, items: seq<Item>)
    requires ListsSlots(w.disk.lib)
    ensures var (w', c, ok) := RunItems(io, w, items, Counts(0, 0, 0));
      ok ==>
        && Grown(w.disk.lib, w'.disk.lib, Entered(w.disk.lib, items, |items|))
        && c.added == |Entered(w.disk.lib, items, |items|)|
        && c.added + c.skipped + c.conflicts == |items| && (forall x :: x in items ==> x.Offer?)
  {
    AllListed(io, w, items, Counts(0, 0, 0));
    assert items[0..] == items;
    RunGrows(w.disk.lib, io, w, items, 0, Counts(0, 0, 0), RunItems(io, w, items, Counts(0, 0, 0)));
  }

  // ---- What an import counts ----------------------------------------------------------------------

  /** The library as item k meets it. */
  function LibraryAt(io: Schedule, w: World, items: seq<Item>, k: nat): Library
    requires k <= |items|
  {
    RunItems(io, w, items[..k], Counts(0, 0, 0)).0.disk.lib
  }

  /** The first slot of the bundle's seat has its refresh token already. */
  ghost predicate Repeats(lib: Library, x: Item) {
    x.Offer? && exists i: nat ::
      FirstOfSeat(lib, x.auth.id, i) && Get(lib, lib.listing[i]).value.refresh == x.auth.refresh
  }

  /** That slot has another token, or no slot has the seat but one has the name. */
  ghost predicate Disagrees(lib: Library, x: Item) {
    && x.Offer?
    && (|| (exists i: nat ::
              FirstOfSeat(lib, x.auth.id, i) && Get(lib, lib.listing[i]).value.refresh != x.auth.refresh)
        || ((forall m :: m in lib.slots ==> !Matches(lib, m, x.auth.id)) && Get(lib, x.name).Some?))
  }

  /** An import that stops reports the counts of the items before the one it stopped at. */
  lemma {:induction false} StopsAt(io: Schedule, w: World, items: seq<Item>, c: Counts) returns (k: nat)
    requires !RunItems(io, w, items, c).2
    ensures k < |items| && RunItems(io, w, items[..k], c).2
    ensures RunItems(io, w, items, c).1 == RunItems(io, w, items[..k], c).1
    decreases |items|
  {
    k := 0;
    var (w1, c1, ok) := RunItem(io, w, items[0], c);
    if ok {
      var n := StopsAt(io, w1, items[1..], c1);
      k := n + 1;
      assert items[..k][1..] == items[1..][..n] && items[..k][0] == items[0];
    }
  }

  /** How many of the first k items met the library so. */
  ghost function Meeting(io: Schedule, w: World, items: seq<Item>, k: nat, p: (Library, Item) -> bool): nat
    requires k <= |items|
  {
    if k == 0 then 0
    else Meeting(io, w, items, k - 1, p) + if p(LibraryAt(io, w, items, k - 1), items[k - 1]) then 1 else 0
  }

  lemma {:induction false} RunSnoc(io: Schedule, w: World, items: seq<Item>, x: Item, c: Counts)
    ensures var (w1, c1, ok) := RunItems(io, w, items, c);
      RunItems(io, w, items + [x], c) == if ok then RunItem(io, w1, x, c1) else (w1, c1, false)
    decreases |items|
  {
    if items == [] {
      assert ([] + [x])[1..] == [];
    } else {
      assert (items + [x])[1..] == items[1..] + [x];
      var (w1, c1, ok) := RunItem(io, w, items[0], c);
      RunSnoc(io, w1, items[1..], x, c1);
    }
  }

  lemma ItemCounts(io: Schedule, w: World, x: Item, c: Counts)
    requires ListsSlots(w.disk.lib) && RunItem(io, w, x, c).2
    ensures var c' := RunItem(io, w, x, c).1;
      && c'.skipped == c.skipped + (if Repeats(w.disk.lib, x) then 1 else 0)
      && c'.conflicts == c.conflicts + if Disagrees(w.disk.lib, x) then 1 else 0
  {
    if x.Offer? {
      VerdictMeans(w.disk.lib, x.name, x.auth);
    }
  }

  lemma RunLists(io: Schedule, w: World, items: seq<Item>, r: (World, Counts, bool))
    requires ListsSlots(w.disk.lib) && r == RunItems(io, w, items, Counts(0, 0, 0)) && r.2
    ensures ListsSlots(r.0.disk.lib)
  {
    ImportExact(io, w, items);
  }

  lemma RunPrefix(io: Schedule, w: World, items: seq<Item>, k: nat)
    requires k < |items|
    ensures var r := RunItems(io, w, items[..k], Counts(0, 0, 0));
      RunItems(io, w, items[..k + 1], Counts(0, 0, 0)) ==
        if r.2 then RunItem(io, r.0, items[k], r.1) else (r.0, r.1, false)
  {
    assert items[..k + 1] == items[..k] + [items[k]];
    RunSnoc(io, w, items[..k], items[k], Counts(0, 0, 0));
  }

  /** c counts what the first k items met. */
  ghost predicate Counted(io: Schedule, w: World, items: seq<Item>, k: nat, c: Counts)
    requires k <= |items|
  {
    && c.skipped == Meeting(io, w, items, k, (lib, x) => Repeats(lib, x))
    && c.conflicts == Meeting(io, w, items, k, (lib, x) => Disagrees(lib, x))
  }

  lemma {:induction false} CountsSoFar(io: Schedule, w: World, items: seq<Item>, k: nat, r: (World, Counts, bool))
    requires k <= |items| && ListsSlots(w.disk.lib) && r == RunItems(io, w, items[..k], Counts(0, 0, 0)) && r.2
    ensures Counted(io, w, items, k, r.1)
  {
    if k > 0 {
      RunPrefix(io, w, items, k - 1);
      var r0 := RunItems(io, w, items[..k - 1], Counts(0, 0, 0));
      CountsSoFar(io, w, items, k - 1, r0);
      RunLists(io, w, items[..k - 1], r0);
      ItemCounts(io, r0.0, items[k - 1], r0.1);
    }
  }

  /** An import counts as skipped exactly the bundles whose seat has their token already when
      they are met, and as conflicts exactly those whose seat has another one, or whose name is
      taken by another seat. */
  lemma CountsExact(io: Schedule, w: World, items: seq<Item>)
    requires ListsSlots(w.disk.lib) && RunItems(io, w, items, Counts(0, 0, 0)).2
    ensures var c := RunItems(io, w, items, Counts(0, 0, 0)).1;
      && c.skipped == Meeting(io, w, items, |items|, (lib, x) => Repeats(lib, x))
      && c.conflicts == Meeting(io, w, items, |items|, (lib, x) => Disagrees(lib, x))
  {
    assert items[..|items|] == items;
    CountsSoFar(io, w, items, |items|, RunItems(io, w, items, Counts(0, 0, 0)));
  }

  /** The names of the items of which p holds, in order. */
  ghost function NamesOf(lib: Library, items: seq<Item>, p: (Library, Item) -> bool): seq<Name> {
    if items == [] then []
    else (if items[0].Offer? && p(lib, items[0]) then [items[0].name] else []) + NamesOf(lib, items[1..], p)
  }

  function ListOf(r: Report, v: Verdict): seq<Name> {
    match v
    case Added => r.news
    case Skipped => r.mergeable
    case Conflicted => r.conflicts
  }

  lemma FileAdds(r: Report, n: Name, kind: Verdict, v: Verdict)
    ensures ListOf(File(r, n, kind), v) == ListOf(r, v) + if kind == v then [n] else []
  {}

  lemma {:induction false} Filed(lib: Library, items: seq<Item>, r: Report, v: Verdict, p: (Library, Item) -> bool)
    requires forall x: Item :: x.Offer? ==> (Classify(lib, x.name, x.auth) == v <==> p(lib, x))
    ensures ListOf(FileItems(lib, items, r), v) == ListOf(r, v) + NamesOf(lib, items, p)
    decreases |items|
  {
    if items != [] {
      var r1, first := FiledOne(lib, items, r, v, p);
      Filed(lib, items[1..], r1, v, p);
      var names := NamesOf(lib, items[1..], p);
      assert ListOf(r, v) + (first + names) == (ListOf(r, v) + first) + names;
    }
  }

  lemma FiledOne(lib: Library, items: seq<Item>, r: Report, v: Verdict, p: (Library, Item) -> bool)
    returns (r1: Report, first: seq<Name>)
    requires items != []
    requires items[0].Offer? ==> (Classify(lib, items[0].name, items[0].auth) == v <==> p(lib, items[0]))
    ensures FileItems(lib, items, r) == FileItems(lib, items[1..], r1)
    ensures NamesOf(lib, items, p) == first + NamesOf(lib, items[1..], p) && ListOf(r1, v) == ListOf(r, v) + first
  {
    var x := items[0];
    r1, first := r, [];
    if x.Offer? {
      r1 := File(r, x.name, Classify(lib, x.name, x.auth));
      first := if p(lib, x) then [x.name] else [];
      FileAdds(r, x.name, Classify(lib, x.name, x.auth), v);
    }
  }

  /** The preview sorts the bundles by how the library meets them before the import. */
  lemma PreviewExact(lib: Library, items: seq<Item>)
    requires ListsSlots(lib)
    ensures var r := FileItems(lib, items, Report([], [], []));
      && r.news == NamesOf(lib, items, (lib, x) => IsNew(lib, map[], x))
      && r.mergeable == NamesOf(lib, items, (lib, x) => Repeats(lib, x))
      && r.conflicts == NamesOf(lib, items, (lib, x) => Disagrees(lib, x))
  {
    forall x: Item | x.Offer?
      ensures Classify(lib, x.name, x.auth) == Added <==> IsNew(lib, map[], x)
      ensures Classify(lib, x.name, x.auth) == Skipped <==> Repeats(lib, x)
      ensures Classify(lib, x.name, x.auth) == Conflicted <==> Disagrees(lib, x)
    {
      VerdictExact(lib, lib, map[], x);
      VerdictMeans(lib, x.name, x.auth);
    }
    Filed(lib, items, Report([], [], []), Added, (lib, x) => IsNew(lib, map[], x));
    Filed(lib, items, Report([], [], []), Skipped, (lib, x) => Repeats(lib, x));
    Filed(lib, items, Report([], [], []), Conflicted, (lib, x) => Disagrees(lib, x));
  }

  // ---- When an import completes ------------------------------------------------------------------

  /** The item stops no import: the folder was listed, and if the bundle enters its name is valid. */
  ghost predicate Admissible(lib: Library, items: seq<Item>, k: nat)
    requires k < |items|
  {
    items[k].Offer? && (IsNew(lib, Entered(lib, items, k), items[k]) ==> ValidSlotName(items[k].name))
  }

  lemma PutWorks(io: Schedule, w: World, n: Name, a: Auth)
    requires w.up && (forall i :: io(i) == Works) && IsBundle(a) && Get(w.disk.lib, n).None?
    ensures PutEffect(io, w, n, a, false).1 <==> ValidSlotName(n)
    ensures PutEffect(io, w, n, a, false).0.up
  {}

  lemma StepCompletes(lib0: Library, io: Schedule, w: World, items: seq<Item>, k: nat, c: Counts)
    requires k < |items| && ListsSlots(lib0) && Progress(lib0, w.disk.lib, items, k, c)
    requires w.up && (forall i :: io(i) == Works) && (items[k].Offer? ==> IsBundle(items[k].auth))
    ensures RunItem(io, w, items[k], c).2 <==> Admissible(lib0, items, k)
    ensures RunItem(io, w, items[k], c).0.up
  {
    EnteredAreNew(lib0, items, k);
    if items[k].Offer? {
      VerdictExact(lib0, w.disk.lib, Entered(lib0, items, k), items[k]);
      if Classify(w.disk.lib, items[k].name, items[k].auth) == Added {
        PutWorks(io, w, items[k].name, items[k].auth);
      }
    }
  }

  ghost predicate AllAdmissible(lib: Library, items: seq<Item>, k: nat) {
    forall j :: k <= j < |items| ==> Admissible(lib, items, j)
  }

  lemma {:induction false} RunCompletes(lib0: Library, io: Schedule, w: World, items: seq<Item>, k: nat, c: Counts,
                                        r: (World, Counts, bool))
    requires k <= |items| && ListsSlots(lib0) && Progress(lib0, w.disk.lib, items, k, c)
    requires w.up && (forall i :: io(i) == Works) && forall x :: x in items && x.Offer? ==> IsBundle(x.auth)
    requires r == RunItems(io, w, items[k..], c)
    ensures r.2 <==> AllAdmissible(lib0, items, k)
    decreases |items| - k
  {
    RunUnfolds(io, w, items, k, c);
    if k < |items| {
      var (w1, c1, ok) := RunItem(io, w, items[k], c);
      StepCompletes(lib0, io, w, items, k, c);
      if ok {
        ProgressStep(lib0, io, w, items, k, c);
        RunCompletes(lib0, io, w1, items, k + 1, c1, r);
        assert AllAdmissible(lib0, items, k) <==> AllAdmissible(lib0, items, k + 1);
      }
    }
  }

  /** Each name that entered did so at one of the items. */
  lemma {:induction false} EnteredAt(lib: Library, items: seq<Item>, k: nat, n: Name) returns (i: nat)
    requires k <= |items| && n in Entered(lib, items, k)
    ensures i < k && IsNew(lib, Entered(lib, items, i), items[i]) && items[i].name == n
  {
    i := k - 1;
    if n in Entered(lib, items, k - 1) {
      i := EnteredAt(lib, items, k - 1, n);
    }
  }

  lemma AdmissibleExactly(lib: Library, items: seq<Item>)
    ensures AllAdmissible(lib, items, 0) <==>
      (forall x :: x in items ==> x.Offer?) && forall n :: n in Entered(lib, items, |items|) ==> ValidSlotName(n)
  {
    if AllAdmissible(lib, items, 0) {
      forall x | x in items
        ensures x.Offer?
      {
        var i :| 0 <= i < |items| && items[i] == x;
        assert Admissible(lib, items, i);
      }
      forall n | n in Entered(lib, items, |items|)
        ensures ValidSlotName(n)
      {
        var i := EnteredAt(lib, items, |items|, n);
        assert Admissible(lib, items, i);
      }
    } else {
      var j :| 0 <= j < |items| && !Admissible(lib, items, j);
      EnteredStay(lib, items, j + 1, |items|);
    }
  }

  // ---- What is offered -------------------------------------------------------------------------

  /** A bundle is offered if some other folder that is there has it as a subfolder with a refreshable
      bundle of ChatGPT. */
  ghost predicate OfferedBy(s: Source, x: Item) {
    && !s.own && s.present
    && if x.Unlistable? then s.entries.None?
       else s.entries.Some? && Entry(x.name, true, Some(x.auth)) in s.entries.value && Refreshable(x.auth)
  }

  lemma {:induction false} OffersExactly(entries: seq<Entry>)
    ensures forall x :: x in OffersOf(entries) <==>
      x.Offer? && Entry(x.name, true, Some(x.auth)) in entries && Refreshable(x.auth)
  {
    if entries != [] {
      OffersExactly(entries[1..]);
      assert entries == [entries[0]] + entries[1..];
    }
  }

  /** An import meets exactly what its sources offer; its own folder is never one. */
  lemma {:induction false} ItemsExactly(sources: seq<Source>)
    ensures forall x :: x in Items(UsableSources(sources)) <==> exists s :: s in sources && OfferedBy(s, x)
  {
    if sources != [] {
      var s, rest := sources[0], sources[1..];
      ItemsExactly(rest);
      assert sources == [s] + rest;
      if s.entries.Some? {
        OffersExactly(s.entries.value);
      }
      var usable := UsableSources(rest);
      if Usable(s) {
        assert UsableSources(sources) == [s] + usable && ([s] + usable)[1..] == usable;
        assert Items([s] + usable) == ItemsOf(s) + Items(usable);
      } else {
        assert UsableSources(sources) == [] + usable == usable;
      }
      forall x
        ensures x in Items(UsableSources(sources)) <==> OfferedBy(s, x) || x in Items(usable)
      {}
    }
  }

  /** What the sources offer are bundles. */
  lemma {:induction false} ItemsAreBundles(sources: seq<Source>)
    ensures forall x :: x in Items(sources) && x.Offer? ==> IsBundle(x.auth)
  {
    if sources != [] {
      ItemsAreBundles(sources[1..]);
      if sources[0].entries.Some? {
        OffersAreBundles(sources[0].entries.value);
      }
    }
  }

  lemma {:induction false} OffersAreBundles(entries: seq<Entry>)
    ensures forall x :: x in OffersOf(entries) ==> x.Offer? && IsBundle(x.auth)
  {
    if entries != [] {
      OffersAreBundles(entries[1..]);
    }
  }

  /** With all I/O working an import completes if and only if every folder can be listed and every
      bundle that enters has a name that a slot can have; otherwise it fails each time. */
  lemma ImportCompletesExactly(io: Schedule, w: World, sources: seq<Source>)
    requires ListsSlots(w.disk.lib) && w.up && forall i :: io(i) == Works
    ensures var items := Items(UsableSources(sources));
      RunItems(io, w, items, Counts(0, 0, 0)).2 <==>
      (forall x :: x in items ==> x.Offer?) && forall n :: n in Entered(w.disk.lib, items, |items|) ==> ValidSlotName(n)
  {
    var items := Items(UsableSources(sources));
    ItemsAreBundles(UsableSources(sources));
    assert items[0..] == items;
    RunCompletes(w.disk.lib, io, w, items, 0, Counts(0, 0, 0), RunItems(io, w, items, Counts(0, 0, 0)));
    AdmissibleExactly(w.disk.lib, items);
  }

  // ---- What an import leaves -----------------------------------------------------------------------

  /** Every readable slot survives an import unchanged, revision included. */
  lemma ReadableSlotsUnchanged(io: Schedule, w: World, items: seq<Item>, n: Name)
    requires ListsSlots(w.disk.lib) && Get(w.disk.lib, n).Some?
    ensures var (w', c, ok) := RunItems(io, w, items, Counts(0, 0, 0));
      ok ==> n in w'.disk.lib.slots && w'.disk.lib.slots[n] == w.disk.lib.slots[n]
  {
    ImportExact(io, w, items);
    EnteredAreNew(w.disk.lib, items, |items|);
  }

  /** No existing slot changes if and only if no bundle enters under the name of a damaged one. */
  lemma OverwritesExactlyDamaged(io: Schedule, w: World, items: seq<Item>)
    requires ListsSlots(w.disk.lib) && RunItems(io, w, items, Counts(0, 0, 0)).2
    ensures var lib, lib' := w.disk.lib, RunItems(io, w, items, Counts(0, 0, 0)).0.disk.lib;
      (forall n :: n in lib.slots ==> n in lib'.slots && lib'.slots[n] == lib.slots[n])
      <==> (forall n :: n in lib.slots && lib.slots[n].stored.Damaged? ==> n !in Entered(lib, items, |items|))
  {
    var lib, lib' := w.disk.lib, RunItems(io, w, items, Counts(0, 0, 0)).0.disk.lib;
    var entered := Entered(lib, items, |items|);
    ImportExact(io, w, items);
    EnteredAreNew(lib, items, |items|);
    if forall n :: n in lib.slots && lib.slots[n].stored.Damaged? ==> n !in entered {
      forall n | n in lib.slots
        ensures lib'.slots[n] == lib.slots[n]
      {
        assert n in entered ==> ValidSlotName(n) && Get(lib, n).None?;
      }
    } else {
      var n :| n in lib.slots && lib.slots[n].stored.Damaged? && n in entered;
      assert lib'.slots[n].stored.Readable?;
    }
  }

  /** A damaged slot is overwritten: one bundle of its name suffices. */
  lemma DamagedSlotOverwritten(a: Auth)
    requires IsBundle(a)
    ensures var lib := Library(["work"], map["work" := Slot(Damaged, Some(3))]);
      var w := Start(Disk(map[], NoJournal, None, lib));
      var (w', c, ok) := RunItems(_ => Works, w, [Offer("work", a)], Counts(0, 0, 0));
      ok && c.added == 1 && w'.disk.lib.slots == map["work" := Slot(Readable(a), Some(4))]
  {
    var lib := Library(["work"], map["work" := Slot(Damaged, Some(3))]);
    var items := [Offer("work", a)];
    assert items[1..] == [];
    assert Classify(lib, "work", a) == Added by {
      assert !Matches(lib, "work", a.id);
      assert FindFrom(lib, a.id, 1).None?;
    }
    assert forall i :: 0 <= i < 4 ==> SlotChar("work"[i]);
  }

  /** The import adds at most what the preview called new. */
  lemma AddedWithinPreview(io: Schedule, w: World, items: seq<Item>)
    requires ListsSlots(w.disk.lib)
    ensures var (w', c, ok) := RunItems(io, w, items, Counts(0, 0, 0));
      ok ==> c.added <= |FileItems(w.disk.lib, items, Report([], [], [])).news|
  {
    ImportExact(io, w, items);
    assert items[0..] == items;
    EnteredWithinNews(w.disk.lib, items, 0, Report([], [], []));
  }

  lemma {:induction false} EnteredWithinNews(lib: Library, items: seq<Item>, k: nat, r: Report)
    requires k <= |items|
    ensures |FileItems(lib, items[k..], r).news| - |r.news| >= |Entered(lib, items, |items|)| - |Entered(lib, items, k)|
    decreases |items| - k
  {
    if k < |items| {
      assert items[k..][1..] == items[k + 1..];
      if items[k].Offer? {
        EnteredWithinNews(lib, items, k + 1, File(r, items[k].name, Classify(lib, items[k].name, items[k].auth)));
      } else {
        EnteredWithinNews(lib, items, k + 1, r);
      }
    }
  }

  /** After an import every item is known: by seat, or by a readable slot of its name. */
  lemma NothingNewAgain(lib0: Library, lib1: Library, items: seq<Item>, i: nat)
    requires ListsSlots(lib0) && Grown(lib0, lib1, Entered(lib0, items, |items|)) && i < |items|
    ensures !IsNew(lib1, map[], items[i])
  {
    var entered := Entered(lib0, items, |items|);
    EnteredAreNew(lib0, items, |items|);
    EnteredStay(lib0, items, i, |items|);
    EnteredStay(lib0, items, i + 1, |items|);
    if items[i].Offer? {
      GrownFind(lib0, lib1, entered, items[i].auth.id);
      if Find(lib0, items[i].auth.id).None? && Get(lib0, items[i].name).None? {
        if IsNew(lib0, Entered(lib0, items, i), items[i]) || items[i].name in Entered(lib0, items, i) {
          assert items[i].name in entered && Get(lib1, items[i].name).Some?;
        }
      }
    }
  }

  lemma {:induction false} AllKnown(io: Schedule, w: World, items: seq<Item>, c: Counts)
    requires ListsSlots(w.disk.lib) && forall x :: x in items ==> x.Offer? && !IsNew(w.disk.lib, map[], x)
    ensures var (w', c', ok) := RunItems(io, w, items, c);
      ok && w' == w && c'.added == c.added
    decreases |items|
  {
    if items != [] {
      assert items[0] in items && forall x :: x in items[1..] ==> x in items;
      VerdictExact(w.disk.lib, w.disk.lib, map[], items[0]);
      AllKnown(io, w, items[1..], RunItem(io, w, items[0], c).1);
    }
  }

  /** Importing twice is importing once: whatever its I/O would do, the second run succeeds, adds
      nothing and changes nothing, also when sources share names or seats. */
  lemma ImportIdempotent(io: Schedule, w: World, items: seq<Item>, io2: Schedule, w2: World)
    requires ListsSlots(w.disk.lib) && RunItems(io, w, items, Counts(0, 0, 0)).2
    requires w2.disk.lib == RunItems(io, w, items, Counts(0, 0, 0)).0.disk.lib
    ensures var (w3, c, ok) := RunItems(io2, w2, items, Counts(0, 0, 0));
      ok && c.added == 0 && w3 == w2
  {
    ImportExact(io, w, items);
    forall x | x in items
      ensures !IsNew(w2.disk.lib, map[], x)
    {
      var i :| 0 <= i < |items| && items[i] == x;
      NothingNewAgain(w.disk.lib, w2.disk.lib, items, i);
    }
    AllKnown(io2, w2, items, Counts(0, 0, 0));
  }
}
