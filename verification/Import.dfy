/** Importing accounts from older installations. */
module Import {
  import opened Options
  import opened Accounts
  import opened Disk
  import opened Store

  /** One entry of a source's accounts folder; `auth` is its auth.json, if it parses. */
  datatype Entry = Entry(name: Name, isDir: bool, auth: Option<Auth>)

  /** A legacy folder. `own` marks this very store; `entries` is None when it cannot be listed. */
  datatype Source = Source(own: bool, present: bool, entries: Option<seq<Entry>>)

  datatype Verdict = Added | Skipped | Conflicted

  datatype Counts = Counts(added: nat, skipped: nat, conflicts: nat)

  datatype Report = Report(news: seq<Name>, mergeable: seq<Name>, conflicts: seq<Name>)

  /** What an import meets in order: the valid bundles, and folders it cannot list. */
  datatype Item = Offer(name: Name, auth: Auth) | Unlistable

  predicate Offers(e: Entry) {
    e.isDir && e.auth.Some? && IsBundle(e.auth.value)
  }

  function OffersOf(entries: seq<Entry>): seq<Item> {
    if entries == [] then []
    else (if Offers(entries[0]) then [Offer(entries[0].name, entries[0].auth.value)] else []) + OffersOf(entries[1..])
  }

  function ItemsOf(s: Source): seq<Item> {
    if s.entries.None? then [Unlistable] else OffersOf(s.entries.value)
  }

  function Items(sources: seq<Source>): seq<Item> {
    if sources == [] then [] else ItemsOf(sources[0]) + Items(sources[1..])
  }

  predicate Usable(s: Source) {
    !s.own && s.present
  }

  function UsableSources(sources: seq<Source>): seq<Source> {
    if sources == [] then []
    else (if Usable(sources[0]) then [sources[0]] else []) + UsableSources(sources[1..])
  }

  function Classify(lib: Library, n: Name, a: Auth): Verdict {
    var existing := Find(lib, a.id);
    if existing.Some? then
      var stored := Get(lib, existing.value);
      if stored.Some? && stored.value.refresh == a.refresh then Skipped else Conflicted
    else if Get(lib, n).Some? then Conflicted
    else Added
  }

  // ---- Preview --------------------------------------------------------------------------------

  function File(r: Report, n: Name, v: Verdict): Report {
    match v
    case Added => r.(news := r.news + [n])
    case Skipped => r.(mergeable := r.mergeable + [n])
    case Conflicted => r.(conflicts := r.conflicts + [n])
  }

  /** Files the items from the front; nothing is written. */
  function FileItems(lib: Library, items: seq<Item>, r: Report): Report
    decreases |items|
  {
    if items == [] then r
    else if items[0].Unlistable? then FileItems(lib, items[1..], r)
    else FileItems(lib, items[1..], File(r, items[0].name, Classify(lib, items[0].name, items[0].auth)))
  }

  method PreviewOffer(lib: Library, name: Name, auth: Auth, r0: Report) returns (r: Report)
    ensures r == File(r0, name, Classify(lib, name, auth))
  {
    r := r0;
    var existing := FindByIdentity(lib, auth.id);
    if existing.None? {
      if Get(lib, name).Some? {
        r := r.(conflicts := r.conflicts + [name]);
      } else {
        r := r.(news := r.news + [name]);
      }
    } else if Get(lib, existing.value).value.refresh == auth.refresh {
      r := r.(mergeable := r.mergeable + [name]);
    } else {
      r := r.(conflicts := r.conflicts + [name]);
    }
  }

  method PreviewEntries(lib: Library, entries: seq<Entry>, r0: Report, ghost rest: seq<Item>) returns (r: Report)
    ensures FileItems(lib, OffersOf(entries) + rest, r0) == FileItems(lib, rest, r)
  {
    r := r0;
    var j := 0;
    assert entries[0..] == entries;
    while j < |entries|
      invariant 0 <= j <= |entries|
      invariant FileItems(lib, OffersOf(entries) + rest, r0) == FileItems(lib, OffersOf(entries[j..]) + rest, r)
    {
      var e := entries[j];
      assert entries[j..][1..] == entries[j + 1..];
      if Offers(e) {
        ghost var items := OffersOf(entries[j..]) + rest;
        assert items[0] == Offer(e.name, e.auth.value) && items[1..] == OffersOf(entries[j + 1..]) + rest;
        r := PreviewOffer(lib, e.name, e.auth.value, r);
      } else {
        assert OffersOf(entries[j..]) == OffersOf(entries[j + 1..]);
      }
      j := j + 1;
    }
    assert OffersOf(entries[j..]) + rest == rest;
  }

  method ImportPreview(lib: Library, sources: seq<Source>) returns (usable: seq<Source>, r: Report)
    ensures usable == UsableSources(sources)
    ensures r == FileItems(lib, Items(usable), Report([], [], []))
  {
    usable, r := [], Report([], [], []);
    ghost var all := Items(UsableSources(sources));
    var i := 0;
    while i < |sources|
      invariant 0 <= i <= |sources|
      invariant usable + UsableSources(sources[i..]) == UsableSources(sources)
      invariant FileItems(lib, all, Report([], [], [])) == FileItems(lib, Items(UsableSources(sources[i..])), r)
    {
      var s := sources[i];
      assert sources[i..][1..] == sources[i + 1..];
      if Usable(s) {
        ghost var rest := UsableSources(sources[i + 1..]);
        assert UsableSources(sources[i..]) == [s] + rest;
        assert ([s] + rest)[1..] == rest;
        usable := usable + [s];
        if s.entries.Some? {
          r := PreviewEntries(lib, s.entries.value, r, Items(rest));
        } else {
          assert ([Unlistable] + Items(rest))[1..] == Items(rest);
        }
      } else {
        assert UsableSources(sources[i..]) == UsableSources(sources[i + 1..]);
      }
      i := i + 1;
    }
  }

  // ---- Apply -----------------------------------------------------------------------------------

  function Count(c: Counts, v: Verdict): Counts {
    match v
    case Added => c.(added := c.added + 1)
    case Skipped => c.(skipped := c.skipped + 1)
    case Conflicted => c.(conflicts := c.conflicts + 1)
  }

  /** One item: add it, or count why not. */
  function RunItem(io: Schedule, w: World, item: Item, c: Counts): (World, Counts, bool) {
    if item.Unlistable? then (w, c, false)
    else
      var v := Classify(w.disk.lib, item.name, item.auth);
      if v != Added then (w, Count(c, v), true)
      else
        var (w1, ok) := PutEffect(io, w, item.name, item.auth, false);
        (w1, if ok then Count(c, Added) else c, ok)
  }

  /** Runs the items from the front; the first error ends the import. */
  function RunItems(io: Schedule, w: World, items: seq<Item>, c: Counts): (World, Counts, bool)
    decreases |items|
  {
    if items == [] then (w, c, true)
    else
      var (w1, c1, ok) := RunItem(io, w, items[0], c);
      if ok then RunItems(io, w1, items[1..], c1) else (w1, c1, false)
  }

  method ApplyOffer(m: Machine, name: Name, auth: Auth, c0: Counts) returns (c: Counts, ok: bool)
    modifies m
    ensures (m.Now(), c, ok) == RunItem(m.io, old(m.Now()), Offer(name, auth), c0)
  {
    c, ok := c0, true;
    var existing := FindByIdentity(m.disk.lib, auth.id);
    if existing.Some? {
      if Get(m.disk.lib, existing.value).value.refresh == auth.refresh {
        c := c.(skipped := c.skipped + 1);
      } else {
        c := c.(conflicts := c.conflicts + 1);
      }
      return;
    }
    if Get(m.disk.lib, name).Some? {
      c := c.(conflicts := c.conflicts + 1);
      return;
    }
    ok := Put(m, name, auth, false);
    if ok {
      c := c.(added := c.added + 1);
    }
  }

  method ApplyEntries(m: Machine, entries: seq<Entry>, c0: Counts, ghost rest: seq<Item>) returns (c: Counts, ok: bool)
    modifies m
    ensures ok ==> RunItems(m.io, old(m.Now()), OffersOf(entries) + rest, c0) == RunItems(m.io, m.Now(), rest, c)
    ensures !ok ==> RunItems(m.io, old(m.Now()), OffersOf(entries) + rest, c0) == (m.Now(), c, false)
  {
    c, ok := c0, true;
    ghost var w0 := m.Now();
    var j := 0;
    assert entries[0..] == entries;
    while j < |entries|
      invariant 0 <= j <= |entries| && ok
      invariant RunItems(m.io, w0, OffersOf(entries) + rest, c0)
             == RunItems(m.io, m.Now(), OffersOf(entries[j..]) + rest, c)
    {
      var e := entries[j];
      assert entries[j..][1..] == entries[j + 1..];
      if Offers(e) {
        ghost var items := OffersOf(entries[j..]) + rest;
        assert items[0] == Offer(e.name, e.auth.value) && items[1..] == OffersOf(entries[j + 1..]) + rest;
        c, ok := ApplyOffer(m, e.name, e.auth.value, c);
        if !ok {
          return;
        }
      } else {
        assert OffersOf(entries[j..]) == OffersOf(entries[j + 1..]);
      }
      j := j + 1;
    }
    assert OffersOf(entries[j..]) + rest == rest;
  }

  method ImportApply(m: Machine, sources: seq<Source>) returns (c: Counts, ok: bool)
    modifies m
    ensures (m.Now(), c, ok) == RunItems(m.io, old(m.Now()), Items(UsableSources(sources)), Counts(0, 0, 0))
  {
    var usable, _ := ImportPreview(m.disk.lib, sources);
    c, ok := Counts(0, 0, 0), true;
    ghost var w0, all := m.Now(), Items(usable);
    var i := 0;
    while i < |usable|
      invariant 0 <= i <= |usable|
      invariant RunItems(m.io, w0, all, Counts(0, 0, 0)) == RunItems(m.io, m.Now(), Items(usable[i..]), c)
    {
      var s := usable[i];
      assert usable[i..][1..] == usable[i + 1..];
      ghost var rest := Items(usable[i + 1..]);
      if s.entries.None? {
        return c, false;
      }
      assert Items(usable[i..]) == OffersOf(s.entries.value) + rest;
      c, ok := ApplyEntries(m, s.entries.value, c, rest);
      if !ok {
        return;
      }
      i := i + 1;
    }
  }
}
