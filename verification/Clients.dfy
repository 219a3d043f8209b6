/** Registered clients: merging, target resolution, the storages behind them, and
    how a process probe becomes a client state. */
module Clients {
  import opened Options
  import opened Accounts

  type Storage = string

  datatype Kind = App | Cli | OtherKind

  /** One Codex client; `storage` names the auth.json it uses. */
  datatype Client = Client(id: string, kind: Kind, title: string, storage: Storage)

  predicate UniqueIds(cs: seq<Client>) {
    forall i, j :: 0 <= i < j < |cs| ==> cs[i].id != cs[j].id
  }

  // ---- Loading ------------------------------------------------------------------

  /** The position of the first client with an id, or the length if there is none. */
  function FirstAt(cs: seq<Client>, id: string): nat {
    if cs == [] || cs[0].id == id then 0 else 1 + FirstAt(cs[1..], id)
  }

  lemma {:induction false} FirstAtIs(cs: seq<Client>, id: string, i: nat)
    requires i < |cs| && cs[i].id == id && forall k :: 0 <= k < i ==> cs[k].id != id
    ensures FirstAt(cs, id) == i
  {
    if i > 0 {
      FirstAtIs(cs[1..], id, i - 1);
    }
  }

  /** m is the last client of cs with its id. */
  ghost predicate LastOf(cs: seq<Client>, m: Client) {
    exists j :: 0 <= j < |cs| && cs[j] == m && forall k :: j < k < |cs| ==> cs[k].id != m.id
  }

  /** m is the first client of cs with its id. */
  ghost predicate FirstOf(cs: seq<Client>, m: Client) {
    exists j :: 0 <= j < |cs| && cs[j] == m && forall k :: 0 <= k < j ==> cs[k].id != m.id
  }

  ghost predicate HasId(cs: seq<Client>, id: string) {
    exists c :: c in cs && c.id == id
  }

  /** `order` lists the keys of `byId` in the order in which `all` first shows them, and every
      client sits under its own id. */
  ghost predicate Indexed(all: seq<Client>, order: seq<string>, byId: map<string, Client>) {
    && (forall a, b :: 0 <= a < b < |order| ==> FirstAt(all, order[a]) < FirstAt(all, order[b]))
    && (forall id :: id in order <==> id in byId)
    && (forall id :: id in byId ==> byId[id].id == id)
  }

  /** The first i clients are indexed. */
  ghost predicate IndexedTo(all: seq<Client>, i: nat, order: seq<string>, byId: map<string, Client>)
    requires i <= |all|
  {
    && Indexed(all, order, byId)
    && (forall id :: id in order ==> FirstAt(all, id) < i)
    && (forall k :: 0 <= k < i ==> all[k].id in byId)
  }

  /** An id not yet indexed is first shown at the current position. */
  lemma IndexesNew(all: seq<Client>, i: nat, order: seq<string>, byId: map<string, Client>)
    requires i < |all| && IndexedTo(all, i, order, byId) && all[i].id !in byId
    ensures IndexedTo(all, i + 1, order + [all[i].id], byId[all[i].id := all[i]])
  {
    FirstAtIs(all, all[i].id, i);
    var order' := order + [all[i].id];
    forall a, b | 0 <= a < b < |order'|
      ensures FirstAt(all, order'[a]) < FirstAt(all, order'[b])
    {
      assert order'[a] == order[a] && order[a] in order;
    }
  }

  /** An indexed id may get another client. */
  lemma IndexesAgain(all: seq<Client>, i: nat, order: seq<string>, byId: map<string, Client>, c: Client)
    requires i < |all| && IndexedTo(all, i, order, byId) && all[i].id in byId && c.id == all[i].id
    ensures IndexedTo(all, i + 1, order, byId[c.id := c]) && IndexedTo(all, i + 1, order, byId)
  {}

  ghost predicate Lasts(saved: seq<Client>, byId: map<string, Client>) {
    forall id :: id in byId ==> byId[id].id == id && LastOf(saved, byId[id])
  }

  lemma LastsExtend(saved: seq<Client>, i: nat, byId: map<string, Client>)
    requires i < |saved| && Lasts(saved[..i], byId)
    ensures Lasts(saved[..i + 1], byId[saved[i].id := saved[i]])
  {
    var byId' := byId[saved[i].id := saved[i]];
    forall id | id in byId'
      ensures LastOf(saved[..i + 1], byId'[id])
    {
      LastOfExtends(saved, i, byId'[id], id != saved[i].id);
    }
  }

  lemma LastOfExtends(cs: seq<Client>, i: nat, m: Client, other: bool)
    requires i < |cs| && if other then LastOf(cs[..i], m) && m.id != cs[i].id else m == cs[i]
    ensures LastOf(cs[..i + 1], m)
  {
    if other {
      var j :| 0 <= j < i && cs[..i][j] == m && forall k :: j < k < i ==> cs[..i][k].id != m.id;
      assert cs[..i + 1][j] == m;
      assert forall k :: j < k < i ==> cs[..i + 1][k] == cs[..i][k];
    } else {
      assert cs[..i + 1][i] == m;
    }
  }

  method IndexSaved(saved: seq<Client>, ghost all: seq<Client>) returns (order: seq<string>, byId: map<string, Client>)
    requires saved <= all
    ensures IndexedTo(all, |saved|, order, byId) && Lasts(saved, byId)
  {
    order, byId := [], map[];
    var i := 0;
    while i < |saved|
      invariant 0 <= i <= |saved|
      invariant IndexedTo(all, i, order, byId) && Lasts(saved[..i], byId)
    {
      assert all[i] == saved[i];
      LastsExtend(saved, i, byId);
      if saved[i].id !in byId {
        IndexesNew(all, i, order, byId);
        order := order + [saved[i].id];
      } else {
        IndexesAgain(all, i, order, byId, saved[i]);
      }
      byId := byId[saved[i].id := saved[i]];
      i := i + 1;
    }
    assert saved[..|saved|] == saved;
  }

  /** byId keeps what it held, and otherwise holds first discovered clients. */
  ghost predicate Adds(byId0: map<string, Client>, byId: map<string, Client>, discovered: seq<Client>) {
    && (forall id :: id in byId0 ==> id in byId && byId[id] == byId0[id])
    && (forall id :: id in byId && id !in byId0 ==> FirstOf(discovered, byId[id]))
  }

  lemma AddsNew(byId0: map<string, Client>, byId: map<string, Client>, discovered: seq<Client>, i: nat)
    requires i < |discovered| && Adds(byId0, byId, discovered) && discovered[i].id !in byId
    requires forall k :: 0 <= k < i ==> discovered[k].id in byId
    ensures Adds(byId0, byId[discovered[i].id := discovered[i]], discovered)
  {
    assert FirstOf(discovered, discovered[i]);
  }

  method AddDiscovered(order0: seq<string>, byId0: map<string, Client>, discovered: seq<Client>,
                       ghost saved: seq<Client>)
    returns (order: seq<string>, byId: map<string, Client>)
    requires IndexedTo(saved + discovered, |saved|, order0, byId0)
    ensures IndexedTo(saved + discovered, |saved + discovered|, order, byId) && Adds(byId0, byId, discovered)
  {
    order, byId := order0, byId0;
    ghost var all := saved + discovered;
    var i := 0;
    while i < |discovered|
      invariant 0 <= i <= |discovered|
      invariant IndexedTo(all, |saved| + i, order, byId) && Adds(byId0, byId, discovered)
    {
      assert all[|saved| + i] == discovered[i];
      if discovered[i].id !in byId {
        IndexesNew(all, |saved| + i, order, byId);
        forall k | 0 <= k < i
          ensures discovered[k].id in byId
        {
          assert all[|saved| + k] == discovered[k];
        }
        AddsNew(byId0, byId, discovered, i);
        byId := byId[discovered[i].id := discovered[i]];
        order := order + [discovered[i].id];
      } else {
        IndexesAgain(all, |saved| + i, order, byId, byId[discovered[i].id]);
      }
      i := i + 1;
    }
  }

  /** Reading the index off in order gives the merged list. */
  lemma MergedExactly(saved: seq<Client>, discovered: seq<Client>, savedById: map<string, Client>,
                      order: seq<string>, byId: map<string, Client>, merged: seq<Client>)
    requires Lasts(saved, savedById) && forall c :: c in saved ==> c.id in savedById
    requires IndexedTo(saved + discovered, |saved + discovered|, order, byId) && Adds(savedById, byId, discovered)
    requires |merged| == |order| && forall k :: 0 <= k < |merged| ==> merged[k] == byId[order[k]]
    ensures forall a, b :: 0 <= a < b < |merged| ==>
      FirstAt(saved + discovered, merged[a].id) < FirstAt(saved + discovered, merged[b].id)
    ensures forall m :: m in merged ==> if HasId(saved, m.id) then LastOf(saved, m) else FirstOf(discovered, m)
    ensures forall c :: c in saved || c in discovered ==> HasId(merged, c.id)
  {
    assert forall k :: 0 <= k < |merged| ==> merged[k].id == order[k];
    forall m | m in merged
      ensures if HasId(saved, m.id) then LastOf(saved, m) else FirstOf(discovered, m)
    {
      var k :| 0 <= k < |merged| && merged[k] == m;
      if m.id in savedById {
        assert LastOf(saved, savedById[m.id]);
      }
    }
    forall c | c in saved || c in discovered
      ensures HasId(merged, c.id)
    {
      assert c in saved + discovered;
      var i :| 0 <= i < |saved + discovered| && (saved + discovered)[i] == c;
      assert c.id in order;
      var k :| 0 <= k < |order| && order[k] == c.id;
      assert merged[k] in merged && merged[k].id == c.id;
    }
  }

  /** One client per id, in the order in which the ids first appear: the last saved client of
      that id, or if none is saved the first discovered one. */
  method MergeClients(saved: seq<Client>, discovered: seq<Client>) returns (merged: seq<Client>)
    ensures UniqueIds(merged)
    ensures forall a, b :: 0 <= a < b < |merged| ==>
      FirstAt(saved + discovered, merged[a].id) < FirstAt(saved + discovered, merged[b].id)
    ensures forall m :: m in merged ==> if HasId(saved, m.id) then LastOf(saved, m) else FirstOf(discovered, m)
    ensures forall c :: c in saved || c in discovered ==> HasId(merged, c.id)
  {
    assert saved <= saved + discovered;
    var order, savedById := IndexSaved(saved, saved + discovered);
    var byId;
    order, byId := AddDiscovered(order, savedById, discovered, saved);
    merged := [];
    var i := 0;
    while i < |order|
      invariant 0 <= i <= |order|
      invariant |merged| == i
      invariant forall k :: 0 <= k < i ==> merged[k] == byId[order[k]]
    {
      merged := merged + [byId[order[i]]];
      i := i + 1;
    }
    forall c | c in saved
      ensures c.id in savedById
    {
      var k :| 0 <= k < |saved| && saved[k] == c;
      assert (saved + discovered)[k] == c;
    }
    MergedExactly(saved, discovered, savedById, order, byId, merged);
  }

  // ---- Targets ------------------------------------------------------------------

  predicate Blank(c: char) {
    c == ' ' || c == '\t' || c == '\n' || c == '\r'
  }

  function TrimLeft(s: string): string {
    if s != "" && Blank(s[0]) then TrimLeft(s[1..]) else s
  }

  function TrimRight(s: string): string {
    if s != "" && Blank(s[|s| - 1]) then TrimRight(s[..|s| - 1]) else s
  }

  function Trim(s: string): string {
    TrimRight(TrimLeft(s))
  }

  function SplitCommas(s: string): seq<string> {
    if s == "" then [""]
    else
      var rest := SplitCommas(s[1..]);
      if s[0] == ',' then [""] + rest
      else if rest == [] then [[s[0]]]
      else [[s[0]] + rest[0]] + rest[1..]
  }

  function JoinCommas(parts: seq<string>): string {
    if parts == [] then "" else if |parts| == 1 then parts[0] else parts[0] + "," + JoinCommas(parts[1..])
  }

  /** The parts of a text are what lies between its commas: joined by commas they give the text
      back, and none holds a comma. */
  lemma {:induction false} SplitExactly(s: string)
    ensures SplitCommas(s) != [] && JoinCommas(SplitCommas(s)) == s
    ensures forall part :: part in SplitCommas(s) ==> ',' !in part
  {
    if s != "" {
      SplitExactly(s[1..]);
      var rest := SplitCommas(s[1..]);
      assert s == [s[0]] + s[1..];
      if s[0] == ',' {
        assert ([""] + rest)[1..] == rest;
        assert JoinCommas([""] + rest) == "" + "," + JoinCommas(rest);
      } else {
        var first, others := [s[0]] + rest[0], rest[1..];
        assert ([first] + others)[1..] == others;
        assert JoinCommas([first] + others) == [s[0]] + JoinCommas(rest);
      }
    }
  }

  /** Trimming takes blanks off both ends, and no others. */
  lemma {:induction false} TrimExactly(s: string)
    ensures exists i, j :: (0 <= i <= j <= |s| && Trim(s) == s[i..j]
                            && forall k :: 0 <= k < i || j <= k < |s| ==> Blank(s[k]))
    ensures Trim(s) != "" ==> !Blank(Trim(s)[0]) && !Blank(Trim(s)[|Trim(s)| - 1])
  {
    var i := TrimLeftExactly(s);
    var rest := TrimLeft(s);
    var j := TrimRightExactly(rest);
    assert Trim(s) == s[i..i + j];
    forall k | 0 <= k < i || i + j <= k < |s|
      ensures Blank(s[k])
    {
      if k >= i {
        assert rest[k - i] == s[k];
      }
    }
    if Trim(s) != "" {
      assert Trim(s)[0] == rest[0];
    }
  }

  lemma {:induction false} TrimLeftExactly(s: string) returns (i: nat)
    ensures i <= |s| && TrimLeft(s) == s[i..] && forall k :: 0 <= k < i ==> Blank(s[k])
    ensures TrimLeft(s) != "" ==> !Blank(TrimLeft(s)[0])
  {
    i := 0;
    if s != "" && Blank(s[0]) {
      var n := TrimLeftExactly(s[1..]);
      assert s[1..][n..] == s[n + 1..];
      forall k | 0 <= k < n + 1
        ensures Blank(s[k])
      {
        assert k > 0 ==> s[1..][k - 1] == s[k];
      }
      i := n + 1;
    }
  }

  lemma {:induction false} TrimRightExactly(s: string) returns (j: nat)
    ensures j <= |s| && TrimRight(s) == s[..j] && forall k :: j <= k < |s| ==> Blank(s[k])
    ensures TrimRight(s) != "" ==> !Blank(TrimRight(s)[|TrimRight(s)| - 1])
  {
    j := |s|;
    if s != "" && Blank(s[|s| - 1]) {
      j := TrimRightExactly(s[..|s| - 1]);
    }
  }

  function Filter(cs: seq<Client>, part: string): seq<Client> {
    if cs == [] then []
    else
      var last := cs[|cs| - 1];
      Filter(cs[..|cs| - 1], part) + if Named(last, part) then [last] else []
  }

  /** A client is named by its kind, or by its id or label (`title`) up to letter case. */
  predicate Named(c: Client, part: string) {
    if part == "app" then c.kind == App
    else if part == "cli" then c.kind == Cli
    else c.id == part || Lower(c.id) == Lower(part) || Lower(c.title) == Lower(part)
  }

  lemma {:induction false} FilterMembers(cs: seq<Client>, part: string)
    ensures forall c :: c in Filter(cs, part) <==> c in cs && Named(c, part)
  {
    if cs != [] {
      FilterMembers(cs[..|cs| - 1], part);
      assert cs == cs[..|cs| - 1] + [cs[|cs| - 1]];
    }
  }

  /** The clients picked by the first k parts; None when a part names nobody. */
  function Picked(cs: seq<Client>, parts: seq<string>, k: nat): Option<seq<Client>>
    requires k <= |parts|
  {
    if k == 0 then Some([])
    else
      var before := Picked(cs, parts, k - 1);
      if before.None? then None
      else
        var part := Trim(parts[k - 1]);
        if part == "" then before
        else
          var hits := Filter(cs, part);
          if part != "app" && part != "cli" && hits == [] then None
          else Some(before.value + hits)
  }

  function StoragesOf(cs: seq<Client>): set<Storage> {
    set c | c in cs :: c.storage
  }

  /** Every client on one of the given storages, once per id. */
  function Sharing(cs: seq<Client>, storages: set<Storage>): seq<Client> {
    if cs == [] then []
    else
      var init := Sharing(cs[..|cs| - 1], storages);
      var last := cs[|cs| - 1];
      if last.storage in storages && forall c :: c in init ==> c.id != last.id
      then init + [last] else init
  }

  lemma {:induction false} SharingMembers(cs: seq<Client>, storages: set<Storage>)
    requires UniqueIds(cs)
    ensures forall c :: c in Sharing(cs, storages) <==> c in cs && c.storage in storages
    ensures UniqueIds(Sharing(cs, storages))
  {
    if cs != [] {
      var init := cs[..|cs| - 1];
      SharingMembers(init, storages);
      assert cs == init + [cs[|cs| - 1]];
      forall c | c in Sharing(init, storages)
        ensures c.id != cs[|cs| - 1].id
      {
        assert c in init;
      }
    }
  }

  function Resolve(cs: seq<Client>, spec: string): Option<seq<Client>> {
    if spec == "" || spec == "all" then Some(cs)
    else
      var picked := Picked(cs, SplitCommas(spec), |SplitCommas(spec)|);
      if picked.None? then None else Some(Sharing(cs, StoragesOf(picked.value)))
  }

  method NamedClients(cs: seq<Client>, part: string) returns (hits: seq<Client>)
    ensures hits == Filter(cs, part)
  {
    hits := [];
    var i := 0;
    while i < |cs|
      invariant 0 <= i <= |cs|
      invariant hits == Filter(cs[..i], part)
    {
      assert cs[..i + 1][..i] == cs[..i];
      if Named(cs[i], part) {
        hits := hits + [cs[i]];
      }
      i := i + 1;
    }
    assert cs[..|cs|] == cs;
  }

  method SharingClients(cs: seq<Client>, storages: set<Storage>) returns (out: seq<Client>)
    ensures out == Sharing(cs, storages)
  {
    out := [];
    var i := 0;
    while i < |cs|
      invariant 0 <= i <= |cs|
      invariant out == Sharing(cs[..i], storages)
    {
      assert cs[..i + 1][..i] == cs[..i];
      if cs[i].storage in storages && forall c :: c in out ==> c.id != cs[i].id {
        out := out + [cs[i]];
      }
      i := i + 1;
    }
    assert cs[..|cs|] == cs;
  }

  // ---- What a target names -----------------------------------------------------------

  predicate NamedByPart(c: Client, part: string) {
    Trim(part) != "" && Named(c, Trim(part))
  }

  /** The target names the client, by one of its parts or as one of all. */
  predicate NamedBy(c: Client, spec: string) {
    spec == "" || spec == "all" || exists part :: part in SplitCommas(spec) && NamedByPart(c, part)
  }

  /** A part that is blank or a kind is always fine; any other must name somebody. */
  predicate PartKnown(cs: seq<Client>, part: string) {
    Trim(part) == "" || Trim(part) == "app" || Trim(part) == "cli" || exists c :: c in cs && Named(c, Trim(part))
  }

  predicate SpecKnown(cs: seq<Client>, spec: string) {
    spec == "" || spec == "all" || forall part :: part in SplitCommas(spec) ==> PartKnown(cs, part)
  }

  lemma {:induction false} PickedExactly(cs: seq<Client>, parts: seq<string>, k: nat)
    requires k <= |parts|
    ensures Picked(cs, parts, k).Some? <==> forall j :: 0 <= j < k ==> PartKnown(cs, parts[j])
  {
    if k > 0 {
      PickedExactly(cs, parts, k - 1);
      FilterKnown(cs, Trim(parts[k - 1]));
    }
  }

  lemma FilterKnown(cs: seq<Client>, part: string)
    ensures Filter(cs, part) == [] <==> forall c :: c in cs ==> !Named(c, part)
  {
    FilterMembers(cs, part);
    if Filter(cs, part) != [] {
      assert Filter(cs, part)[0] in Filter(cs, part);
    }
  }

  lemma NamedUpTo(c: Client, parts: seq<string>, k: nat)
    requires 0 < k <= |parts|
    ensures (exists j :: 0 <= j < k && NamedByPart(c, parts[j])) <==>
      (exists j :: 0 <= j < k - 1 && NamedByPart(c, parts[j])) || NamedByPart(c, parts[k - 1])
  {}

  lemma {:induction false} PickedMembers(cs: seq<Client>, parts: seq<string>, k: nat)
    requires k <= |parts| && Picked(cs, parts, k).Some?
    ensures forall c :: c in Picked(cs, parts, k).value <==>
      c in cs && exists j :: 0 <= j < k && NamedByPart(c, parts[j])
  {
    if k > 0 {
      PickedMembers(cs, parts, k - 1);
      FilterMembers(cs, Trim(parts[k - 1]));
      forall c
        ensures c in Picked(cs, parts, k).value <==> c in cs && exists j :: 0 <= j < k && NamedByPart(c, parts[j])
      {
        NamedUpTo(c, parts, k);
      }
    }
  }

  /** The storages that some named client uses. */
  function NamedStorages(cs: seq<Client>, spec: string): set<Storage> {
    set c | c in cs && NamedBy(c, spec) :: c.storage
  }

  /** A target resolves exactly if every part of it is known, and then to the clients on the
      storages of those it names. */
  lemma ResolveExactly(cs: seq<Client>, spec: string)
    requires UniqueIds(cs)
    ensures Resolve(cs, spec).Some? <==> SpecKnown(cs, spec)
    ensures Resolve(cs, spec).Some? ==>
      forall c :: c in Resolve(cs, spec).value <==> c in cs && c.storage in NamedStorages(cs, spec)
  {
    if spec != "" && spec != "all" {
      var parts := SplitCommas(spec);
      PickedExactly(cs, parts, |parts|);
      var picked := Picked(cs, parts, |parts|);
      if picked.Some? {
        PickedMembers(cs, parts, |parts|);
        SharingMembers(cs, StoragesOf(picked.value));
        PickedStorages(cs, spec, parts, picked.value);
      }
    }
  }

  lemma PickedStorages(cs: seq<Client>, spec: string, parts: seq<string>, picked: seq<Client>)
    requires spec != "" && spec != "all" && parts == SplitCommas(spec)
    requires forall c :: c in picked <==> c in cs && exists j :: 0 <= j < |parts| && NamedByPart(c, parts[j])
    ensures StoragesOf(picked) == NamedStorages(cs, spec)
  {
    forall c: Client
      ensures c in picked <==> c in cs && NamedBy(c, spec)
    {
      NamedByIndex(c, parts);
      assert c in picked <==> c in cs && exists j :: 0 <= j < |parts| && NamedByPart(c, parts[j]);
    }
  }

  lemma NamedByIndex(c: Client, parts: seq<string>)
    ensures (exists part :: part in parts && NamedByPart(c, part)) <==>
      exists j :: 0 <= j < |parts| && NamedByPart(c, parts[j])
  {
    forall part | part in parts && NamedByPart(c, part)
      ensures exists j :: 0 <= j < |parts| && NamedByPart(c, parts[j])
    {
      var j :| 0 <= j < |parts| && parts[j] == part;
      assert NamedByPart(c, parts[j]);
    }
    forall j | 0 <= j < |parts| && NamedByPart(c, parts[j])
      ensures exists part :: part in parts && NamedByPart(c, part)
    {
      assert parts[j] in parts;
    }
  }

  lemma ResolvedStorages(cs: seq<Client>, spec: string)
    requires UniqueIds(cs) && Resolve(cs, spec).Some?
    ensures StoragesOf(Resolve(cs, spec).value) == NamedStorages(cs, spec)
  {
    ResolveExactly(cs, spec);
    var affected := Resolve(cs, spec).value;
    forall s | s in NamedStorages(cs, spec)
      ensures s in StoragesOf(affected)
    {
      var c :| c in cs && NamedBy(c, spec) && c.storage == s;
      assert c in affected;
    }
  }

  /** ResolveTargets: with one client per id, the affected clients are those that share a storage
      with a client the target names. */
  method ResolveTargets(cs: seq<Client>, spec: string) returns (affected: Option<seq<Client>>)
    ensures affected == Resolve(cs, spec)
    ensures UniqueIds(cs) ==> (affected.Some? <==> SpecKnown(cs, spec))
    ensures UniqueIds(cs) && affected.Some? ==>
      forall c :: c in affected.value <==> c in cs && c.storage in NamedStorages(cs, spec)
  {
    if UniqueIds(cs) {
      ResolveExactly(cs, spec);
    }
    if spec == "" || spec == "all" {
      return Some(cs);
    }
    var parts := SplitCommas(spec);
    var picked: seq<Client> := [];
    var k := 0;
    while k < |parts|
      invariant 0 <= k <= |parts|
      invariant Picked(cs, parts, k) == Some(picked)
    {
      var part := Trim(parts[k]);
      if part != "" {
        var hits := NamedClients(cs, part);
        if part != "app" && part != "cli" && hits == [] {
          PickedNone(cs, parts, k + 1, |parts|);
          return None;
        }
        picked := picked + hits;
      }
      k := k + 1;
    }
    var out := SharingClients(cs, StoragesOf(picked));
    affected := Some(out);
  }

  lemma {:induction false} PickedNone(cs: seq<Client>, parts: seq<string>, k: nat, j: nat)
    requires k <= j <= |parts| && Picked(cs, parts, k).None?
    ensures Picked(cs, parts, j).None?
  {
    if k < j {
      PickedNone(cs, parts, k, j - 1);
    }
  }

  /** Resolution selects whole storages: a client is affected exactly when it shares its
      auth.json with a picked one, so no storage is half selected. */
  lemma ResolveSelectsStorages(cs: seq<Client>, spec: string)
    requires UniqueIds(cs) && Resolve(cs, spec).Some?
    ensures var affected := Resolve(cs, spec).value;
      && UniqueIds(affected)
      && (forall c :: c in affected <==> c in cs && c.storage in StoragesOf(affected))
  {
    if spec != "" && spec != "all" {
      var picked := Picked(cs, SplitCommas(spec), |SplitCommas(spec)|).value;
      SharingMembers(cs, StoragesOf(picked));
    }
  }

  /** The distinct storages in order of first appearance. */
  function UniqueStorages(cs: seq<Client>): seq<Storage> {
    if cs == [] then []
    else
      var init := UniqueStorages(cs[..|cs| - 1]);
      var s := cs[|cs| - 1].storage;
      if s in init then init else init + [s]
  }

  lemma {:induction false} UniqueStoragesMembers(cs: seq<Client>)
    ensures forall s :: s in UniqueStorages(cs) <==> s in StoragesOf(cs)
    ensures forall i, j :: 0 <= i < j < |UniqueStorages(cs)| ==> UniqueStorages(cs)[i] != UniqueStorages(cs)[j]
  {
    if cs != [] {
      UniqueStoragesMembers(cs[..|cs| - 1]);
      assert cs == cs[..|cs| - 1] + [cs[|cs| - 1]];
    }
  }

  // ---- Process state --------------------------------------------------------------

  /** What a process query answered for a client. */
  datatype Answer = NotRunning | Running | QueryError

  datatype Process = ProcNone | ProcIdle | ProcBusy | ProcUnknown | ProcRunning
  datatype Presence = Unset | PresenceNone | PresenceRunning | PresenceUnknown
  datatype Reason = NoReason | QueryFailed | AppRunning | CliRunning
  datatype ClientState = ClientState(process: Process, presence: Presence, reason: Reason)

  function AppState(a: Answer): ClientState {
    match a
    case QueryError => ClientState(ProcUnknown, PresenceUnknown, QueryFailed)
    case Running => ClientState(ProcUnknown, PresenceRunning, AppRunning)
    case NotRunning => ClientState(ProcNone, PresenceNone, NoReason)
  }

  function CliState(a: Answer): ClientState {
    match a
    case QueryError => ClientState(ProcUnknown, PresenceUnknown, QueryFailed)
    case Running => ClientState(ProcUnknown, PresenceRunning, CliRunning)
    case NotRunning => ClientState(ProcNone, PresenceNone, NoReason)
  }

  function InspectClient(c: Client, a: Answer): ClientState {
    if c.kind == App then AppState(a) else CliState(a)
  }

  function PresenceOf(st: ClientState): Presence {
    if st.presence != Unset then st.presence
    else if st.process == ProcNone || st.process == ProcIdle then PresenceNone
    else if st.reason == QueryFailed then PresenceUnknown
    else PresenceRunning
  }
}
