/** The account library: decoded identities, credential bundles, slots, and the
    seat comparison that every other component relies on. */
module Accounts {
  import opened Options

  type Name = string

  /** The claims InspectAuth decodes from a bundle; "" stands for a missing claim. */
  datatype Identity = Identity(
    authMode: string, workspace: string, user: string, sub: string, email: string, plan: string)

  /** A decoded auth.json. `refreshed` is last_refresh when it parses; `rest` stands
      for everything else in the bundle (access token, id token, ...). */
  datatype Auth = Auth(id: Identity, refresh: string, refreshed: Option<int>, rest: int)

  predicate IsBundle(a: Auth) {
    a.id.authMode == "chatgpt" && a.refresh != ""
  }

  function LowerChar(c: char): char {
    if 'A' <= c <= 'Z' then (c as int + 32) as char else c
  }

  function Lower(s: string): (r: string)
    ensures |r| == |s| && forall i :: 0 <= i < |s| ==> r[i] == LowerChar(s[i])
  {
    seq(|s|, i requires 0 <= i < |s| => LowerChar(s[i]))
  }

  /** Two bundles belong to the same seat. The strongest claim both carry decides. */
  predicate SameSeat(a: Identity, b: Identity) {
    if a.user != "" && b.user != "" then
      if a.workspace != "" && b.workspace != "" then a.user == b.user && a.workspace == b.workspace
      else a.user == b.user
    else if a.sub != "" && b.sub != "" then
      if a.workspace != "" && b.workspace != "" then a.sub == b.sub && a.workspace == b.workspace
      else a.sub == b.sub
    else
      var ae, be := Lower(a.email), Lower(b.email);
      if ae != "" && be != "" then
        if a.workspace != "" && b.workspace != "" then ae == be && a.workspace == b.workspace
        else ae == be
      else false
  }

  predicate Identifiable(a: Identity) {
    a.user != "" || a.sub != "" || a.email != ""
  }

  /** User and workspace claims both present. */
  predicate Full(a: Identity) {
    a.user != "" && a.workspace != ""
  }

  lemma SameSeatSymmetric(a: Identity, b: Identity)
    ensures SameSeat(a, b) == SameSeat(b, a)
  {}

  lemma SameSeatSelf(a: Identity)
    ensures SameSeat(a, a) <==> Identifiable(a)
  {
    assert a.email == "" <==> Lower(a.email) == "";
  }

  /** On full identities the comparison is equality of a key, hence an equivalence. */
  lemma SameSeatOnFull(a: Identity, b: Identity, c: Identity)
    requires Full(a) && Full(b) && Full(c)
    ensures SameSeat(a, b) <==> (a.user, a.workspace) == (b.user, b.workspace)
    ensures SameSeat(a, a)
    ensures SameSeat(a, b) && SameSeat(b, c) ==> SameSeat(a, c)
  {}

  /** Among bundles with user ids, seats chain exactly unless the middle one names no workspace
      and the outer two name different ones. */
  lemma SameSeatAmongUsers(a: Identity, b: Identity, c: Identity)
    requires a.user != "" && b.user != "" && c.user != "" && SameSeat(a, b) && SameSeat(b, c)
    ensures SameSeat(a, c) <==>
      b.workspace != "" || a.workspace == "" || c.workspace == "" || a.workspace == c.workspace
  {}

  // ---- When seats chain ------------------------------------------------------

  /** Which claims an identity carries. */
  datatype Shape = Shape(user: bool, sub: bool, email: bool, workspace: bool)

  datatype Claim = User | Sub | Email

  function ShapeOf(a: Identity): Shape {
    Shape(a.user != "", a.sub != "", a.email != "", a.workspace != "")
  }

  predicate Carries(s: Shape, k: Claim) {
    match k
    case User => s.user
    case Sub => s.sub
    case Email => s.email
  }

  /** The claim that decides between two identities: the strongest that both carry. */
  function Deciding(s: Shape, t: Shape): Option<Claim> {
    if s.user && t.user then Some(User)
    else if s.sub && t.sub then Some(Sub)
    else if s.email && t.email then Some(Email)
    else None
  }

  /** Two comparisons chain: one of them cannot hold, or all three are decided by the same claim
      and a workspace named by both ends is also named in the middle. */
  predicate Chains(s: Shape, t: Shape, u: Shape) {
    || Deciding(s, t).None? || Deciding(t, u).None?
    || (&& Deciding(s, t) == Deciding(t, u) == Deciding(s, u)
        && (s.workspace && u.workspace ==> t.workspace))
  }

  ghost predicate TransitiveOn(s: Shape, t: Shape, u: Shape) {
    forall a, b, c | ShapeOf(a) == s && ShapeOf(b) == t && ShapeOf(c) == u ::
      SameSeat(a, b) && SameSeat(b, c) ==> SameSeat(a, c)
  }

  function ClaimOf(a: Identity, k: Claim): string {
    match k
    case User => a.user
    case Sub => a.sub
    case Email => Lower(a.email)
  }

  predicate WorkspacesAgree(a: Identity, b: Identity) {
    a.workspace != "" && b.workspace != "" ==> a.workspace == b.workspace
  }

  lemma LowerPresent(s: string)
    ensures Lower(s) == "" <==> s == ""
  {
    assert |Lower(s)| == |s|;
  }

  lemma SameSeatDecided(a: Identity, b: Identity)
    ensures SameSeat(a, b) <==>
      var k := Deciding(ShapeOf(a), ShapeOf(b));
      k.Some? && ClaimOf(a, k.value) == ClaimOf(b, k.value) && WorkspacesAgree(a, b)
  {
    LowerPresent(a.email);
    LowerPresent(b.email);
  }

  /** An identity of the given shape: `odd` is its one claim with another value, if any. */
  function Sample(s: Shape, odd: Option<Claim>, workspace: string): (a: Identity)
    requires workspace != ""
    ensures ShapeOf(a) == s && (s.workspace ==> a.workspace == workspace)
  {
    Identity("chatgpt", if s.workspace then workspace else "",
             if !s.user then "" else if odd == Some(User) then "2" else "1",
             if !s.sub then "" else if odd == Some(Sub) then "2" else "1",
             if !s.email then "" else if odd == Some(Email) then "2" else "1", "")
  }

  lemma SampleClaim(s: Shape, odd: Option<Claim>, workspace: string, k: Claim)
    requires workspace != "" && Carries(s, k)
    ensures ClaimOf(Sample(s, odd, workspace), k) == if odd == Some(k) then "2" else "1"
  {
    assert Lower("1") == "1" && Lower("2") == "2";
  }

  lemma SampledSeat(s: Shape, oddA: Option<Claim>, w: string, t: Shape, oddB: Option<Claim>, v: string)
    requires w != "" && v != ""
    ensures SameSeat(Sample(s, oddA, w), Sample(t, oddB, v)) <==>
      var k := Deciding(s, t);
      k.Some? && (oddA == k <==> oddB == k) && (s.workspace && t.workspace ==> w == v)
  {
    SameSeatDecided(Sample(s, oddA, w), Sample(t, oddB, v));
    var k := Deciding(s, t);
    if k.Some? {
      SampleClaim(s, oddA, w, k.value);
      SampleClaim(t, oddB, v, k.value);
    }
  }

  lemma UnchainedFails(s: Shape, t: Shape, u: Shape) returns (a: Identity, b: Identity, c: Identity)
    requires !Chains(s, t, u)
    ensures ShapeOf(a) == s && ShapeOf(b) == t && ShapeOf(c) == u
    ensures SameSeat(a, b) && SameSeat(b, c) && !SameSeat(a, c)
  {
    var p, q, r := Deciding(s, t), Deciding(t, u), Deciding(s, u);
    var oddA := if p != r then r else None;
    var oddC := if p == r && q != r then r else None;
    var workspace := if p == q == r then "v" else "w";
    a, b, c := Sample(s, oddA, workspace), Sample(t, None, "w"), Sample(u, oddC, "w");
    SampledSeat(s, oddA, workspace, t, None, "w");
    SampledSeat(t, None, "w", u, oddC, "w");
    SampledSeat(s, oddA, workspace, u, oddC, "w");
  }

  /** The comparison is transitive on identities of given shapes if and only if the shapes chain. */
  lemma SameSeatTransitiveExactly(s: Shape, t: Shape, u: Shape)
    ensures TransitiveOn(s, t, u) <==> Chains(s, t, u)
  {
    if Chains(s, t, u) {
      forall a, b, c | ShapeOf(a) == s && ShapeOf(b) == t && ShapeOf(c) == u && SameSeat(a, b) && SameSeat(b, c)
        ensures SameSeat(a, c)
      {
        SameSeatDecided(a, b);
        SameSeatDecided(b, c);
        SameSeatDecided(a, c);
      }
    } else {
      var a, b, c := UnchainedFails(s, t, u);
    }
  }

  /** Equal shapes chain: bundles that name the same claims fall into seats. */
  lemma SameShapesChain(s: Shape)
    ensures TransitiveOn(s, s, s)
  {
    SameSeatTransitiveExactly(s, s, s);
  }

  const USER_AND_WORKSPACE := Shape(true, false, false, true)
  const USER_ONLY := Shape(true, false, false, false)
  const SUB_AND_WORKSPACE := Shape(false, true, false, true)
  const BOTH_AND_WORKSPACE := Shape(true, true, false, true)

  /** Two ways to fail: a middle bundle without a workspace, and, with every workspace present,
      a middle bundle that shares another claim with either end. */
  lemma SameSeatNotTransitive()
    ensures !TransitiveOn(USER_AND_WORKSPACE, USER_ONLY, USER_AND_WORKSPACE)
    ensures !TransitiveOn(USER_AND_WORKSPACE, BOTH_AND_WORKSPACE, SUB_AND_WORKSPACE)
  {
    SameSeatTransitiveExactly(USER_AND_WORKSPACE, USER_ONLY, USER_AND_WORKSPACE);
    SameSeatTransitiveExactly(USER_AND_WORKSPACE, BOTH_AND_WORKSPACE, SUB_AND_WORKSPACE);
  }

  // ---- Slots ----------------------------------------------------------------

  predicate SlotChar(c: char) {
    'A' <= c <= 'Z' || 'a' <= c <= 'z' || '0' <= c <= '9' || c == '.' || c == '_' || c == '-'
  }

  predicate DoubleDot(s: string) {
    exists i :: 0 <= i < |s| - 1 && s[i] == '.' && s[i + 1] == '.'
  }

  predicate ValidSlotName(s: string) {
    s != "" && (forall i :: 0 <= i < |s| ==> SlotChar(s[i])) && s != "." && !DoubleDot(s)
  }

  /** auth.json of a slot: parsed, or present but unreadable. */
  datatype Stored = Readable(auth: Auth) | Damaged

  /** A slot directory; `revision` is cred_version of meta.json when that file exists. */
  datatype Slot = Slot(stored: Stored, revision: Option<int>)

  /** `listing` is the directory listing of the accounts folder that hold an auth.json. */
  datatype Library = Library(listing: seq<Name>, slots: map<Name, Slot>)

  /** Byte order, as directory names are sorted. */
  predicate Before(a: string, b: string) {
    if b == "" then false
    else if a == "" then true
    else a[0] < b[0] || (a[0] == b[0] && Before(a[1..], b[1..]))
  }

  /** The sorted listing after a directory was made. */
  function InsertName(listing: seq<Name>, n: Name): (r: seq<Name>)
    ensures forall m :: m in r <==> m in listing || m == n
  {
    if listing == [] then [n]
    else if Before(n, listing[0]) then [n] + listing
    else [listing[0]] + InsertName(listing[1..], n)
  }

  /** The first place where two names part: the shorter one ends there, or has the smaller character. */
  ghost predicate PartsAt(a: string, b: string, k: nat) {
    k <= |a| && k < |b| && a[..k] == b[..k] && (k == |a| || a[k] < b[k])
  }

  lemma {:induction false} BeforeExactly(a: string, b: string)
    ensures Before(a, b) <==> exists k: nat :: PartsAt(a, b, k)
  {
    if b != "" && a != "" {
      BeforeExactly(a[1..], b[1..]);
      if k: nat :| a[0] == b[0] && PartsAt(a[1..], b[1..], k) {
        assert a == [a[0]] + a[1..] && b == [b[0]] + b[1..];
        assert a[..k + 1] == [a[0]] + a[1..][..k] && b[..k + 1] == [b[0]] + b[1..][..k];
        assert PartsAt(a, b, k + 1);
      }
      if k: nat :| PartsAt(a, b, k) && k > 0 {
        assert a[..k][0] == a[0] && b[..k][0] == b[0];
        assert a[1..][..k - 1] == a[..k][1..] && b[1..][..k - 1] == b[..k][1..];
        assert PartsAt(a[1..], b[1..], k - 1);
      }
      if a[0] < b[0] {
        assert PartsAt(a, b, 0);
      }
    } else if b != "" {
      assert PartsAt(a, b, 0);
    }
  }

  lemma {:induction false} BeforeOrders(a: string, b: string, c: string)
    ensures a != b ==> Before(a, b) || Before(b, a)
    ensures !(Before(a, b) && Before(b, a))
    ensures Before(a, b) && Before(b, c) ==> Before(a, c)
  {
    if a != "" && b != "" {
      assert a == [a[0]] + a[1..] && b == [b[0]] + b[1..];
      BeforeOrders(a[1..], b[1..], if c == "" then "" else c[1..]);
    }
  }

  ghost predicate Sorted(listing: seq<Name>) {
    forall i, j :: 0 <= i < j < |listing| ==> Before(listing[i], listing[j])
  }

  /** A new name goes where byte order has it. */
  lemma {:induction false} InsertKeepsSorted(listing: seq<Name>, n: Name)
    requires Sorted(listing) && n !in listing
    ensures Sorted(InsertName(listing, n)) && |InsertName(listing, n)| == |listing| + 1
  {
    if listing != [] {
      var first, rest := listing[0], listing[1..];
      BeforeOrders(n, first, first);
      if Before(n, first) {
        forall j | 0 <= j < |listing|
          ensures Before(n, listing[j])
        {
          BeforeOrders(n, first, listing[j]);
        }
      } else {
        InsertKeepsSorted(rest, n);
        forall m | m in InsertName(rest, n)
          ensures Before(first, m)
        {
          if m != n {
            var j :| 0 <= j < |rest| && rest[j] == m;
            assert listing[j + 1] == m;
          }
        }
      }
    }
  }

  ghost predicate ListsSlots(lib: Library) {
    forall n :: n in lib.listing <==> n in lib.slots
  }

  function Get(lib: Library, n: Name): Option<Auth> {
    if ValidSlotName(n) && n in lib.slots && lib.slots[n].stored.Readable?
    then Some(lib.slots[n].stored.auth) else None
  }

  predicate Matches(lib: Library, n: Name, id: Identity) {
    Get(lib, n).Some? && SameSeat(Get(lib, n).value.id, id)
  }

  function FindFrom(lib: Library, id: Identity, i: nat): Option<Name>
    requires i <= |lib.listing|
    decreases |lib.listing| - i
  {
    if i == |lib.listing| then None
    else if Matches(lib, lib.listing[i], id) then Some(lib.listing[i])
    else FindFrom(lib, id, i + 1)
  }

  function Find(lib: Library, id: Identity): Option<Name> {
    FindFrom(lib, id, 0)
  }

  /** The scan of the library: a slot of the same seat, or none exists. */
  method FindByIdentity(lib: Library, id: Identity) returns (r: Option<Name>)
    ensures r == Find(lib, id)
    ensures r.Some? ==> r.value in lib.listing && Matches(lib, r.value, id)
    ensures r.None? ==> forall n :: n in lib.listing ==> !Matches(lib, n, id)
  {
    var i := 0;
    while i < |lib.listing|
      invariant 0 <= i <= |lib.listing|
      invariant Find(lib, id) == FindFrom(lib, id, i)
      invariant forall k :: 0 <= k < i ==> !Matches(lib, lib.listing[k], id)
    {
      if Matches(lib, lib.listing[i], id) {
        return Some(lib.listing[i]);
      }
      i := i + 1;
    }
    r := None;
  }

  lemma {:induction false} FindSound(lib: Library, id: Identity, i: nat)
    requires i <= |lib.listing|
    ensures FindFrom(lib, id, i).Some? ==>
      FindFrom(lib, id, i).value in lib.listing[i..] && Matches(lib, FindFrom(lib, id, i).value, id)
    ensures FindFrom(lib, id, i).None? ==> forall n :: n in lib.listing[i..] ==> !Matches(lib, n, id)
    decreases |lib.listing| - i
  {
    if i < |lib.listing| {
      assert lib.listing[i..] == [lib.listing[i]] + lib.listing[i + 1..];
      FindSound(lib, id, i + 1);
    }
  }

  /** The first listed slot of a seat. */
  predicate FirstOfSeat(lib: Library, id: Identity, i: nat) {
    && i < |lib.listing| && Matches(lib, lib.listing[i], id)
    && forall j :: 0 <= j < i ==> !Matches(lib, lib.listing[j], id)
  }

  lemma {:induction false} FindFirst(lib: Library, id: Identity, i: nat)
    requires i <= |lib.listing| && forall j :: 0 <= j < i ==> !Matches(lib, lib.listing[j], id)
    ensures forall k: nat :: FirstOfSeat(lib, id, k) ==> FindFrom(lib, id, i) == Some(lib.listing[k])
    ensures FindFrom(lib, id, i).Some? ==> exists k: nat :: FirstOfSeat(lib, id, k)
    decreases |lib.listing| - i
  {
    if i < |lib.listing| {
      if Matches(lib, lib.listing[i], id) {
        assert FirstOfSeat(lib, id, i);
      } else {
        FindFirst(lib, id, i + 1);
      }
    }
  }

  /** If at most one listed slot matches, the scan finds exactly that slot. */
  lemma FindUnique(lib: Library, id: Identity, n: Name)
    requires n in lib.listing && Matches(lib, n, id)
    requires forall m :: m in lib.listing && Matches(lib, m, id) ==> m == n
    ensures Find(lib, id) == Some(n)
  {
    FindSound(lib, id, 0);
    assert lib.listing[0..] == lib.listing;
  }

  /** Two libraries with the same listing whose slots match the same identity find the same slot. */
  lemma {:induction false} FindCongruent(a: Library, b: Library, id: Identity, i: nat)
    requires a.listing == b.listing && i <= |a.listing|
    requires forall n :: n in a.listing ==> Matches(a, n, id) == Matches(b, n, id)
    ensures FindFrom(a, id, i) == FindFrom(b, id, i)
    decreases |a.listing| - i
  {
    if i < |a.listing| {
      FindCongruent(a, b, id, i + 1);
    }
  }
}
