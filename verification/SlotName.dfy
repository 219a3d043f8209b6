/** The slot name proposed for a new account. */
module SlotName {
  import opened Options
  import opened Accounts

  const PLANS := ["plus", "pro", "free", "team", "business", "enterprise"]

  function BeforeAt(s: string): string {
    if s == "" || s[0] == '@' then "" else [s[0]] + BeforeAt(s[1..])
  }

  function Local(id: Identity): string {
    if id.email != "" then BeforeAt(id.email) else "account"
  }

  function Raw(id: Identity): string {
    if id.email != "" then id.email else if id.user != "" then id.user else "account"
  }

  function Dashed(s: string): (r: string)
    ensures |r| == |s|
    ensures forall i :: 0 <= i < |s| ==> r[i] == if SlotChar(s[i]) then s[i] else '-'
  {
    seq(|s|, i requires 0 <= i < |s| => if SlotChar(s[i]) then s[i] else '-')
  }

  function TrimDashes(s: string): (r: string)
    ensures forall c :: c in r ==> c in s
    ensures r != "" ==> r[0] != '-' && r[|r| - 1] != '-'
    decreases |s|
  {
    if s == "" then ""
    else if s[0] == '-' then TrimDashes(s[1..])
    else if s[|s| - 1] == '-' then TrimDashes(s[..|s| - 1])
    else s
  }

  function Slug(id: Identity): string {
    var s := TrimDashes(Dashed(Raw(id)));
    if s == "" then "account" else s
  }

  // ---- What the parts of a proposal are --------------------------------------------------------

  lemma {:induction false} BeforeAtExactly(s: string) returns (k: nat)
    ensures k <= |s| && BeforeAt(s) == s[..k] && '@' !in s[..k] && (k < |s| ==> s[k] == '@')
  {
    k := 0;
    if s != "" && s[0] != '@' {
      var n := BeforeAtExactly(s[1..]);
      k := n + 1;
      assert s[..k] == [s[0]] + s[1..][..n];
    }
  }

  /** The local part is what precedes the first '@' of the address, or "account" without one. */
  lemma LocalExactly(id: Identity)
    ensures id.email == "" ==> Local(id) == "account"
    ensures id.email != "" ==> '@' !in Local(id) && (Local(id) == id.email || Local(id) + "@" <= id.email)
  {
    if id.email != "" {
      var k := BeforeAtExactly(id.email);
      if k < |id.email| {
        assert id.email[..k + 1] == id.email[..k] + "@";
      } else {
        assert id.email[..k] == id.email;
      }
    }
  }

  lemma {:induction false} TrimDashesExactly(s: string) returns (i: nat, j: nat)
    ensures i <= j <= |s| && TrimDashes(s) == s[i..j]
    ensures forall k :: 0 <= k < i || j <= k < |s| ==> s[k] == '-'
    decreases |s|
  {
    i, j := 0, |s|;
    if s != "" && s[0] == '-' {
      var rest := s[1..];
      i, j := TrimDashesExactly(rest);
      i, j := i + 1, j + 1;
      forall k | 0 <= k < i || j <= k < |s|
        ensures s[k] == '-'
      {
        assert k > 0 ==> rest[k - 1] == s[k];
      }
    } else if s != "" && s[|s| - 1] == '-' {
      i, j := TrimDashesExactly(s[..|s| - 1]);
    }
  }

  /** What a slug is made from: the address, else the user id, else "account". */
  ghost predicate SluggedFrom(id: Identity, raw: string) {
    if id.email != "" then raw == id.email else if id.user != "" then raw == id.user else raw == "account"
  }

  /** A character that no slug keeps at its ends. */
  predicate Dropped(c: char) {
    !SlotChar(c) || c == '-'
  }

  /** The slug is what lies between the dropped characters at both ends, raw[i..j], with dashes for
      the characters a slot name cannot have; without a character to keep it is "account". */
  lemma SlugExactly(id: Identity, raw: string) returns (i: nat, j: nat)
    requires SluggedFrom(id, raw)
    ensures i <= j <= |raw| && (forall c :: c in raw[0..i] || c in raw[j..|raw|] ==> Dropped(c))
    ensures i < j ==> Slug(id) == Dashed(raw[i..j]) && !Dropped(raw[i]) && !Dropped(raw[j - 1])
    ensures i == j ==> Slug(id) == "account"
  {
    assert raw == Raw(id);
    i, j := TrimDashesExactly(Dashed(raw));
    DashedPart(raw, i, j);
    DashedPart(raw, 0, i);
    DashedPart(raw, j, |raw|);
    AllDropped(raw[0..i]);
    AllDropped(raw[j..|raw|]);
    if i < j {
      KeptEnds(raw, i, j);
    }
  }

  lemma AllDropped(part: string)
    requires forall k :: 0 <= k < |part| ==> Dashed(part)[k] == '-'
    ensures forall c :: c in part ==> Dropped(c)
  {
    forall c | c in part
      ensures Dropped(c)
    {
      var k :| 0 <= k < |part| && part[k] == c;
      assert Dashed(part)[k] == '-';
    }
  }

  lemma DashedPart(raw: string, i: nat, j: nat)
    requires i <= j <= |raw|
    ensures Dashed(raw[i..j]) == Dashed(raw)[i..j]
  {}

  lemma KeptEnds(raw: string, i: nat, j: nat)
    requires i < j <= |raw| && TrimDashes(Dashed(raw)) == Dashed(raw)[i..j]
    ensures !Dropped(raw[i]) && !Dropped(raw[j - 1])
  {
    var slug := TrimDashes(Dashed(raw));
    assert slug[0] == Dashed(raw)[i] && slug[|slug| - 1] == Dashed(raw)[j - 1];
  }

  // ---- Decimal suffixes -----------------------------------------------------------------------

  function Digit(d: nat): char
    requires d < 10
  {
    ('0' as int + d) as char
  }

  function Itoa(n: nat): string {
    if n < 10 then [Digit(n)] else Itoa(n / 10) + [Digit(n % 10)]
  }

  function Value(s: string): int {
    if s == "" then 0 else 10 * Value(s[..|s| - 1]) + (s[|s| - 1] as int - '0' as int)
  }

  /** Reading a decimal back gives the number, so different numbers have different decimals. */
  lemma {:induction false} ValueOfItoa(n: nat)
    ensures Value(Itoa(n)) == n
  {
    if n < 10 {
      assert [Digit(n)][..0] == "";
      assert Value([Digit(n)]) == 10 * Value("") + n;
    } else {
      ValueOfItoa(n / 10);
      assert (Itoa(n / 10) + [Digit(n % 10)])[..|Itoa(n / 10)|] == Itoa(n / 10);
    }
  }

  function Numbered(slug: string, n: nat): string {
    slug + "-" + Itoa(n)
  }

  lemma NumberedInjective(slug: string, m: nat, n: nat)
    ensures Numbered(slug, m) == Numbered(slug, n) <==> m == n
  {
    if Numbered(slug, m) == Numbered(slug, n) {
      assert Numbered(slug, m)[|slug| + 1..] == Itoa(m);
      assert Numbered(slug, n)[|slug| + 1..] == Itoa(n);
      ValueOfItoa(m);
      ValueOfItoa(n);
    }
  }

  // ---- The proposal ------------------------------------------------------------------------------

  /** n is the first suffix, counting from 2, that is free. */
  ghost predicate FirstFree(slug: string, taken: set<string>, n: nat) {
    n >= 2 && Numbered(slug, n) !in taken && forall m :: 2 <= m < n ==> Numbered(slug, m) in taken
  }

  /** The proposal in order of preference: the plan, the plan with the local part, the slug, the first free number. */
  ghost predicate Proposed(id: Identity, taken: set<string>, name: string) {
    var plan := Lower(id.plan);
    if plan in PLANS && plan !in taken then name == plan
    else if plan in PLANS && plan + "-" + Local(id) !in taken then name == plan + "-" + Local(id)
    else if Slug(id) !in taken then name == Slug(id)
    else exists n :: FirstFree(Slug(id), taken, n) && name == Numbered(Slug(id), n)
  }

  method SlugOf(raw: string) returns (slug: string)
    ensures slug == if TrimDashes(Dashed(raw)) == "" then "account" else TrimDashes(Dashed(raw))
  {
    var b := "";
    var i := 0;
    while i < |raw|
      invariant 0 <= i <= |raw|
      invariant b == Dashed(raw)[..i]
    {
      b := b + [if SlotChar(raw[i]) then raw[i] else '-'];
      i := i + 1;
    }
    assert Dashed(raw)[..|raw|] == Dashed(raw);
    slug := TrimDashes(b);
    if slug == "" {
      slug := "account";
    }
  }

  /** Terminates for every identity and every finite set of taken names: each rejected
      candidate is a different taken name. */
  method DefaultSlotName(id: Identity, taken: set<string>) returns (name: string)
    ensures name !in taken
    ensures Proposed(id, taken, name)
  {
    var plan := Lower(id.plan);
    if plan in PLANS {
      if plan !in taken {
        return plan;
      }
      var local := "account";
      if id.email != "" {
        local := BeforeAt(id.email);
      }
      var candidate := plan + "-" + local;
      if candidate !in taken {
        return candidate;
      }
    }
    var raw := id.email;
    if raw == "" {
      raw := id.user;
    }
    if raw == "" {
      raw := "account";
    }
    var slug := SlugOf(raw);
    if slug !in taken {
      return slug;
    }
    var n := 2;
    ghost var untried := taken;
    while Numbered(slug, n) in taken
      invariant n >= 2
      invariant forall m :: 2 <= m < n ==> Numbered(slug, m) in taken
      invariant forall s :: s in taken && s !in untried ==> exists m :: 2 <= m < n && s == Numbered(slug, m)
      decreases |untried|
    {
      forall m | 2 <= m < n
        ensures Numbered(slug, m) != Numbered(slug, n)
      {
        NumberedInjective(slug, m, n);
      }
      untried := untried - {Numbered(slug, n)};
      n := n + 1;
    }
    assert FirstFree(slug, taken, n);
    name := Numbered(slug, n);
  }

  // ---- Is the proposal a valid slot name? --------------------------------------------------------

  lemma {:induction false} ItoaDigits(n: nat)
    ensures Itoa(n) != "" && forall i :: 0 <= i < |Itoa(n)| ==> '0' <= Itoa(n)[i] <= '9'
  {
    if n >= 10 {
      ItoaDigits(n / 10);
    }
  }

  lemma SlugChars(id: Identity)
    ensures Slug(id) != "" && forall i :: 0 <= i < |Slug(id)| ==> SlotChar(Slug(id)[i])
  {
    var s := TrimDashes(Dashed(Raw(id)));
    forall c | c in s
      ensures SlotChar(c)
    {
      assert c in Dashed(Raw(id));
    }
  }

  lemma PlansValid(plan: string)
    requires plan in PLANS
    ensures ValidSlotName(plan)
  {}

  lemma DoubleDotAppend(a: string, b: string)
    requires a != "" && b != "" && (a[|a| - 1] != '.' || b[0] != '.')
    ensures DoubleDot(a + b) <==> DoubleDot(a) || DoubleDot(b)
  {
    var s := a + b;
    if i :| 0 <= i < |b| - 1 && b[i] == '.' && b[i + 1] == '.' {
      assert s[|a| + i] == '.' && s[|a| + i + 1] == '.';
    }
    if i :| 0 <= i < |a| - 1 && a[i] == '.' && a[i + 1] == '.' {
      assert s[i] == '.' && s[i + 1] == '.';
    }
    if i :| 0 <= i < |s| - 1 && s[i] == '.' && s[i + 1] == '.' {
      if i < |a| {
        assert i < |a| - 1 && a[i] == '.' && a[i + 1] == '.';
      } else {
        assert b[i - |a|] == '.' && b[i - |a| + 1] == '.';
      }
    }
  }

  lemma NumberedValid(slug: string, n: nat)
    requires slug != "" && forall i :: 0 <= i < |slug| ==> SlotChar(slug[i])
    ensures ValidSlotName(Numbered(slug, n)) <==> !DoubleDot(slug)
  {
    ItoaDigits(n);
    var tail := "-" + Itoa(n);
    assert Numbered(slug, n) == slug + tail;
    DoubleDotAppend(slug, tail);
  }

  lemma WithLocalValid(plan: string, local: string)
    requires plan in PLANS
    ensures ValidSlotName(plan + "-" + local) <==>
      (forall i :: 0 <= i < |local| ==> SlotChar(local[i])) && !DoubleDot(local)
  {
    var front := plan + "-";
    var s := front + local;
    assert forall i :: 0 <= i < |front| ==> SlotChar(s[i]);
    assert forall i :: 0 <= i < |local| ==> s[|front| + i] == local[i];
    if local == "" {
      assert s == front;
    } else {
      DoubleDotAppend(front, local);
    }
  }

  /** Saving under the proposed name is refused exactly when the local part of the address is
      used as it stands with a character or a double dot that slot names exclude, or the slug
      holds a double dot or is a single dot. */
  lemma ProposalValidExactly(id: Identity, taken: set<string>, name: string)
    requires Proposed(id, taken, name)
    ensures ValidSlotName(name) <==>
      var plan := Lower(id.plan);
      if plan in PLANS && plan !in taken then true
      else if plan in PLANS && plan + "-" + Local(id) !in taken then
        (forall i :: 0 <= i < |Local(id)| ==> SlotChar(Local(id)[i])) && !DoubleDot(Local(id))
      else !DoubleDot(Slug(id)) && (Slug(id) == "." ==> "." in taken)
  {
    var plan := Lower(id.plan);
    SlugChars(id);
    if plan in PLANS && plan !in taken {
      PlansValid(plan);
    } else if plan in PLANS && plan + "-" + Local(id) !in taken {
      WithLocalValid(plan, Local(id));
    } else if Slug(id) in taken {
      var n :| FirstFree(Slug(id), taken, n) && name == Numbered(Slug(id), n);
      NumberedValid(Slug(id), n);
    }
  }

  /** A second "plus" account whose address is not plain gets a name that cannot be saved. */
  lemma PlainAddressNeeded()
    ensures exists id, taken, name :: Proposed(id, taken, name) && !ValidSlotName(name)
  {
    var id := Identity("chatgpt", "w", "u", "", "+@x", "plus");
    var plan, name := Lower("plus"), "plus" + "-" + "+";
    assert plan == "plus" && plan == PLANS[0];
    assert BeforeAt("@x") == "" && BeforeAt("+@x") == "+" by {
      assert "+@x"[1..] == "@x";
    }
    assert Local(id) == "+";
    assert name != "plus" by {
      assert |name| == 6;
    }
    assert Proposed(id, {"plus"}, name);
    assert name[5] == '+' && !SlotChar(name[5]);
  }
}
