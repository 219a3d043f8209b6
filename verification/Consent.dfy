/** What warrants an execution: the plan its request was shown, and for restarting the App a
    confirmation given in the web session for the plan then on record. */
module Consent {
  import opened Options
  import opened Accounts
  import opened Clients
  import opened Disk
  import opened Operations
  import opened OperationProofs
  import opened Idempotence
  import Execution
  import Preview

  // ---- What the views show ---------------------------------------------------------------------

  /** A view of the desktop: the first App, if it has an id, and the clients that share its storage. */
  ghost predicate DesktopView(cs: seq<Client>, v: TargetView) {
    exists i :: (0 <= i < |cs| && cs[i].kind == App && (forall k :: 0 <= k < i ==> cs[k].kind != App)
                 && cs[i].id != "" && v.id == "desktop" && v.members != [] && v.members[0] == cs[i].id
                 && forall m :: m in v.members <==> exists c :: c in cs && c.id == m && c.storage == cs[i].storage)
  }

  ghost predicate CliView(cs: seq<Client>, v: TargetView) {
    v.id != "win-cli" && v.members == [v.id] && exists c :: c in cs && c.kind == Cli && c.id == v.id
  }

  ghost predicate AllView(cs: seq<Client>, v: TargetView) {
    cs != [] && v.id == "all" && |v.members| == |cs| && forall i :: 0 <= i < |cs| ==> v.members[i] == cs[i].id
  }

  lemma {:induction false} FirstAppExactly(cs: seq<Client>, i: nat)
    requires i <= |cs|
    ensures var app := FirstApp(cs, i);
      if app.None? then forall k :: i <= k < |cs| ==> cs[k].kind != App
      else exists j :: (i <= j < |cs| && cs[j] == app.value && cs[j].kind == App
                        && forall k :: i <= k < j ==> cs[k].kind != App)
    decreases |cs| - i
  {
    if i < |cs| && cs[i].kind != App {
      FirstAppExactly(cs, i + 1);
    }
  }

  lemma {:induction false} SharersExactly(cs: seq<Client>, app: Client)
    ensures forall m :: m in SharersOf(cs, app) <==>
      exists c :: c in cs && c.id == m && c.id != app.id && c.storage == app.storage
  {
    if cs != [] {
      SharersExactly(cs[..|cs| - 1], app);
      assert cs == cs[..|cs| - 1] + [cs[|cs| - 1]];
    }
  }

  ghost predicate Distinct(ids: seq<string>) {
    forall i, j :: 0 <= i < j < |ids| ==> ids[i] != ids[j]
  }

  lemma DistinctExtends(ids: seq<string>, id: string)
    requires Distinct(ids) && id !in ids
    ensures Distinct(ids + [id])
  {}

  /** With one client per id nobody is shown twice. */
  lemma {:induction false} SharersDistinct(cs: seq<Client>, app: Client)
    requires UniqueIds(cs)
    ensures Distinct([app.id] + SharersOf(cs, app))
  {
    if cs != [] {
      var init, last := cs[..|cs| - 1], cs[|cs| - 1];
      SharersDistinct(init, app);
      SharersExactly(init, app);
      forall m | m in SharersOf(init, app)
        ensures m != last.id
      {
        var c :| c in init && c.id == m;
        var k :| 0 <= k < |init| && init[k] == c;
        assert cs[k].id == m;
      }
      var ids := [app.id] + SharersOf(init, app);
      if last.id != app.id && last.storage == app.storage {
        DistinctExtends(ids, last.id);
        assert [app.id] + SharersOf(cs, app) == ids + [last.id];
      } else {
        assert [app.id] + SharersOf(cs, app) == ids;
      }
    }
  }

  lemma {:induction false} CliTargetsExactly(cs: seq<Client>)
    ensures forall v :: v in CliTargets(cs) <==> CliView(cs, v)
  {
    if cs != [] {
      CliTargetsExactly(cs[..|cs| - 1]);
      assert cs == cs[..|cs| - 1] + [cs[|cs| - 1]];
    }
  }

  /** Every view listed is of the desktop, of a CLI or of all clients; there is one of the desktop
      exactly if the first App has an id, one of each CLI but win-cli, and one of all if there is
      any client. */
  lemma TargetsExactly(cs: seq<Client>)
    ensures forall v :: v in TargetList(cs) ==> DesktopView(cs, v) || CliView(cs, v) || AllView(cs, v)
    ensures forall v :: CliView(cs, v) || AllView(cs, v) ==> v in TargetList(cs)
    ensures UniqueIds(cs) ==> forall v :: v in TargetList(cs) ==> Distinct(v.members)
    ensures (exists v :: v in TargetList(cs) && DesktopView(cs, v)) <==>
      exists i :: 0 <= i < |cs| && cs[i].kind == App && cs[i].id != "" && forall k :: 0 <= k < i ==> cs[k].kind != App
  {
    CliTargetsExactly(cs);
    forall v | AllView(cs, v)
      ensures v in TargetList(cs)
    {
      assert v.members == Ids(cs);
    }
    FirstAppExactly(cs, 0);
    var app := FirstApp(cs, 0);
    if app.Some? && app.value.id != "" {
      var v := TargetView("desktop", [app.value.id] + SharersOf(cs, app.value));
      DesktopExactly(cs, app.value, v);
      assert v in TargetList(cs);
      if UniqueIds(cs) {
        SharersDistinct(cs, app.value);
      }
    }
  }

  lemma DesktopExactly(cs: seq<Client>, app: Client, v: TargetView)
    requires FirstApp(cs, 0) == Some(app) && app.id != ""
    requires v == TargetView("desktop", [app.id] + SharersOf(cs, app))
    ensures DesktopView(cs, v)
  {
    FirstAppExactly(cs, 0);
    SharersExactly(cs, app);
    var i :| 0 <= i < |cs| && cs[i] == app && cs[i].kind == App && forall k :: 0 <= k < i ==> cs[k].kind != App;
    forall m
      ensures m in v.members <==> exists c :: c in cs && c.id == m && c.storage == app.storage
    {
      if m == app.id {
        assert cs[i] in cs;
      }
    }
  }

  // ---- Members and files ---------------------------------------------------------------------

  function MemberStorages(cs: seq<Client>, members: seq<string>): set<Storage> {
    set c | c in cs && c.id in members :: c.storage
  }

  /** Every client that a target names shares its storage with a member its view shows. */
  ghost predicate NamesOnlyMembers(cs: seq<Client>, target: string) {
    var view := TargetById(TargetList(cs), target);
    view.Some? ==>
      forall d :: d in cs && NamedBy(d, TargetToCli(target)) ==> d.storage in MemberStorages(cs, view.value.members)
  }

  /** The files of a target lie on the storages of the members shown if and only if the target
      names only members. */
  lemma ScopeCoversExactly(cs: seq<Client>, target: string)
    requires UniqueIds(cs) && TargetById(TargetList(cs), target).Some? && Resolve(cs, TargetToCli(target)).Some?
    ensures StoragesOf(Resolve(cs, TargetToCli(target)).value)
            <= MemberStorages(cs, TargetById(TargetList(cs), target).value.members)
            <==> NamesOnlyMembers(cs, target)
  {
    ResolvedStorages(cs, TargetToCli(target));
    var members := TargetById(TargetList(cs), target).value.members;
    if NamedStorages(cs, TargetToCli(target)) <= MemberStorages(cs, members) {
      forall d | d in cs && NamedBy(d, TargetToCli(target))
        ensures d.storage in MemberStorages(cs, members)
      {
        assert d.storage in NamedStorages(cs, TargetToCli(target));
      }
    }
  }

  lemma {:induction false} SharingWithin(cs: seq<Client>, storages: set<Storage>)
    ensures forall c :: c in Sharing(cs, storages) ==> c in cs && c.storage in storages
  {
    if cs != [] {
      SharingWithin(cs[..|cs| - 1], storages);
    }
  }

  /** A target never reaches beyond the storages of the clients it names. */
  lemma FilesAreNamed(cs: seq<Client>, spec: string)
    requires Resolve(cs, spec).Some?
    ensures StoragesOf(Resolve(cs, spec).value) <= NamedStorages(cs, spec)
  {
    if spec != "" && spec != "all" {
      var parts := SplitCommas(spec);
      var picked := Picked(cs, parts, |parts|).value;
      PickedMembers(cs, parts, |parts|);
      PickedStorages(cs, spec, parts, picked);
      SharingWithin(cs, StoragesOf(picked));
    } else {
      assert forall c :: c in cs ==> c.storage in NamedStorages(cs, spec);
    }
  }

  // ---- Target by target -----------------------------------------------------------------------

  lemma {:induction false} NoCommaOnePart(s: string)
    requires ',' !in s
    ensures SplitCommas(s) == [s]
  {
    if s != "" {
      NoCommaOnePart(s[1..]);
      assert [s[0]] + s[1..] == s;
    }
  }

  lemma IdsDiffer(cs: seq<Client>, c: Client, d: Client)
    requires UniqueIds(cs) && c in cs && d in cs && c.id == d.id
    ensures c == d
  {
    var i :| 0 <= i < |cs| && cs[i] == c;
    var j :| 0 <= j < |cs| && cs[j] == d;
    assert i == j;
  }

  /** The desktop names only members if and only if all Apps share one storage. */
  lemma DesktopNamesExactly(cs: seq<Client>)
    requires UniqueIds(cs) && FirstApp(cs, 0).Some? && FirstApp(cs, 0).value.id != ""
    ensures NamesOnlyMembers(cs, "desktop") <==>
      forall d :: d in cs && d.kind == App ==> d.storage == FirstApp(cs, 0).value.storage
  {
    var app := FirstApp(cs, 0).value;
    FirstAppExactly(cs, 0);
    SharersExactly(cs, app);
    var members := [app.id] + SharersOf(cs, app);
    var ts := TargetList(cs);
    assert ts[0] == TargetView("desktop", members);
    assert TargetById(ts, "desktop") == Some(ts[0]);
    forall s
      ensures s in MemberStorages(cs, members) <==> s == app.storage
    {
      assert app in cs && app.id in members;
      if s in MemberStorages(cs, members) {
        var c :| c in cs && c.id in members && c.storage == s;
        var d :| d in cs && d.id == c.id && d.storage == app.storage;
        IdsDiffer(cs, c, d);
      }
    }
    forall d: Client
      ensures NamedBy(d, "app") <==> d.kind == App
    {
      AppIsNamed(d);
    }
  }

  lemma AppIsNamed(d: Client)
    ensures NamedBy(d, "app") <==> d.kind == App
  {
    NoCommaOnePart("app");
    assert Trim("app") == "app";
    assert "app" in SplitCommas("app");
  }

  /** A target with a plain name of its own, neither a kind nor a list. */
  predicate PlainName(t: string) {
    ',' !in t && Trim(t) == t && t !in ["", "all", "app", "cli", "desktop"]
  }

  /** A CLI target names only members if and only if nobody on another storage answers to its
      name by id, in another letter case, or by label. */
  lemma CliNamesExactly(cs: seq<Client>, c: Client)
    requires UniqueIds(cs) && c in cs && PlainName(c.id)
    requires TargetById(TargetList(cs), c.id) == Some(TargetView(c.id, [c.id]))
    ensures NamesOnlyMembers(cs, c.id) <==>
      forall d :: d in cs && (Lower(d.id) == Lower(c.id) || Lower(d.title) == Lower(c.id)) ==> d.storage == c.storage
  {
    NoCommaOnePart(c.id);
    assert c.id in SplitCommas(c.id);
    forall d | d in cs && d.id == c.id
      ensures d == c
    {
      IdsDiffer(cs, c, d);
    }
    forall s
      ensures s in MemberStorages(cs, [c.id]) <==> s == c.storage
    {}
    forall d: Client
      ensures NamedBy(d, c.id) <==> Lower(d.id) == Lower(c.id) || Lower(d.title) == Lower(c.id)
    {
      assert NamedBy(d, c.id) <==> Named(d, c.id);
    }
  }

  /** The view of all clients always shows everything it names. */
  lemma AllNamesMembers(cs: seq<Client>)
    requires TargetById(TargetList(cs), "all") == Some(TargetView("all", Ids(cs)))
    ensures NamesOnlyMembers(cs, "all")
  {
    forall c | c in cs
      ensures c.storage in MemberStorages(cs, Ids(cs))
    {
      var i :| 0 <= i < |cs| && cs[i] == c;
      assert Ids(cs)[i] == c.id;
    }
  }

  lemma PlanCoversFiles(d: Disk, accountRef: string, target: string, e: Inputs)
    requires FreshPlan(d, accountRef, target, e).Some?
    ensures var latest := FreshPlan(d, accountRef, target, e).value;
      && latest.target == target && e.resolve(accountRef) == Some(latest.account)
      && FilesOf(latest, e) <= NamedStorages(e.clients, TargetToCli(target))
      && (NamesOnlyMembers(e.clients, target) ==> FilesOf(latest, e) <= MemberStorages(e.clients, latest.members))
  {
    FilesAreNamed(e.clients, TargetToCli(target));
  }

  // ---- Over runs -------------------------------------------------------------------------------

  /** A preview of the shown plan's account and target, taken when the request came, clears execution x. */
  ghost predicate Allowed(d: Disk, shown: Plan, e: Inputs, x: Exec) {
    var latest := FreshPlan(d, shown.accountId, shown.target, e);
    && latest.Some? && Cleared(latest.value, x.restart)
    && x.account == latest.value.account && x.revision == latest.value.revision
  }

  /** Execution x is for the account and target of the shown plan, on files of clients that the
      target names, and the latest preview of it clears x. If it must match exactly it is also at
      the plan's revision and, unless the target names somebody besides members, on no file
      outside the members shown. */
  ghost predicate OnShownPlan(s: Sys, planId: Id, ev: Event, x: Exec, exactly: bool)
    requires Asks(ev)
  {
    && planId in s.plans
    && var shown, cs := s.plans[planId], ev.e.clients;
       && x.target == shown.target && ev.e.resolve(shown.accountId) == Some(x.account)
       && Allowed(s.disk, shown, ev.e, x)
       && x.files <= NamedStorages(cs, TargetToCli(shown.target))
       && (exactly ==> x.revision == shown.revision
                       && (NamesOnlyMembers(cs, shown.target) ==> x.files <= MemberStorages(cs, shown.members)))
  }

  /** ev is the request that caused execution x: a submission of an unchanged plan that had not
      expired, a retry, or a confirmation. Only a confirmation from the web session of an operation
      that awaits the restart allows one, and only for the plan then on record, unchanged. */
  ghost predicate Warranted(s: Sys, ev: Event, x: Exec) {
    && Asks(ev)
    && (ev.SubmitReq? ==> !ev.e.expired && x.op == ev.e.newOp && OnShownPlan(s, ev.plan, ev, x, true))
    && (!ev.SubmitReq? ==> x.op == ev.op && x.op in s.ops && Resumable(s.ops[x.op])
                           && OnShownPlan(s, s.ops[x.op].plan, ev, x, x.restart))
    && (x.restart ==> ev.ConfirmReq? && ev.actor == Ui && AwaitsRestart(s.ops[x.op]))
  }

  lemma MembersKept(before: Plan, latest: Plan, cs: seq<Client>)
    requires !ScopeGrew(before, latest)
    ensures MemberStorages(cs, latest.members) <= MemberStorages(cs, before.members)
  {
    forall m | m in latest.members
      ensures m in before.members
    {}
  }

  /** At most one execution was added, and it is warranted. */
  ghost predicate AddsWarranted(s: Sys, s': Sys, ev: Event) {
    || s'.execs == s.execs
    || (|s'.execs| == |s.execs| + 1 && s'.execs[..|s.execs|] == s.execs && Warranted(s, ev, s'.execs[|s.execs|]))
  }

  lemma ExecWarranted(s: Sys, s': Sys, ev: Event, a: Accepted)
    requires Took(s, s', ev, a) && a.draft.status == InProgress
    ensures Warranted(s, ev, ExecOf(a, ev.actor, ev.e))
  {
    PlanCoversFiles(s.disk, a.plan.accountId, a.plan.target, ev.e);
    TookSettles(s, s', ev, a);
    if !OutOfDate(a.plan, a.latest) {
      MembersKept(a.plan, a.latest, ev.e.clients);
    }
  }

  lemma TookWarranted(s: Sys, s': Sys, ev: Event, a: Accepted)
    requires Listed(s) && NewIds(s, ev) && Moved(s, s', ev, a)
    ensures AddsWarranted(s, s', ev)
  {
    if s.serving && Took(s, s', ev, a) {
      if a.draft.status == InProgress {
        ExecWarranted(s, s', ev, a);
        assert s'.execs == s.execs + [ExecOf(a, ev.actor, ev.e)];
      }
    }
  }

  lemma WarrantStep(s: Sys, evs: seq<Event>)
    requires evs != [] && Inv(s) && FreshRun(s, evs)
    ensures AddsWarranted(Run(s, evs[..|evs| - 1]), Run(s, evs), evs[|evs| - 1])
  {
    var init, last := evs[..|evs| - 1], evs[|evs| - 1];
    FreshPrefix(s, evs);
    InvRun(s, init);
    var t := Run(s, init);
    var a := StepShape(t, last);
    TookWarranted(t, Step(t, last), last, a);
  }

  /** At most one execution was added. */
  ghost predicate AddsOne(xs: seq<Exec>, ys: seq<Exec>) {
    ys == xs || (|ys| == |xs| + 1 && ys[..|xs|] == xs)
  }

  /** Each execution of the last of these lists was added at the end of one of them. */
  lemma {:induction false} AddedAt(lists: seq<seq<Exec>>, i: nat) returns (k: nat)
    requires |lists| > 0 && forall j :: 0 < j < |lists| ==> AddsOne(lists[j - 1], lists[j])
    requires |lists[0]| <= i < |lists[|lists| - 1]|
    ensures k + 1 < |lists| && |lists[k]| == i < |lists[k + 1]| && lists[k + 1][i] == lists[|lists| - 1][i]
  {
    var n := |lists| - 1;
    assert n > 0 && AddsOne(lists[n - 1], lists[n]);
    if i < |lists[n - 1]| {
      k := AddedAt(lists[..n], i);
      assert lists[n][i] == lists[n - 1][i];
    } else {
      k := n - 1;
    }
  }

  lemma {:induction false} FreshUpTo(s: Sys, evs: seq<Event>, j: nat)
    requires FreshRun(s, evs) && j <= |evs|
    ensures FreshRun(s, evs[..j])
  {
    forall k | 0 <= k < j
      ensures NewIds(Run(s, evs[..j][..k]), evs[..j][k])
    {
      assert evs[..j][..k] == evs[..k];
    }
  }

  lemma WarrantAt(s: Sys, evs: seq<Event>, j: nat)
    requires Inv(s) && FreshRun(s, evs) && j < |evs|
    ensures AddsWarranted(Run(s, evs[..j]), Run(s, evs[..j + 1]), evs[j])
  {
    FreshUpTo(s, evs, j + 1);
    assert evs[..j + 1][..j] == evs[..j];
    WarrantStep(s, evs[..j + 1]);
  }

  lemma CarriedAt(s: Sys, evs: seq<Event>, j: nat)
    requires Inv(s) && FreshRun(s, evs) && j < |evs| && Asks(evs[j])
    ensures var t, t' := Run(s, evs[..j]), Run(s, evs[..j + 1]);
      t'.execs == t.execs || (|t'.execs| > |t.execs| && Execution.Carried(t.disk, t', evs[j].e, t'.execs[|t.execs|]))
  {
    FreshUpTo(s, evs, j);
    InvRun(s, evs[..j]);
    assert evs[..j + 1][..j] == evs[..j];
    if Run(s, evs[..j]).serving {
      Execution.ExecutionsCarried(Run(s, evs[..j]), evs[j]);
    }
  }

  /** The execution lists of a run, one after each step. */
  function ExecLists(s: Sys, evs: seq<Event>): (r: seq<seq<Exec>>)
    ensures |r| == |evs| + 1 && r[0] == s.execs && r[|evs|] == Run(s, evs).execs
    ensures forall j :: 0 <= j < |r| ==> r[j] == Run(s, evs[..j]).execs
  {
    assert evs[..|evs|] == evs && evs[..0] == [];
    seq(|evs| + 1, j requires 0 <= j <= |evs| => Run(s, evs[..j]).execs)
  }

  lemma ListsGrow(s: Sys, evs: seq<Event>)
    requires Inv(s) && FreshRun(s, evs)
    ensures forall j :: 0 < j < |ExecLists(s, evs)| ==> AddsOne(ExecLists(s, evs)[j - 1], ExecLists(s, evs)[j])
  {
    var lists := ExecLists(s, evs);
    forall j | 0 < j < |lists|
      ensures AddsOne(lists[j - 1], lists[j])
    {
      WarrantAt(s, evs, j - 1);
    }
  }

  /** In every run, every execution was caused by a request that warrants it: the preview taken
      for it found the switch ready, or only the App in the way and its restart confirmed; a
      submission runs only the plan it names, unchanged and not expired; the App may restart only
      after a confirmation from the web session of that very operation, while it awaited the
      restart, for the plan then on record: same target, same revision, and, while the target
      names only members, no file outside the members shown. And it was carried out so: one
      switch to its account on its target, on its files, restarting the App only if it may. */
  lemma ExecutionsWarranted(s: Sys, evs: seq<Event>, i: nat) returns (k: nat)
    requires Inv(s) && FreshRun(s, evs)
    requires |s.execs| <= i < |Run(s, evs).execs|
    ensures k < |evs| && Warranted(Run(s, evs[..k]), evs[k], Run(s, evs).execs[i])
    ensures Execution.Carried(Run(s, evs[..k]).disk, Run(s, evs[..k + 1]), evs[k].e, Run(s, evs).execs[i])
  {
    ListsGrow(s, evs);
    k := AddedAt(ExecLists(s, evs), i);
    WarrantAt(s, evs, k);
    CarriedAt(s, evs, k);
  }

  /** The step runs nothing that may restart the App; if it enters the request, the latest plan
      is on record, and while a restart is still needed the operation waits for consent to it. */
  ghost predicate AsksAgain(s: Sys, s': Sys, op: Id, newPlan: Id, latest: Plan) {
    && (s'.execs == s.execs
        || (|s'.execs| == |s.execs| + 1 && s'.execs[..|s.execs|] == s.execs && !s'.execs[|s.execs|].restart))
    && (|| s'.ops == s.ops
        || (&& op in s'.ops && s'.ops[op].plan == newPlan
            && s'.plans == s.plans[newPlan := latest]
            && (latest.decision == Preview.WaitingUser && latest.code == Preview.AppRestartRequired ==>
                  AwaitsRestart(s'.ops[op]) && s'.execs == s.execs)))
  }

  lemma StaleDraft(base: OpRecord, latest: Plan, newPlan: Id, key: Key, sig: Signature, actor: Actor)
    ensures var r := Draft(base, latest, newPlan, key, sig, actor, false);
      && r.plan == newPlan
      && (latest.decision == Preview.WaitingUser && latest.code == Preview.AppRestartRequired ==> AwaitsRestart(r))
  {}

  lemma EnteredAsksAgain(s: Sys, s': Sys, op: Id, actor: Actor, e: Inputs, a: Accepted)
    requires Listed(s) && Entered(s, s', Some(op), actor, e, a) && !a.confirm
    requires a.draft == Draft(a.base, a.latest, e.newPlan, a.key, a.sig, actor, false)
    ensures AsksAgain(s, s', op, e.newPlan, a.latest)
  {
    StaleDraft(a.base, a.latest, e.newPlan, a.key, a.sig, actor);
    if a.draft.status == InProgress {
      assert Ran(Drafted(s, e, a), s', ExecOf(a, actor, e), e);
      assert s'.execs == s.execs + [ExecOf(a, actor, e)];
    }
  }

  /** A stale confirmation never restarts the App. */
  lemma StaleConfirmAsksAgain(s: Sys, ev: Event, shown: Plan, latest: Plan)
    requires Inv(s) && NewIds(s, ev) && ev.ConfirmReq? && ev.op in s.ops
    requires s.ops[ev.op].plan in s.plans && shown == s.plans[s.ops[ev.op].plan]
    requires FreshPlan(s.disk, shown.accountId, shown.target, ev.e) == Some(latest) && OutOfDate(shown, latest)
    ensures AsksAgain(s, Step(s, ev), ev.op, ev.e.newPlan, latest)
  {
    var a := StepShape(s, ev);
    if Took(s, Step(s, ev), ev, a) {
      EnteredAsksAgain(s, Step(s, ev), ev.op, ev.actor, ev.e, a);
    }
  }
}
