/** The operation service: previews, durable operation records, confirmation, retry,
    cancellation and start-up recovery. One request is one step under the mutation lock;
    the host can be killed at any save and anywhere inside the switch. */
module Operations {
  import opened Options
  import opened Accounts
  import opened Clients
  import opened Disk
  import opened Transaction
  import Switch
  import Preview

  type Id = string
  type Key = string

  datatype Actor = Ui | Agent
  datatype OpStatus = Queued | InProgress | Succeeded | WaitingUser | BlockedOp | FailedOp | Cancelled | LegacyPending
  datatype OpCode = NoCode | Gate(code: Preview.Code) | ClientInUse | ExecutorBlocked | Interrupted
  datatype OpRecovery = Unrecorded | NotNeeded | Restored | RecoveryFailed | Unknown

  /** What an idempotency key was used for. */
  datatype Signature = SubmitOf(plan: Id) | RetryOf(op: Id) | ConfirmOf(op: Id)

  datatype OpRecord = OpRecord(
    account: Name, accountId: string, target: string, status: OpStatus, code: OpCode, plan: Id,
    requests: map<Key, Signature>, attempt: nat, recovery: OpRecovery, actor: Actor)

  datatype Plan = Plan(
    account: Name, accountId: string, target: string, members: seq<string>, revision: int,
    decision: Preview.Decision, code: Preview.Code)

  /** One call of the executor, as recorded when it is made. `before` is the durable record
      of the operation at that moment. */
  datatype Exec = Exec(op: Id, key: Key, restart: bool, account: Name, target: string, revision: int,
                       before: OpRecord, files: set<Storage>)

  /** `listing` is the operations directory, newest first; `execs` is a history of executor calls. */
  datatype Sys = Sys(
    ops: map<Id, OpRecord>, listing: seq<Id>, plans: map<Id, Plan>, disk: Disk, serving: bool, execs: seq<Exec>)

  /** Everything a request meets that the service does not decide. */
  datatype Inputs = Inputs(
    newRequest: string, newOp: Id, newPlan: Id, legacyOp: Id,
    expired: bool,
    resolve: string -> Option<Name>,
    accountId: Name -> string,
    clients: seq<Client>,
    inspect: Client -> ClientState,
    live: Client -> Option<Auth>,
    lives: seq<Auth>,
    savePlan: Fate, saveFirst: Fate, saveLegacy: Fate, saveResult: Fate,
    io: Schedule,
    env: Switch.Env)

  datatype Reply = Refused | Stale | RecoveryBlocked | NotSaved(op: Id) | Shows(op: Id, record: OpRecord) | Silence

  // ---- Targets ----------------------------------------------------------------------------

  datatype TargetView = TargetView(id: string, members: seq<string>)

  function FirstApp(cs: seq<Client>, i: nat): Option<Client>
    requires i <= |cs|
    decreases |cs| - i
  {
    if i == |cs| then None else if cs[i].kind == App then Some(cs[i]) else FirstApp(cs, i + 1)
  }

  function SharersOf(cs: seq<Client>, app: Client): seq<string> {
    if cs == [] then []
    else
      var c := cs[|cs| - 1];
      SharersOf(cs[..|cs| - 1], app) + if c.id != app.id && c.storage == app.storage then [c.id] else []
  }

  function CliTargets(cs: seq<Client>): seq<TargetView> {
    if cs == [] then []
    else
      var c := cs[|cs| - 1];
      CliTargets(cs[..|cs| - 1]) + if c.kind == Cli && c.id != "win-cli" then [TargetView(c.id, [c.id])] else []
  }

  function Ids(cs: seq<Client>): (r: seq<string>)
    ensures |r| == |cs| && forall i :: 0 <= i < |cs| ==> r[i] == cs[i].id
  {
    seq(|cs|, i requires 0 <= i < |cs| => cs[i].id)
  }

  function TargetList(cs: seq<Client>): seq<TargetView> {
    var app := FirstApp(cs, 0);
    (if app.Some? && app.value.id != "" then [TargetView("desktop", [app.value.id] + SharersOf(cs, app.value))] else [])
    + CliTargets(cs)
    + (if cs != [] then [TargetView("all", Ids(cs))] else [])
  }

  function TargetById(ts: seq<TargetView>, id: string): Option<TargetView> {
    if ts == [] then None else if ts[0].id == id then Some(ts[0]) else TargetById(ts[1..], id)
  }

  method DesktopTarget(cs: seq<Client>, app: Client) returns (members: seq<string>)
    ensures members == [app.id] + SharersOf(cs, app)
  {
    var sharers: seq<string> := [];
    var i := 0;
    while i < |cs|
      invariant 0 <= i <= |cs|
      invariant sharers == SharersOf(cs[..i], app)
    {
      assert cs[..i + 1][..i] == cs[..i];
      if cs[i].id != app.id && cs[i].storage == app.storage {
        sharers := sharers + [cs[i].id];
      }
      i := i + 1;
    }
    assert cs[..|cs|] == cs;
    members := [app.id] + sharers;
  }

  method CommandLineTargets(cs: seq<Client>) returns (out: seq<TargetView>)
    ensures out == CliTargets(cs)
  {
    out := [];
    var i := 0;
    while i < |cs|
      invariant 0 <= i <= |cs|
      invariant out == CliTargets(cs[..i])
    {
      assert cs[..i + 1][..i] == cs[..i];
      if cs[i].kind == Cli && cs[i].id != "win-cli" {
        out := out + [TargetView(cs[i].id, [cs[i].id])];
      }
      i := i + 1;
    }
    assert cs[..|cs|] == cs;
  }

  method Targets(cs: seq<Client>) returns (out: seq<TargetView>)
    ensures out == TargetList(cs)
  {
    out := [];
    var i := 0;
    var app: Option<Client> := None;
    while i < |cs| && app.None?
      invariant 0 <= i <= |cs|
      invariant app.None? ==> FirstApp(cs, 0) == FirstApp(cs, i)
      invariant app.Some? ==> FirstApp(cs, 0) == app
    {
      if cs[i].kind == App {
        app := Some(cs[i]);
      }
      i := i + 1;
    }
    if app.Some? && app.value.id != "" {
      var members := DesktopTarget(cs, app.value);
      out := [TargetView("desktop", members)];
    }
    var rest := CommandLineTargets(cs);
    out := out + rest;
    if |cs| > 0 {
      out := out + [TargetView("all", Ids(cs))];
    }
  }

  function TargetToCli(id: string): string {
    if id == "desktop" then "app" else id
  }

  // ---- Plans -------------------------------------------------------------------------------

  function Revision(lib: Library, n: Name): int {
    if n in lib.slots && lib.slots[n].revision.Some? then lib.slots[n].revision.value else 0
  }

  /** The plan a preview computes; None for each of its errors. */
  function FreshPlan(d: Disk, accountRef: string, target: string, e: Inputs): Option<Plan> {
    if Trim(target) == "" || e.resolve(accountRef).None? then None
    else
      var name := e.resolve(accountRef).value;
      var view := TargetById(TargetList(e.clients), target);
      var affected := Resolve(e.clients, TargetToCli(target));
      if Get(d.lib, name).None? || view.None? || affected.None? then None
      else
        var (decision, code) :=
          Preview.Decide(d.lib, Get(d.lib, name).value.id, affected.value, e.inspect, e.live, e.lives);
        Some(Plan(name, e.accountId(name), target, view.value.members, Revision(d.lib, name), decision, code))
  }

  function PreviewEffect(s: Sys, accountRef: string, target: string, e: Inputs): (Sys, Option<Plan>) {
    var plan := FreshPlan(s.disk, accountRef, target, e);
    if plan.None? then (s, None)
    else if e.savePlan == Works then (s.(plans := s.plans[e.newPlan := plan.value]), plan)
    else (s.(serving := s.serving && e.savePlan != Dies), None)
  }

  predicate ScopeGrew(before: Plan, latest: Plan) {
    latest.target != before.target || exists m :: m in latest.members && m !in before.members
  }

  predicate OutOfDate(before: Plan, latest: Plan) {
    ScopeGrew(before, latest) || latest.revision != before.revision
  }

  // ---- Records -----------------------------------------------------------------------------

  function SaveOp(s: Sys, id: Id, r: OpRecord, f: Fate): (Sys, bool) {
    if f == Works then
      (s.(ops := s.ops[id := r], listing := if id in s.ops then s.listing else [id] + s.listing), true)
    else (s.(serving := s.serving && f != Dies), false)
  }

  function KeyFrom(s: Sys, key: Key, i: nat): Option<Id>
    requires i <= |s.listing|
    decreases |s.listing| - i
  {
    if i == |s.listing| then None
    else if s.listing[i] in s.ops && key in s.ops[s.listing[i]].requests then Some(s.listing[i])
    else KeyFrom(s, key, i + 1)
  }

  function LookupKey(s: Sys, key: Key): Option<Id> {
    KeyFrom(s, key, 0)
  }

  function Or(a: string, b: string): string {
    if a != "" then a else b
  }

  function NewRecord(latest: Plan): OpRecord {
    OpRecord(latest.account, latest.accountId, latest.target, Queued, NoCode, "", map[], 0, NotNeeded, Agent)
  }

  /** The record saved before anything is written: the request is entered and the latest plan
      decides whether the switch may run. `confirm` is false once the plan went stale. */
  function Draft(base: OpRecord, latest: Plan, newPlan: Id, key: Key, sig: Signature, actor: Actor,
                 confirm: bool): OpRecord {
    var r := base.(requests := base.requests[key := sig], attempt := base.attempt + 1, plan := newPlan,
                   actor := actor, code := NoCode);
    if latest.decision == Preview.Stopped then r.(status := BlockedOp, code := Gate(latest.code))
    else if latest.decision == Preview.Noop then r.(status := Succeeded)
    else if latest.code == Preview.CliInUse then r.(status := WaitingUser, code := Gate(Preview.CliInUse))
    else if latest.code == Preview.AppRestartRequired && (!confirm || actor != Ui) then
      r.(status := WaitingUser, code := Gate(Preview.AppRestartRequired))
    else r.(status := InProgress)
  }

  /** The record after the executor returned. */
  function Concluded(r: OpRecord, res: Switch.Result): OpRecord {
    var r1 := match res.status
      case Completed => r.(status := Succeeded)
      case Pending => r.(status := WaitingUser, code := ClientInUse)
      case Blocked => r.(status := BlockedOp, code := ExecutorBlocked)
      case Failed => r.(status := FailedOp);
    r1.(recovery := match res.recovery
      case Unstated => if res.status == Switch.Failed then Unknown else NotNeeded
      case NotNeeded => NotNeeded
      case WasRestored => Restored
      case RecoveryFailed => RecoveryFailed)
  }

  function LegacyRecord(account: Name, target: string): OpRecord {
    OpRecord(account, "", target, LegacyPending, NoCode, "", map[], 0, Unrecorded, Agent)
  }

  // ---- Running the switch --------------------------------------------------------------------

  function CallOf(latest: Plan, restart: bool): Switch.Call {
    Switch.Call(latest.account, TargetToCli(latest.target), restart, false, false)
  }

  function FilesOf(latest: Plan, e: Inputs): set<Storage> {
    var affected := Resolve(e.clients, TargetToCli(latest.target));
    if affected.None? then {} else StoragesOf(affected.value)
  }

  /** Whatever carries a switch out on a disk: the plan, and whether the App may restart. */
  type Executor = (Disk, Plan, bool) -> (World, Switch.Result)

  /** The executor of this host: one UseAccount call under the request's I/O fates. */
  function RealSwitch(e: Inputs): Executor {
    (d: Disk, latest: Plan, restart: bool) =>
      Switch.UseEffect(e.io, Start(d), e.clients, CallOf(latest, restart), e.env)
  }

  /** After the executor returned: a pending switch leaves a record of its own, and the outcome is saved. */
  function FinishEffect(s: Sys, id: Id, r: OpRecord, latest: Plan, res: Switch.Result, e: Inputs): (Sys, Reply) {
    var s1 := if res.status == Switch.Pending && e.saveLegacy == Works
              then SaveOp(s, e.legacyOp, LegacyRecord(latest.account, TargetToCli(latest.target)), Works).0 else s;
    var done := Concluded(r, res);
    var (s2, saved) := SaveOp(s1, id, done, e.saveResult);
    (s2, if saved then Shows(id, done) else if s2.serving then NotSaved(id) else Silence)
  }

  function RunEffect(s: Sys, id: Id, r: OpRecord, latest: Plan, key: Key, restart: bool, e: Inputs,
                     run: Executor): (Sys, Reply)
    requires id in s.ops
  {
    var exec := Exec(id, key, restart, latest.account, latest.target, latest.revision, s.ops[id], FilesOf(latest, e));
    var (w, res) := run(s.disk, latest, restart);
    var s1 := s.(disk := w.disk, execs := s.execs + [exec], serving := s.serving && w.up);
    if !w.up then (s1, Silence) else FinishEffect(s1, id, r, latest, res, e)
  }

  /** Saves the record of an accepted request and, if it may run, runs the switch. */
  function ProceedEffect(s: Sys, id: Id, r: OpRecord, latest: Plan, key: Key, restart: bool, e: Inputs,
                         run: Executor): (Sys, Reply) {
    var (s1, saved) := SaveOp(s, id, r, e.saveFirst);
    if !saved then (s1, if s1.serving then Refused else Silence)
    else if r.status != InProgress then (s1, Shows(id, r))
    else RunEffect(s1, id, r, latest, key, restart, e, run)
  }

  function AdmitEffect(s: Sys, existing: Option<Id>, latest: Plan, key: Key, sig: Signature, actor: Actor,
                       confirm: bool, e: Inputs, run: Executor): (Sys, Reply)
    requires existing.Some? ==> existing.value in s.ops
  {
    var base := if existing.Some? then s.ops[existing.value] else NewRecord(latest);
    var id := if existing.Some? then existing.value else e.newOp;
    ProceedEffect(s, id, Draft(base, latest, e.newPlan, key, sig, actor, confirm), latest, key,
                  confirm && actor == Ui, e, run)
  }

  /** Compares the plan a request was made for with the latest one. */
  function PlannedEffect(s: Sys, plan: Plan, latest: Option<Plan>, key: Key, sig: Signature, actor: Actor,
                         confirm: bool, existing: Option<Id>, e: Inputs, run: Executor): (Sys, Reply)
    requires existing.Some? ==> existing.value in s.ops
  {
    if latest.None? then (s, if s.serving then Refused else Silence)
    else
      var stale := OutOfDate(plan, latest.value);
      if stale && existing.None? then (s, Stale)
      else AdmitEffect(s, existing, latest.value, key, sig, actor, confirm && !stale, e, run)
  }

  /** A request whose key is not recorded yet. */
  function NewRequestEffect(s: Sys, planId: Id, key: Key, sig: Signature, actor: Actor, confirm: bool,
                            existing: Option<Id>, e: Inputs, run: Executor): (Sys, Reply)
    requires existing.Some? ==> existing.value in s.ops
  {
    if !ValidSlotName(planId) || planId !in s.plans then (s, Refused)
    else if existing.None? && e.expired then (s, Stale)
    else
      var plan := s.plans[planId];
      var (s1, latest) := PreviewEffect(s, plan.accountId, plan.target, e);
      PlannedEffect(s1, plan, latest, key, sig, actor, confirm, existing, e, run)
  }

  function SignatureOf(planId: Id, confirm: bool, existing: Option<Id>): Signature {
    if existing.None? then SubmitOf(planId)
    else if confirm then ConfirmOf(existing.value) else RetryOf(existing.value)
  }

  /** The common part of submit, retry and confirm. */
  function SubmitEffect(s: Sys, planId: Id, requestId: string, idem: Key, actor: Actor, confirm: bool,
                        existing: Option<Id>, e: Inputs, run: Executor): (Sys, Reply)
    requires existing.Some? ==> existing.value in s.ops
  {
    var key := Or(idem, Or(requestId, e.newRequest));
    var sig := SignatureOf(planId, confirm, existing);
    var prev := LookupKey(s, key);
    if prev.Some? then
      KeyFromSound(s, key, 0);
      (s, if s.ops[prev.value].requests[key] != sig then Refused else Shows(prev.value, s.ops[prev.value]))
    else NewRequestEffect(s, planId, key, sig, actor, confirm, existing, e, run)
  }

  lemma {:induction false} KeyFromSound(s: Sys, key: Key, i: nat)
    requires i <= |s.listing|
    ensures KeyFrom(s, key, i).Some? ==>
      KeyFrom(s, key, i).value in s.ops && key in s.ops[KeyFrom(s, key, i).value].requests
    ensures KeyFrom(s, key, i).None? ==>
      forall id :: id in s.listing[i..] && id in s.ops ==> key !in s.ops[id].requests
    decreases |s.listing| - i
  {
    if i < |s.listing| {
      assert s.listing[i..] == [s.listing[i]] + s.listing[i + 1..];
      KeyFromSound(s, key, i + 1);
    }
  }

  predicate Known(s: Sys, id: Id) {
    ValidSlotName(id) && id in s.ops
  }

  /** Why a known operation is not taken up again, if it is not. */
  function ResumeStop(op: OpRecord, id: Id, confirm: bool): Option<Reply> {
    if op.status == Succeeded || op.status == Cancelled || op.status == InProgress then Some(Shows(id, op))
    else if op.recovery == RecoveryFailed || op.recovery == Unknown then Some(RecoveryBlocked)
    else if confirm && (op.status != WaitingUser || op.code != Gate(Preview.AppRestartRequired)) then Some(Refused)
    else None
  }

  function ResumeEffect(s: Sys, id: Id, requestId: string, idem: Key, actor: Actor, confirm: bool, e: Inputs,
                        run: Executor): (Sys, Reply) {
    if !Known(s, id) then (s, Refused)
    else
      var stop := ResumeStop(s.ops[id], id, confirm);
      if stop.Some? then (s, stop.value)
      else SubmitEffect(s, s.ops[id].plan, requestId, idem, actor, confirm, Some(id), e, run)
  }

  function ConfirmEffect(s: Sys, id: Id, requestId: string, actor: Actor, e: Inputs, run: Executor): (Sys, Reply) {
    if actor != Ui then (s, Refused) else ResumeEffect(s, id, requestId, "", actor, true, e, run)
  }

  function CancelEffect(s: Sys, id: Id, save: Fate): (Sys, Reply) {
    if !Known(s, id) || s.ops[id].status == InProgress then (s, Refused)
    else if s.ops[id].status == Succeeded then (s, Shows(id, s.ops[id]))
    else
      var r := s.ops[id].(status := Cancelled);
      var (s1, saved) := SaveOp(s, id, r, save);
      (s1, if saved then Shows(id, r) else if s1.serving then Refused else Silence)
  }

  // ---- Start-up -------------------------------------------------------------------------------

  predicate Unfinished(r: OpRecord) {
    r.status == InProgress || r.status == Queued
  }

  function InterruptedRecord(r: OpRecord, found: bool, recovered: bool): OpRecord {
    r.(status := FailedOp, code := Interrupted,
       recovery := if !recovered then RecoveryFailed else if found then Restored else Unknown)
  }

  /** Marks the unfinished operations of the listing from index i on; a failed save ends the start-up. */
  function MarkFrom(s: Sys, i: nat, found: bool, recovered: bool, saves: Id -> Fate): (Sys, bool)
    requires i <= |s.listing|
    decreases |s.listing| - i
  {
    if i == |s.listing| then (s, true)
    else
      var id := s.listing[i];
      if id !in s.ops || !Unfinished(s.ops[id]) then MarkFrom(s, i + 1, found, recovered, saves)
      else if saves(id) != Works then (s, false)
      else
        var r := InterruptedRecord(s.ops[id], found, recovered);
        MarkFrom(s.(ops := s.ops[id := r]), i + 1, found, recovered, saves)
  }

  /** Recover, run by the sole host before it serves; the host serves only if it succeeds. */
  function HostStart(s: Sys, io: Schedule, probe: Client -> Answer, saves: Id -> Fate): Sys {
    var found := s.disk.journal != NoJournal;
    var (w, recovered) := RecoverEffect(io, Start(s.disk), probe);
    var s1 := s.(disk := w.disk, serving := false);
    if !w.up then s1
    else
      var (s2, done) := MarkFrom(s1, 0, found, recovered, saves);
      s2.(serving := done)
  }

  // ---- The service ------------------------------------------------------------------------------

  class Service {
    var ops: map<Id, OpRecord>
    var listing: seq<Id>
    var plans: map<Id, Plan>
    var disk: Disk
    var serving: bool
    ghost var execs: seq<Exec>

    ghost function Now(): Sys
      reads this
    {
      Sys(ops, listing, plans, disk, serving, execs)
    }

    constructor (d: Disk)
      ensures Now() == Sys(map[], [], map[], d, false, [])
    {
      ops, listing, plans, disk, serving, execs := map[], [], map[], d, false, [];
    }

    /** A failed save leaves every record as it was; one that works changes this record only, and
        the listing goes on to show exactly the records, older ones in their old order. */
    method Save(id: Id, r: OpRecord, f: Fate) returns (ok: bool)
      modifies this`ops, this`listing, this`serving
      ensures (Now(), ok) == SaveOp(old(Now()), id, r, f)
      ensures !ok ==> ops == old(ops) && listing == old(listing)
      ensures f == Dies ==> !serving
      ensures ok ==> id in ops && ops[id] == r
      ensures forall k :: k != id ==> (k in ops <==> k in old(ops)) && (k in ops ==> ops[k] == old(ops)[k])
      ensures listing == old(listing) || listing == [id] + old(listing)
      ensures (forall k :: k in old(listing) <==> k in old(ops)) ==> forall k :: k in listing <==> k in ops
    {
      if f != Works {
        serving := serving && f != Dies;
        return false;
      }
      if id !in ops {
        listing := [id] + listing;
      }
      ops := ops[id := r];
      ok := true;
    }

    method LookupIdem(key: Key) returns (r: Option<Id>)
      ensures r == LookupKey(Now(), key)
    {
      var i := 0;
      while i < |listing|
        invariant 0 <= i <= |listing|
        invariant LookupKey(Now(), key) == KeyFrom(Now(), key, i)
      {
        if listing[i] in ops && key in ops[listing[i]].requests {
          return Some(listing[i]);
        }
        i := i + 1;
      }
      r := None;
    }

    method MakePreview(accountRef: string, target: string, e: Inputs) returns (plan: Option<Plan>)
      modifies this`plans, this`serving
      ensures (Now(), plan) == PreviewEffect(old(Now()), accountRef, target, e)
    {
      if Trim(target) == "" || e.resolve(accountRef).None? {
        return None;
      }
      var name := e.resolve(accountRef).value;
      var acct := Get(disk.lib, name);
      if acct.None? {
        return None;
      }
      var views := Targets(e.clients);
      var view := TargetById(views, target);
      var affected := ResolveTargets(e.clients, TargetToCli(target));
      if view.None? || affected.None? {
        return None;
      }
      var decision, code, _ :=
        Preview.PreviewDecision(disk.lib, acct.value.id, affected.value, e.inspect, e.live, e.lives);
      var p := Plan(name, e.accountId(name), target, view.value.members, Revision(disk.lib, name), decision, code);
      if e.savePlan != Works {
        serving := serving && e.savePlan != Dies;
        return None;
      }
      plans := plans[e.newPlan := p];
      plan := Some(p);
    }

    /** Calls the executor. The record on disk at that moment is what the history keeps. */
    method RunSwitch(id: Id, r: OpRecord, latest: Plan, ghost key: Key, restart: bool, e: Inputs) returns (reply: Reply)
      requires id in ops
      modifies this
      ensures (Now(), reply) == RunEffect(old(Now()), id, r, latest, key, restart, e, RealSwitch(e))
    {
      execs := execs + [Exec(id, key, restart, latest.account, latest.target, latest.revision, ops[id],
                             FilesOf(latest, e))];
      var m := new Machine(e.io, disk);
      var res := Switch.UseAccount(m, e.clients, CallOf(latest, restart), e.env);
      disk, serving := m.disk, serving && m.up;
      if !m.up {
        return Silence;
      }
      if res.status == Switch.Pending && e.saveLegacy == Works {
        var _ := Save(e.legacyOp, LegacyRecord(latest.account, TargetToCli(latest.target)), Works);
      }
      var done := Concluded(r, res);
      var saved := Save(id, done, e.saveResult);
      reply := if saved then Shows(id, done) else if serving then NotSaved(id) else Silence;
    }

    method Admit(existing: Option<Id>, latest: Plan, key: Key, sig: Signature, actor: Actor, confirm: bool, e: Inputs)
      returns (reply: Reply)
      requires existing.Some? ==> existing.value in ops
      modifies this
      ensures (Now(), reply) == AdmitEffect(old(Now()), existing, latest, key, sig, actor, confirm, e, RealSwitch(e))
    {
      var id, base := e.newOp, NewRecord(latest);
      if existing.Some? {
        id, base := existing.value, ops[existing.value];
      }
      var r := Draft(base, latest, e.newPlan, key, sig, actor, confirm);
      var saved := Save(id, r, e.saveFirst);
      if !saved {
        return if serving then Refused else Silence;
      }
      if r.status != InProgress {
        return Shows(id, r);
      }
      reply := RunSwitch(id, r, latest, key, confirm && actor == Ui, e);
    }

    method SubmitRequest(planId: Id, requestId: string, idem: Key, actor: Actor, confirm0: bool,
                         existing: Option<Id>, e: Inputs) returns (reply: Reply)
      requires existing.Some? ==> existing.value in ops
      modifies this
      ensures (Now(), reply) ==
        SubmitEffect(old(Now()), planId, requestId, idem, actor, confirm0, existing, e, RealSwitch(e))
    {
      var confirm := confirm0;
      var key := Or(idem, Or(requestId, e.newRequest));
      var sig := SubmitOf(planId);
      if existing.Some? {
        sig := RetryOf(existing.value);
        if confirm {
          sig := ConfirmOf(existing.value);
        }
      }
      var prev := LookupIdem(key);
      if prev.Some? {
        KeyFromSound(Now(), key, 0);
        if ops[prev.value].requests[key] != sig {
          return Refused;
        }
        return Shows(prev.value, ops[prev.value]);
      }
      if !ValidSlotName(planId) || planId !in plans {
        return Refused;
      }
      var plan := plans[planId];
      if existing.None? && e.expired {
        return Stale;
      }
      var latest := MakePreview(plan.accountId, plan.target, e);
      if latest.None? {
        return if serving then Refused else Silence;
      }
      var stale := OutOfDate(plan, latest.value);
      if stale && existing.None? {
        return Stale;
      }
      if stale && confirm {
        confirm := false;
      }
      reply := Admit(existing, latest.value, key, sig, actor, confirm, e);
    }

    method Submit(planId: Id, requestId: string, idem: Key, actor: Actor, e: Inputs) returns (reply: Reply)
      modifies this
      ensures (Now(), reply) == SubmitEffect(old(Now()), planId, requestId, idem, actor, false, None, e, RealSwitch(e))
    {
      reply := SubmitRequest(planId, requestId, idem, actor, false, None, e);
    }

    method Resume(id: Id, requestId: string, idem: Key, actor: Actor, confirm: bool, e: Inputs) returns (reply: Reply)
      modifies this
      ensures (Now(), reply) == ResumeEffect(old(Now()), id, requestId, idem, actor, confirm, e, RealSwitch(e))
    {
      if !ValidSlotName(id) || id !in ops {
        return Refused;
      }
      var op := ops[id];
      if op.status == Succeeded || op.status == Cancelled || op.status == InProgress {
        return Shows(id, op);
      }
      if op.recovery == RecoveryFailed || op.recovery == Unknown {
        return RecoveryBlocked;
      }
      if confirm && (op.status != WaitingUser || op.code != Gate(Preview.AppRestartRequired)) {
        return Refused;
      }
      reply := SubmitRequest(op.plan, requestId, idem, actor, confirm, Some(id), e);
    }

    method Confirm(id: Id, requestId: string, actor: Actor, e: Inputs) returns (reply: Reply)
      modifies this
      ensures (Now(), reply) == ConfirmEffect(old(Now()), id, requestId, actor, e, RealSwitch(e))
    {
      if actor != Ui {
        return Refused;
      }
      reply := Resume(id, requestId, "", actor, true, e);
    }

    method Retry(id: Id, requestId: string, idem: Key, actor: Actor, e: Inputs) returns (reply: Reply)
      modifies this
      ensures (Now(), reply) == ResumeEffect(old(Now()), id, requestId, idem, actor, false, e, RealSwitch(e))
    {
      reply := Resume(id, requestId, idem, actor, false, e);
    }

    method Cancel(id: Id, save: Fate) returns (reply: Reply)
      modifies this
      ensures (Now(), reply) == CancelEffect(old(Now()), id, save)
    {
      if !ValidSlotName(id) || id !in ops || ops[id].status == InProgress {
        return Refused;
      }
      var op := ops[id];
      if op.status != Succeeded {
        op := op.(status := Cancelled);
        var saved := Save(id, op, save);
        if !saved {
          return if serving then Refused else Silence;
        }
      }
      reply := Shows(id, op);
    }

    /** Marks what a crash left unfinished. */
    method MarkUnfinished(found: bool, recovered: bool, saves: Id -> Fate) returns (ok: bool)
      modifies this`ops
      ensures (Now(), ok) == MarkFrom(old(Now()), 0, found, recovered, saves)
    {
      ghost var s0 := Now();
      var i := 0;
      while i < |listing|
        invariant 0 <= i <= |listing|
        invariant MarkFrom(s0, 0, found, recovered, saves) == MarkFrom(Now(), i, found, recovered, saves)
      {
        var id := listing[i];
        if id in ops && Unfinished(ops[id]) {
          if saves(id) != Works {
            return false;
          }
          ops := ops[id := InterruptedRecord(ops[id], found, recovered)];
        }
        i := i + 1;
      }
      ok := true;
    }

    method Recover(io: Schedule, probe: Client -> Answer, saves: Id -> Fate)
      modifies this
      ensures Now() == HostStart(old(Now()), io, probe, saves)
    {
      var found := disk.journal != NoJournal;
      var m := new Machine(io, disk);
      var recovered := RecoverTransaction(m, probe);
      disk, serving := m.disk, false;
      if !m.up {
        return;
      }
      serving := MarkUnfinished(found, recovered, saves);
    }
  }
}
