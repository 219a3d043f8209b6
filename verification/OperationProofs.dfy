/** Safety of the operation service over whole runs: requests, crashes and restarts in any
    order, with any save failing and the host killed anywhere. */
module OperationProofs {
  import opened Options
  import opened Accounts
  import opened Clients
  import opened Disk
  import opened Transaction
  import opened Operations
  import Switch
  import Guarantees
  import Preview

  // ---- Runs ------------------------------------------------------------------------------

  /** Elsewhere is anything outside the service: clients, logins, imports, the command line. */
  datatype Event =
    | PreviewReq(account: string, target: string, e: Inputs)
    | SubmitReq(plan: Id, requestId: string, idem: Key, actor: Actor, e: Inputs)
    | ConfirmReq(op: Id, requestId: string, actor: Actor, e: Inputs)
    | RetryReq(op: Id, requestId: string, idem: Key, actor: Actor, e: Inputs)
    | CancelReq(op: Id, save: Fate)
    | StartHost(io: Schedule, probe: Client -> Answer, saves: Id -> Fate)
    | KillHost
    | Elsewhere(disk: Disk)

  predicate Request(ev: Event) {
    ev.PreviewReq? || ev.SubmitReq? || ev.ConfirmReq? || ev.RetryReq? || ev.CancelReq?
  }

  function Serve(s: Sys, ev: Event): Sys
    requires Request(ev)
  {
    match ev
    case PreviewReq(account, target, e) => PreviewEffect(s, account, target, e).0
    case SubmitReq(plan, req, idem, actor, e) =>
      SubmitEffect(s, plan, req, idem, actor, false, None, e, RealSwitch(e)).0
    case ConfirmReq(op, req, actor, e) => ConfirmEffect(s, op, req, actor, e, RealSwitch(e)).0
    case RetryReq(op, req, idem, actor, e) => ResumeEffect(s, op, req, idem, actor, false, e, RealSwitch(e)).0
    case CancelReq(op, save) => CancelEffect(s, op, save).0
  }

  function Step(s: Sys, ev: Event): Sys {
    match ev
    case StartHost(io, probe, saves) => if s.serving then s else HostStart(s, io, probe, saves)
    case KillHost => s.(serving := false)
    case Elsewhere(d) => s.(disk := d)
    case _ => if s.serving then Serve(s, ev) else s
  }

  /** newID draws identifiers that are not in use. */
  predicate NewIds(s: Sys, ev: Event) {
    (ev.PreviewReq? || ev.SubmitReq? || ev.ConfirmReq? || ev.RetryReq?) ==>
      && ev.e.newOp !in s.ops && ev.e.legacyOp !in s.ops && ev.e.newOp != ev.e.legacyOp && ev.e.newPlan !in s.plans
  }

  function Run(s: Sys, evs: seq<Event>): Sys {
    if evs == [] then s else Step(Run(s, evs[..|evs| - 1]), evs[|evs| - 1])
  }

  ghost predicate FreshRun(s: Sys, evs: seq<Event>) {
    forall i :: 0 <= i < |evs| ==> NewIds(Run(s, evs[..i]), evs[i])
  }

  lemma FreshPrefix(s: Sys, evs: seq<Event>)
    requires evs != [] && FreshRun(s, evs)
    ensures FreshRun(s, evs[..|evs| - 1]) && NewIds(Run(s, evs[..|evs| - 1]), evs[|evs| - 1])
  {
    var init := evs[..|evs| - 1];
    forall i | 0 <= i < |init|
      ensures NewIds(Run(s, init[..i]), init[i])
    {
      assert init[..i] == evs[..i];
    }
  }

  // ---- The shape of one request --------------------------------------------------------------

  ghost predicate Listed(s: Sys) {
    forall id :: id in s.listing <==> id in s.ops
  }

  /** The key is recorded in no operation. */
  ghost predicate Unused(s: Sys, key: Key) {
    forall id :: id in s.ops ==> key !in s.ops[id].requests
  }

  /** Nothing but plans and the host's life changed. */
  ghost predicate Idle(s: Sys, s': Sys) {
    s'.ops == s.ops && s'.listing == s.listing && s'.execs == s.execs && s'.disk == s.disk
    && forall p :: p in s.plans ==> p in s'.plans
  }

  /** An executor that leaves the disk alone while a journal remains. */
  ghost predicate Respects(run: Executor) {
    forall d: Disk, latest: Plan, restart: bool :: d.journal != NoJournal ==> run(d, latest, restart).0.disk == d
  }

  lemma RealSwitchRespects(e: Inputs)
    ensures Respects(RealSwitch(e))
  {
    forall d: Disk, latest: Plan, restart: bool | d.journal != NoJournal
      ensures RealSwitch(e)(d, latest, restart).0.disk == d
    {
      PendingJournalStops(e.io, d, e.clients, CallOf(latest, restart), e.env);
    }
  }

  /** While a journal remains, a switch changes nothing on the disk. */
  lemma PendingJournalStops(io: Schedule, d: Disk, clients: seq<Client>, call: Switch.Call, env: Switch.Env)
    requires d.journal != NoJournal
    ensures Switch.UseEffect(io, Start(d), clients, call, env).0.disk == d
  {
    if Guarantees.Executes(io, d, clients, call, env) {
      Guarantees.ExecutesOutcome(io, d, clients, call, env);
    } else {
      Guarantees.StopsUnchanged(io, d, clients, call, env);
    }
  }

  ghost predicate LegacyOnly(s: Sys, s': Sys) {
    forall j :: j in s'.ops && j !in s.ops ==>
      s'.ops[j].requests == map[] && s'.ops[j].attempt == 0 && s'.ops[j].status == LegacyPending
  }

  /** Two records of one operation that agree on what was asked for, and by whom. */
  ghost predicate SameRequests(a: OpRecord, b: OpRecord) {
    && a.requests == b.requests && a.attempt == b.attempt && a.plan == b.plan
    && a.account == b.account && a.accountId == b.accountId && a.target == b.target && a.actor == b.actor
  }

  /** The executor ran once, as x, from state s. */
  ghost predicate Ran(s: Sys, s': Sys, x: Exec, e: Inputs) {
    && x.op in s.ops && x.before == s.ops[x.op]
    && s'.plans == s.plans && s'.execs == s.execs + [x]
    && Listed(s') && LegacyOnly(s, s')
    && (forall j :: j in s.ops ==> j in s'.ops && (j != x.op ==> s'.ops[j] == s.ops[j]))
    && (|| s'.ops[x.op] == x.before
        || (SameRequests(s'.ops[x.op], x.before) && !Unfinished(s'.ops[x.op])))
    && (s.disk.journal != NoJournal ==> s'.disk == s.disk)
  }

  lemma SaveKeepsListed(s: Sys, id: Id, r: OpRecord, f: Fate)
    requires Listed(s)
    ensures Listed(SaveOp(s, id, r, f).0)
  {
    if f == Works && id !in s.ops {
      var s' := SaveOp(s, id, r, f).0;
      forall j
        ensures j in s'.listing <==> j in s'.ops
      {
        assert j in s'.listing <==> j == id || j in s.listing;
      }
    }
  }

  /** Saving the outcome of operation id touches that record and, for a pending switch, adds one of its own. */
  ghost predicate Closes(s: Sys, s': Sys, id: Id, r: OpRecord)
    requires id in s.ops
  {
    && s'.plans == s.plans && s'.execs == s.execs && s'.disk == s.disk && Listed(s')
    && LegacyOnly(s, s')
    && (forall j :: j in s.ops ==> j in s'.ops && (j != id ==> s'.ops[j] == s.ops[j]))
    && (s'.ops[id] == s.ops[id] || (SameRequests(s'.ops[id], r) && !Unfinished(s'.ops[id])))
  }

  lemma OutcomeSaved(s: Sys, id: Id, r: OpRecord, done: OpRecord, f: Fate)
    requires id in s.ops && Listed(s) && SameRequests(done, r) && !Unfinished(done)
    ensures Closes(s, SaveOp(s, id, done, f).0, id, r)
  {}

  lemma FinishShape(s: Sys, id: Id, r: OpRecord, latest: Plan, res: Switch.Result, e: Inputs)
    requires id in s.ops && e.legacyOp !in s.ops && Listed(s)
    ensures Closes(s, FinishEffect(s, id, r, latest, res, e).0, id, r)
  {
    var legacy := LegacyRecord(latest.account, TargetToCli(latest.target));
    var done := Concluded(r, res);
    assert SameRequests(done, r) && !Unfinished(done);
    if res.status == Switch.Pending && e.saveLegacy == Works {
      SaveKeepsListed(s, e.legacyOp, legacy, Works);
      var s1 := SaveOp(s, e.legacyOp, legacy, Works).0;
      OutcomeSaved(s1, id, r, done, e.saveResult);
    } else {
      OutcomeSaved(s, id, r, done, e.saveResult);
    }
  }

  /** The record left for an operation mirrors the executor's result. */
  ghost predicate Mirrors(r: OpRecord, res: Switch.Result) {
    && (r.status == Succeeded <==> res.status == Switch.Completed)
    && (r.status == WaitingUser <==> res.status == Switch.Pending)
    && (r.status == BlockedOp <==> res.status == Switch.Blocked)
    && (r.status == FailedOp <==> res.status == Switch.Failed)
    && (r.recovery == OpRecovery.Restored <==> res.recovery == Switch.WasRestored)
    && (r.recovery == OpRecovery.RecoveryFailed <==> res.recovery == Switch.RecoveryFailed)
    && (r.recovery == Unknown <==> res.recovery == Switch.Unstated && res.status == Switch.Failed)
    && (res.status == Switch.Pending ==> r.code == ClientInUse)
    && (res.status == Switch.Blocked ==> r.code == ExecutorBlocked)
  }

  lemma ConcludedMirrors(r: OpRecord, res: Switch.Result)
    ensures Mirrors(Concluded(r, res), res)
  {}

  lemma FinishMirrors(s: Sys, id: Id, r: OpRecord, latest: Plan, res: Switch.Result, e: Inputs)
    requires id in s.ops && e.legacyOp !in s.ops
    ensures var s' := FinishEffect(s, id, r, latest, res, e).0;
      id in s'.ops && (s'.ops[id] == s.ops[id] || Mirrors(s'.ops[id], res)) && s'.disk == s.disk
  {
    ConcludedMirrors(r, res);
  }

  /** The disk is what the executor left, and its result is on record unless it could not be saved. */
  ghost predicate Reports(d0: Disk, s': Sys, x: Exec, latest: Plan, run: Executor) {
    var (w, res) := run(d0, latest, x.restart);
    && s'.disk == w.disk && x.op in s'.ops
    && (s'.ops[x.op] == x.before || (w.up && Mirrors(s'.ops[x.op], res)))
  }

  lemma RunShape(s: Sys, id: Id, r: OpRecord, latest: Plan, key: Key, restart: bool, e: Inputs, run: Executor, x: Exec)
    requires id in s.ops && s.ops[id] == r && e.legacyOp !in s.ops && Listed(s) && Respects(run)
    requires x == Exec(id, key, restart, latest.account, latest.target, latest.revision, r, FilesOf(latest, e))
    ensures var s' := RunEffect(s, id, r, latest, key, restart, e, run).0;
      Ran(s, s', x, e) && Reports(s.disk, s', x, latest, run)
  {
    var (w, res) := run(s.disk, latest, restart);
    var s1 := s.(disk := w.disk, execs := s.execs + [x], serving := s.serving && w.up);
    FinishShape(s1, id, r, latest, res, e);
    FinishMirrors(s1, id, r, latest, res, e);
  }

  /** An accepted request: what was looked at and what was recorded. */
  datatype Accepted = Accepted(
    id: Id, planId: Id, plan: Plan, latest: Plan, base: OpRecord, draft: OpRecord, key: Key, sig: Signature,
    confirm: bool)

  function ExecOf(a: Accepted, actor: Actor, e: Inputs): Exec {
    Exec(a.id, a.key, a.confirm && actor == Ui, a.latest.account, a.latest.target, a.latest.revision, a.draft,
         FilesOf(a.latest, e))
  }

  /** The draft is durable; nothing else happened yet. */
  function Drafted(s: Sys, e: Inputs, a: Accepted): Sys {
    s.(plans := s.plans[e.newPlan := a.latest], ops := s.ops[a.id := a.draft],
       listing := if a.id in s.ops then s.listing else [a.id] + s.listing)
  }

  /** One unused key was entered into one operation, durably, before anything else. */
  ghost predicate Entered(s: Sys, s': Sys, existing: Option<Id>, actor: Actor, e: Inputs, a: Accepted) {
    && Unused(s, a.key)
    && a.id == (if existing.Some? then existing.value else e.newOp)
    && (existing.Some? ==> a.id in s.ops && a.base == s.ops[a.id])
    && (existing.None? ==> a.base.requests == map[] && a.base.attempt == 0)
    && a.draft.requests == a.base.requests[a.key := a.sig] && a.draft.attempt == a.base.attempt + 1
    && a.draft.plan == e.newPlan && a.draft.actor == actor
    && (existing.None? ==> a.base.account == a.latest.account && a.base.accountId == a.latest.accountId
                           && a.base.target == a.latest.target)
    && a.draft.account == a.base.account && a.draft.accountId == a.base.accountId && a.draft.target == a.base.target
    && AfterDraft(s, s', actor, e, a)
  }

  ghost predicate AfterDraft(s: Sys, s': Sys, actor: Actor, e: Inputs, a: Accepted) {
    if a.draft.status == InProgress then Ran(Drafted(s, e, a), s', ExecOf(a, actor, e), e) else s' == Drafted(s, e, a)
  }

  /** If the draft lets the switch run, the executor ran on the plan and its report was kept. */
  ghost predicate RunBy(s: Sys, s': Sys, actor: Actor, e: Inputs, a: Accepted, run: Executor) {
    a.draft.status == InProgress ==> Reports(s.disk, s', ExecOf(a, actor, e), a.latest, run)
  }

  /** Which plans justified it. */
  ghost predicate Weighed(s: Sys, planId: Id, existing: Option<Id>, actor: Actor, confirm: bool, e: Inputs,
                          a: Accepted) {
    && a.planId == planId && planId in s.plans && a.plan == s.plans[planId]
    && (existing.None? ==> !OutOfDate(a.plan, a.latest))
    && a.confirm == (confirm && !OutOfDate(a.plan, a.latest))
    && a.draft == Draft(a.base, a.latest, e.newPlan, a.key, a.sig, actor, a.confirm)
  }

  lemma ProceedShape(s0: Sys, s: Sys, actor: Actor, e: Inputs, run: Executor, a: Accepted)
    requires Listed(s) && Respects(run)
    requires s == s0.(plans := s0.plans[e.newPlan := a.latest])
    requires e.legacyOp !in s.ops && a.id != e.legacyOp
    ensures var s' := ProceedEffect(s, a.id, a.draft, a.latest, a.key, a.confirm && actor == Ui, e, run).0;
      if e.saveFirst != Works then Idle(s0, s')
      else AfterDraft(s0, s', actor, e, a) && RunBy(s0, s', actor, e, a, run)
  {
    var (s2, saved) := SaveOp(s, a.id, a.draft, e.saveFirst);
    if saved {
      SaveKeepsListed(s, a.id, a.draft, Works);
      assert s2 == Drafted(s0, e, a);
      if a.draft.status == InProgress {
        RunShape(s2, a.id, a.draft, a.latest, a.key, a.confirm && actor == Ui, e, run, ExecOf(a, actor, e));
      }
    }
  }

  /** What a draft enters, whatever the plan decides. */
  lemma DraftEnters(base: OpRecord, latest: Plan, newPlan: Id, key: Key, sig: Signature, actor: Actor, confirm: bool)
    ensures var r := Draft(base, latest, newPlan, key, sig, actor, confirm);
      && r.requests == base.requests[key := sig] && r.attempt == base.attempt + 1 && r.plan == newPlan
      && r.account == base.account && r.accountId == base.accountId && r.target == base.target && r.actor == actor
  {}

  lemma AdmitShape(s0: Sys, s: Sys, existing: Option<Id>, actor: Actor, e: Inputs, run: Executor, a: Accepted)
    requires existing.Some? ==> existing.value in s.ops
    requires Listed(s) && Respects(run) && Unused(s, a.key)
    requires s == s0.(plans := s0.plans[e.newPlan := a.latest])
    requires e.newOp !in s.ops && e.legacyOp !in s.ops && e.newOp != e.legacyOp
    requires a.id == (if existing.Some? then existing.value else e.newOp)
    requires a.base == (if existing.Some? then s.ops[existing.value] else NewRecord(a.latest))
    requires a.draft == Draft(a.base, a.latest, e.newPlan, a.key, a.sig, actor, a.confirm)
    ensures var s' := AdmitEffect(s, existing, a.latest, a.key, a.sig, actor, a.confirm, e, run).0;
      if e.saveFirst != Works then Idle(s0, s')
      else Entered(s0, s', existing, actor, e, a) && RunBy(s0, s', actor, e, a, run)
  {
    DraftEnters(a.base, a.latest, e.newPlan, a.key, a.sig, actor, a.confirm);
    ProceedShape(s0, s, actor, e, run, a);
  }

  lemma PlannedShape(s0: Sys, s: Sys, planId: Id, latest: Option<Plan>, key: Key, sig: Signature, actor: Actor,
                     confirm: bool, existing: Option<Id>, e: Inputs, run: Executor)
    returns (a: Accepted)
    requires existing.Some? ==> existing.value in s.ops
    requires Listed(s) && Respects(run) && Unused(s, key)
    requires planId in s0.plans
    requires if latest.None? then Idle(s0, s) else s == s0.(plans := s0.plans[e.newPlan := latest.value])
    requires e.newOp !in s.ops && e.legacyOp !in s.ops && e.newOp != e.legacyOp
    ensures var s' := PlannedEffect(s, s0.plans[planId], latest, key, sig, actor, confirm, existing, e, run).0;
      || Idle(s0, s')
      || (e.saveFirst == Works && Entered(s0, s', existing, actor, e, a) && latest == Some(a.latest)
          && RunBy(s0, s', actor, e, a, run) && Weighed(s0, planId, existing, actor, confirm, e, a))
  {
    a := Nothing(sig).(planId := planId, plan := s0.plans[planId], latest := s0.plans[planId], key := key);
    if latest.Some? && !(OutOfDate(a.plan, latest.value) && existing.None?) {
      var id, base := e.newOp, NewRecord(latest.value);
      if existing.Some? {
        id, base := existing.value, s.ops[existing.value];
      }
      var sure := confirm && !OutOfDate(a.plan, latest.value);
      a := Accepted(id, planId, a.plan, latest.value, base,
                    Draft(base, latest.value, e.newPlan, key, sig, actor, sure), key, sig, sure);
      AdmitShape(s0, s, existing, actor, e, run, a);
    }
  }

  lemma PreviewShape(s: Sys, accountRef: string, target: string, e: Inputs)
    ensures var (s1, latest) := PreviewEffect(s, accountRef, target, e);
      && s1.ops == s.ops && s1.listing == s.listing
      && (latest.None? ==> Idle(s, s1))
      && (latest.Some? ==> s1 == s.(plans := s.plans[e.newPlan := latest.value])
                           && FreshPlan(s.disk, accountRef, target, e) == latest)
  {}

  lemma PlannedOutcome(s: Sys, s': Sys, planId: Id, latest: Option<Plan>, existing: Option<Id>, actor: Actor,
                       confirm: bool, e: Inputs, a: Accepted, run: Executor)
    requires planId in s.plans && (existing.None? ==> !e.expired)
    requires latest.Some? ==> FreshPlan(s.disk, s.plans[planId].accountId, s.plans[planId].target, e) == latest
    requires || Idle(s, s')
             || (e.saveFirst == Works && Entered(s, s', existing, actor, e, a) && latest == Some(a.latest)
                 && RunBy(s, s', actor, e, a, run) && Weighed(s, planId, existing, actor, confirm, e, a))
    ensures Outcome(s, s', planId, existing, actor, confirm, e, a, run)
  {}

  lemma NewRequestShape(s: Sys, planId: Id, key: Key, sig: Signature, actor: Actor, confirm: bool,
                        existing: Option<Id>, e: Inputs, run: Executor)
    returns (a: Accepted)
    requires existing.Some? ==> existing.value in s.ops
    requires Listed(s) && Respects(run) && Unused(s, key)
    requires e.newOp !in s.ops && e.legacyOp !in s.ops && e.newOp != e.legacyOp
    ensures Outcome(s, NewRequestEffect(s, planId, key, sig, actor, confirm, existing, e, run).0,
                    planId, existing, actor, confirm, e, a, run)
  {
    var s' := NewRequestEffect(s, planId, key, sig, actor, confirm, existing, e, run).0;
    if s' == s {
      a := Nothing(sig);
    } else {
      var plan := s.plans[planId];
      PreviewShape(s, plan.accountId, plan.target, e);
      var (s1, latest) := PreviewEffect(s, plan.accountId, plan.target, e);
      assert Listed(s1) && Unused(s1, key);
      a := PlannedShape(s, s1, planId, latest, key, sig, actor, confirm, existing, e, run);
      PlannedOutcome(s, s', planId, latest, existing, actor, confirm, e, a, run);
    }
  }

  function Nothing(sig: Signature): Accepted {
    var p := Plan("", "", "", [], 0, Preview.Ready, Preview.NoCode);
    Accepted("", "", p, p, NewRecord(p), NewRecord(p), "", sig, false)
  }

  /** A request either leaves the records alone or enters one unused key into one operation. */
  ghost predicate Outcome(s: Sys, s': Sys, planId: Id, existing: Option<Id>, actor: Actor, confirm: bool, e: Inputs,
                          a: Accepted, run: Executor) {
    || Idle(s, s')
    || (&& e.saveFirst == Works && (existing.None? ==> !e.expired)
        && Entered(s, s', existing, actor, e, a) && RunBy(s, s', actor, e, a, run)
        && Weighed(s, planId, existing, actor, confirm, e, a)
        && FreshPlan(s.disk, a.plan.accountId, a.plan.target, e) == Some(a.latest))
  }

  lemma SubmitShape(s: Sys, planId: Id, requestId: string, idem: Key, actor: Actor, confirm: bool,
                    existing: Option<Id>, e: Inputs, run: Executor)
    returns (a: Accepted)
    requires existing.Some? ==> existing.value in s.ops
    requires Listed(s) && Respects(run)
    requires e.newOp !in s.ops && e.legacyOp !in s.ops && e.newOp != e.legacyOp
    ensures Outcome(s, SubmitEffect(s, planId, requestId, idem, actor, confirm, existing, e, run).0,
                    planId, existing, actor, confirm, e, a, run)
  {
    var key := Or(idem, Or(requestId, e.newRequest));
    var sig := SignatureOf(planId, confirm, existing);
    KeyFromSound(s, key, 0);
    assert s.listing[0..] == s.listing;
    if LookupKey(s, key).None? {
      a := NewRequestShape(s, planId, key, sig, actor, confirm, existing, e, run);
    } else {
      a := Nothing(sig);
    }
  }

  // ---- The shape of one step ------------------------------------------------------------------

  predicate Asks(ev: Event) {
    ev.SubmitReq? || ev.ConfirmReq? || ev.RetryReq?
  }

  function ExistingOf(ev: Event): Option<Id> {
    match ev
    case ConfirmReq(op, _, _, _) => Some(op)
    case RetryReq(op, _, _, _, _) => Some(op)
    case _ => None
  }

  predicate Resumable(r: OpRecord) {
    && r.status != Succeeded && r.status != Cancelled && r.status != InProgress
    && r.recovery != OpRecovery.RecoveryFailed && r.recovery != Unknown
  }

  predicate AwaitsRestart(r: OpRecord) {
    r.status == WaitingUser && r.code == Gate(Preview.AppRestartRequired)
  }

  /** The request was accepted and entered as a. */
  ghost predicate Took(s: Sys, s': Sys, ev: Event, a: Accepted) {
    && Asks(ev) && ev.e.saveFirst == Works && (ev.SubmitReq? ==> !ev.e.expired)
    && Entered(s, s', ExistingOf(ev), ev.actor, ev.e, a)
    && Weighed(s, if ev.SubmitReq? then ev.plan else s.ops[a.id].plan, ExistingOf(ev), ev.actor, ev.ConfirmReq?,
               ev.e, a)
    && FreshPlan(s.disk, a.plan.accountId, a.plan.target, ev.e) == Some(a.latest)
    && (!ev.SubmitReq? ==> Resumable(s.ops[a.id]))
    && (ev.ConfirmReq? ==> ev.actor == Ui && AwaitsRestart(s.ops[a.id]))
  }

  ghost predicate GaveUp(s: Sys, s': Sys, ev: Event) {
    && ev.CancelReq? && ev.op in s.ops && s.ops[ev.op].status != InProgress && s.ops[ev.op].status != Succeeded
    && s' == s.(ops := s.ops[ev.op := s.ops[ev.op].(status := Cancelled)])
  }

  /** A start-up: did it find a journal, and did recovery succeed? */
  predicate FoundJournal(s: Sys) {
    s.disk.journal != NoJournal
  }

  predicate Recovered(s: Sys, ev: Event)
    requires ev.StartHost?
  {
    RecoverEffect(ev.io, Start(s.disk), ev.probe).1
  }

  /** Unfinished operations were marked; a failed save may leave some of them as they were. */
  ghost predicate Marks(s: Sys, s': Sys, found: bool, recovered: bool) {
    && s'.execs == s.execs && s'.plans == s.plans && s'.listing == s.listing && s'.ops.Keys == s.ops.Keys
    && forall id :: id in s.ops ==>
         || s'.ops[id] == s.ops[id]
         || (Unfinished(s.ops[id]) && s'.ops[id] == InterruptedRecord(s.ops[id], found, recovered))
  }

  lemma MarkOne(s: Sys, s': Sys, id: Id, found: bool, recovered: bool)
    requires id in s.ops && Unfinished(s.ops[id])
    requires Marks(s.(ops := s.ops[id := InterruptedRecord(s.ops[id], found, recovered)]), s', found, recovered)
    ensures Marks(s, s', found, recovered)
  {
    var r := InterruptedRecord(s.ops[id], found, recovered);
    assert s.ops[id := r].Keys == s.ops.Keys;
    forall j | j in s.ops
      ensures || s'.ops[j] == s.ops[j]
              || (Unfinished(s.ops[j]) && s'.ops[j] == InterruptedRecord(s.ops[j], found, recovered))
    {
      if j != id {
        assert s.ops[id := r][j] == s.ops[j];
      }
    }
  }

  lemma {:induction false} MarkShape(s: Sys, i: nat, found: bool, recovered: bool, saves: Id -> Fate)
    requires i <= |s.listing|
    ensures Marks(s, MarkFrom(s, i, found, recovered, saves).0, found, recovered)
    ensures MarkFrom(s, i, found, recovered, saves).0.disk == s.disk
    decreases |s.listing| - i
  {
    if i < |s.listing| {
      var id := s.listing[i];
      if id !in s.ops || !Unfinished(s.ops[id]) {
        MarkShape(s, i + 1, found, recovered, saves);
      } else if saves(id) == Works {
        var s1 := s.(ops := s.ops[id := InterruptedRecord(s.ops[id], found, recovered)]);
        MarkShape(s1, i + 1, found, recovered, saves);
        MarkOne(s, MarkFrom(s1, i + 1, found, recovered, saves).0, id, found, recovered);
      }
    }
  }

  /** Records, keys and history did not move. */
  ghost predicate Unmoved(s: Sys, s': Sys) {
    s'.ops == s.ops && s'.listing == s.listing && s'.execs == s.execs && forall p :: p in s.plans ==> p in s'.plans
  }

  /** Every way a step can touch the records. */
  ghost predicate Moved(s: Sys, s': Sys, ev: Event, a: Accepted) {
    || Unmoved(s, s')
    || GaveUp(s, s', ev)
    || (ev.StartHost? && !s.serving && Marks(s, s', FoundJournal(s), Recovered(s, ev)))
    || (s.serving && Took(s, s', ev, a))
  }

  lemma ResumeGuard(r: OpRecord, id: Id, confirm: bool)
    ensures ResumeStop(r, id, confirm).None? <==> Resumable(r) && (confirm ==> AwaitsRestart(r))
  {}

  lemma ResumeShape(s: Sys, id: Id, requestId: string, idem: Key, actor: Actor, confirm: bool, e: Inputs, run: Executor)
    returns (a: Accepted)
    requires Listed(s) && Respects(run)
    requires e.newOp !in s.ops && e.legacyOp !in s.ops && e.newOp != e.legacyOp
    ensures var s' := ResumeEffect(s, id, requestId, idem, actor, confirm, e, run).0;
      || Idle(s, s')
      || (&& id in s.ops && Resumable(s.ops[id]) && (confirm ==> AwaitsRestart(s.ops[id]))
          && Outcome(s, s', s.ops[id].plan, Some(id), actor, confirm, e, a, run))
  {
    a := Nothing(SubmitOf(""));
    if Known(s, id) {
      ResumeGuard(s.ops[id], id, confirm);
      if ResumeStop(s.ops[id], id, confirm).None? {
        a := SubmitShape(s, s.ops[id].plan, requestId, idem, actor, confirm, Some(id), e, run);
      }
    }
  }

  lemma HostShape(s: Sys, io: Schedule, probe: Client -> Answer, saves: Id -> Fate)
    ensures Marks(s, HostStart(s, io, probe, saves), s.disk.journal != NoJournal,
                  RecoverEffect(io, Start(s.disk), probe).1)
  {
    var (w, recovered) := RecoverEffect(io, Start(s.disk), probe);
    MarkShape(s.(disk := w.disk, serving := false), 0, s.disk.journal != NoJournal, recovered, saves);
  }

  ghost predicate TookBy(s: Sys, s': Sys, ev: Event, a: Accepted, run: Executor) {
    Took(s, s', ev, a) && RunBy(s, s', ev.actor, ev.e, a, run)
  }

  lemma SubmitReqShape(s: Sys, ev: Event) returns (a: Accepted)
    requires Listed(s) && NewIds(s, ev) && ev.SubmitReq?
    ensures Idle(s, Serve(s, ev)) || TookBy(s, Serve(s, ev), ev, a, RealSwitch(ev.e))
  {
    RealSwitchRespects(ev.e);
    a := SubmitShape(s, ev.plan, ev.requestId, ev.idem, ev.actor, false, None, ev.e, RealSwitch(ev.e));
  }

  /** A resumed operation took its request. */
  lemma ResumedTook(s: Sys, s': Sys, ev: Event, a: Accepted, run: Executor)
    requires ev.ConfirmReq? || ev.RetryReq?
    requires ev.op in s.ops && Resumable(s.ops[ev.op])
    requires ev.ConfirmReq? ==> ev.actor == Ui && AwaitsRestart(s.ops[ev.op])
    requires Outcome(s, s', s.ops[ev.op].plan, Some(ev.op), ev.actor, ev.ConfirmReq?, ev.e, a, run)
    ensures Idle(s, s') || TookBy(s, s', ev, a, run)
  {}

  lemma ConfirmReqShape(s: Sys, ev: Event) returns (a: Accepted)
    requires Listed(s) && NewIds(s, ev) && ev.ConfirmReq?
    ensures Idle(s, Serve(s, ev)) || TookBy(s, Serve(s, ev), ev, a, RealSwitch(ev.e))
  {
    RealSwitchRespects(ev.e);
    a := ResumeShape(s, ev.op, ev.requestId, "", ev.actor, true, ev.e, RealSwitch(ev.e));
    if !Idle(s, Serve(s, ev)) {
      ResumedTook(s, Serve(s, ev), ev, a, RealSwitch(ev.e));
    }
  }

  lemma RetryReqShape(s: Sys, ev: Event) returns (a: Accepted)
    requires Listed(s) && NewIds(s, ev) && ev.RetryReq?
    ensures Idle(s, Serve(s, ev)) || TookBy(s, Serve(s, ev), ev, a, RealSwitch(ev.e))
  {
    RealSwitchRespects(ev.e);
    a := ResumeShape(s, ev.op, ev.requestId, ev.idem, ev.actor, false, ev.e, RealSwitch(ev.e));
    if !Idle(s, Serve(s, ev)) {
      ResumedTook(s, Serve(s, ev), ev, a, RealSwitch(ev.e));
    }
  }

  /** While a journal remains, a step that took a request changed nothing on the disk. */
  lemma TookRespectsJournal(s: Sys, s': Sys, ev: Event, a: Accepted)
    requires Took(s, s', ev, a) && s.disk.journal != NoJournal
    ensures s'.disk == s.disk
  {
    assert AfterDraft(s, s', ev.actor, ev.e, a);
  }

  lemma StepShape(s: Sys, ev: Event) returns (a: Accepted)
    requires Listed(s) && NewIds(s, ev)
    ensures Moved(s, Step(s, ev), ev, a)
    ensures Request(ev) && s.disk.journal != NoJournal ==> Step(s, ev).disk == s.disk
  {
    a := Nothing(SubmitOf(""));
    if ev.StartHost? {
      HostShape(s, ev.io, ev.probe, ev.saves);
    } else if s.serving && ev.PreviewReq? {
      PreviewShape(s, ev.account, ev.target, ev.e);
    } else if s.serving && Asks(ev) {
      a := AskShape(s, ev);
    }
  }

  lemma AskRuns(s: Sys, ev: Event) returns (a: Accepted)
    requires Listed(s) && NewIds(s, ev) && Asks(ev)
    ensures Idle(s, Serve(s, ev)) || TookBy(s, Serve(s, ev), ev, a, RealSwitch(ev.e))
  {
    if ev.SubmitReq? {
      a := SubmitReqShape(s, ev);
    } else if ev.ConfirmReq? {
      a := ConfirmReqShape(s, ev);
    } else {
      a := RetryReqShape(s, ev);
    }
  }

  lemma AskShape(s: Sys, ev: Event) returns (a: Accepted)
    requires Listed(s) && NewIds(s, ev) && Asks(ev)
    ensures Idle(s, Serve(s, ev)) || Took(s, Serve(s, ev), ev, a)
    ensures s.disk.journal != NoJournal ==> Serve(s, ev).disk == s.disk
  {
    a := AskRuns(s, ev);
    if s.disk.journal != NoJournal && !Idle(s, Serve(s, ev)) {
      TookRespectsJournal(s, Serve(s, ev), ev, a);
    }
  }

  // ---- What the latest plan decides -------------------------------------------------------------

  /** The latest plan lets the switch run: nothing holds it back, or only the App, whose restart was confirmed. */
  predicate Cleared(latest: Plan, restart: bool) {
    || latest.decision == Preview.Ready
    || (latest.decision == Preview.WaitingUser && latest.code == Preview.AppRestartRequired && restart)
  }

  lemma FreshPlanAnswers(d: Disk, accountRef: string, target: string, e: Inputs)
    ensures var latest := FreshPlan(d, accountRef, target, e);
      latest.Some? ==> Preview.Answers(latest.value.decision, latest.value.code)
  {
    if FreshPlan(d, accountRef, target, e).Some? {
      var id := Get(d.lib, e.resolve(accountRef).value).value.id;
      var affected := Resolve(e.clients, TargetToCli(target)).value;
      Preview.DecisionAnswers(d.lib, id, affected, e.inspect, e.live, e.lives);
    }
  }

  /** The status of a draft says exactly what the latest plan decided. */
  ghost predicate Settles(r: OpRecord, latest: Plan, restart: bool) {
    && (r.status == InProgress <==> Cleared(latest, restart))
    && (r.status == BlockedOp <==> latest.decision == Preview.Stopped)
    && (r.status == Succeeded <==> latest.decision == Preview.Noop)
    && (r.status == WaitingUser <==> latest.decision == Preview.WaitingUser && !Cleared(latest, restart))
    && r.code == if r.status == BlockedOp || r.status == WaitingUser then Gate(latest.code) else NoCode
  }

  lemma DraftSettles(base: OpRecord, latest: Plan, newPlan: Id, key: Key, sig: Signature, actor: Actor, confirm: bool)
    requires Preview.Answers(latest.decision, latest.code)
    ensures Settles(Draft(base, latest, newPlan, key, sig, actor, confirm), latest, confirm && actor == Ui)
  {}

  /** An accepted request runs the executor exactly if the latest plan clears it; otherwise its
      record says why not, and nothing else happened. */
  lemma TookSettles(s: Sys, s': Sys, ev: Event, a: Accepted)
    requires Took(s, s', ev, a)
    ensures Settles(a.draft, a.latest, a.confirm && ev.actor == Ui)
    ensures Cleared(a.latest, a.confirm && ev.actor == Ui) ==> s'.execs == s.execs + [ExecOf(a, ev.actor, ev.e)]
    ensures !Cleared(a.latest, a.confirm && ev.actor == Ui) ==>
      s'.execs == s.execs && s'.disk == s.disk && a.id in s'.ops && s'.ops[a.id] == a.draft
  {
    FreshPlanAnswers(s.disk, a.plan.accountId, a.plan.target, ev.e);
    DraftSettles(a.base, a.latest, ev.e.newPlan, a.key, a.sig, ev.actor, a.confirm);
  }
}
