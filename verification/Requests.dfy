/** When requests are taken and when they are refused as stale: what a plan remembers of the
    account, how long it stays, and what it takes to be accepted. */
module Requests {
  import opened Options
  import opened Accounts
  import opened Clients
  import opened Disk
  import opened Operations
  import opened OperationProofs
  import opened Idempotence
  import Consent
  import Preview
  import Switch

  // ---- What a plan remembers -------------------------------------------------------------------

  /** cred_version as meta.json of a readable slot has it, 0 without one. */
  ghost predicate AtRevision(lib: Library, n: Name, revision: int) {
    Get(lib, n).Some? && revision == if lib.slots[n].revision.Some? then lib.slots[n].revision.value else 0
  }

  /** A plan is for the account that was asked for, at the revision its slot has on this disk, and
      shows the members of the first view that has the target's id. */
  lemma PlanShowsAccount(d: Disk, accountRef: string, target: string, e: Inputs)
    ensures var p := FreshPlan(d, accountRef, target, e);
      p.Some? ==>
        && e.resolve(accountRef) == Some(p.value.account) && p.value.accountId == e.accountId(p.value.account)
        && AtRevision(d.lib, p.value.account, p.value.revision)
        && p.value.target == target
        && exists view :: view in TargetList(e.clients) && view.id == target && view.members == p.value.members
  {
    TargetFound(TargetList(e.clients), target);
  }

  lemma {:induction false} TargetFound(ts: seq<TargetView>, id: string)
    ensures var t := TargetById(ts, id);
      if t.Some? then t.value in ts && t.value.id == id else forall v :: v in ts ==> v.id != id
  {
    if ts != [] && ts[0].id != id {
      TargetFound(ts[1..], id);
      assert ts == [ts[0]] + ts[1..];
    }
  }

  // ---- Plans stay ------------------------------------------------------------------------------

  /** No plan but the new one was touched. */
  ghost predicate PlansStay(s: Sys, s': Sys, newPlan: Id) {
    forall p :: p in s.plans && p != newPlan ==> p in s'.plans && s'.plans[p] == s.plans[p]
  }

  lemma FinishKeepsPlans(s: Sys, id: Id, r: OpRecord, latest: Plan, res: Switch.Result, e: Inputs)
    ensures FinishEffect(s, id, r, latest, res, e).0.plans == s.plans
  {}

  lemma RunKeepsPlans(s: Sys, id: Id, r: OpRecord, latest: Plan, key: Key, restart: bool, e: Inputs, run: Executor)
    requires id in s.ops
    ensures RunEffect(s, id, r, latest, key, restart, e, run).0.plans == s.plans
  {
    var exec := Exec(id, key, restart, latest.account, latest.target, latest.revision, s.ops[id], FilesOf(latest, e));
    var (w, res) := run(s.disk, latest, restart);
    var s1 := s.(disk := w.disk, execs := s.execs + [exec], serving := s.serving && w.up);
    FinishKeepsPlans(s1, id, r, latest, res, e);
  }

  lemma ProceedKeepsPlans(s: Sys, id: Id, r: OpRecord, latest: Plan, key: Key, restart: bool, e: Inputs, run: Executor)
    ensures ProceedEffect(s, id, r, latest, key, restart, e, run).0.plans == s.plans
  {
    var (s1, saved) := SaveOp(s, id, r, e.saveFirst);
    if saved {
      RunKeepsPlans(s1, id, r, latest, key, restart, e, run);
    }
  }

  lemma PlannedKeepsPlans(s: Sys, plan: Plan, latest: Option<Plan>, key: Key, sig: Signature, actor: Actor,
                          confirm: bool, existing: Option<Id>, e: Inputs, run: Executor)
    requires existing.Some? ==> existing.value in s.ops
    ensures PlannedEffect(s, plan, latest, key, sig, actor, confirm, existing, e, run).0.plans == s.plans
  {
    if latest.Some? {
      var base := if existing.Some? then s.ops[existing.value] else NewRecord(latest.value);
      var id := if existing.Some? then existing.value else e.newOp;
      var sure := confirm && !OutOfDate(plan, latest.value);
      ProceedKeepsPlans(s, id, Draft(base, latest.value, e.newPlan, key, sig, actor, sure), latest.value, key,
                        sure && actor == Ui, e, run);
    }
  }

  lemma NewRequestKeepsPlans(s: Sys, planId: Id, key: Key, sig: Signature, actor: Actor, confirm: bool,
                             existing: Option<Id>, e: Inputs, run: Executor)
    requires existing.Some? ==> existing.value in s.ops
    ensures PlansStay(s, NewRequestEffect(s, planId, key, sig, actor, confirm, existing, e, run).0, e.newPlan)
  {
    if planId in s.plans {
      var plan := s.plans[planId];
      PreviewShape(s, plan.accountId, plan.target, e);
      var (s1, latest) := PreviewEffect(s, plan.accountId, plan.target, e);
      assert PlansStay(s, s1, e.newPlan);
      PlannedKeepsPlans(s1, plan, latest, key, sig, actor, confirm, existing, e, run);
    }
  }

  lemma SubmitKeepsPlans(s: Sys, planId: Id, requestId: string, idem: Key, actor: Actor, confirm: bool,
                         existing: Option<Id>, e: Inputs, run: Executor)
    requires existing.Some? ==> existing.value in s.ops
    ensures PlansStay(s, SubmitEffect(s, planId, requestId, idem, actor, confirm, existing, e, run).0, e.newPlan)
  {
    var key := Or(idem, Or(requestId, e.newRequest));
    NewRequestKeepsPlans(s, planId, key, SignatureOf(planId, confirm, existing), actor, confirm, existing, e, run);
  }

  lemma StepKeepsPlans(s: Sys, ev: Event, p: Id)
    requires NewIds(s, ev) && p in s.plans
    ensures p in Step(s, ev).plans && Step(s, ev).plans[p] == s.plans[p]
  {
    match ev
    case PreviewReq(_, _, _) =>
    case SubmitReq(plan, req, idem, actor, e) =>
      SubmitKeepsPlans(s, plan, req, idem, actor, false, None, e, RealSwitch(e));
    case ConfirmReq(op, req, actor, e) =>
      if op in s.ops {
        SubmitKeepsPlans(s, s.ops[op].plan, req, "", actor, true, Some(op), e, RealSwitch(e));
      }
    case RetryReq(op, req, idem, actor, e) =>
      if op in s.ops {
        SubmitKeepsPlans(s, s.ops[op].plan, req, idem, actor, false, Some(op), e, RealSwitch(e));
      }
    case CancelReq(_, _) =>
    case StartHost(io, probe, saves) => HostShape(s, io, probe, saves);
    case KillHost =>
    case Elsewhere(_) =>
  }

  /** A plan never changes once it is saved. */
  lemma {:induction false} PlansNeverChange(s: Sys, evs: seq<Event>, p: Id)
    requires FreshRun(s, evs) && p in s.plans
    ensures p in Run(s, evs).plans && Run(s, evs).plans[p] == s.plans[p]
  {
    if evs != [] {
      FreshPrefix(s, evs);
      PlansNeverChange(s, evs[..|evs| - 1], p);
      StepKeepsPlans(Run(s, evs[..|evs| - 1]), evs[|evs| - 1], p);
    }
  }

  // ---- Stale plans -----------------------------------------------------------------------------

  /** A plan made on disk d0 is out of date on disk d if the account's revision differs. */
  lemma RevisionTells(d0: Disk, ref0: string, target0: string, e0: Inputs, d: Disk, ref: string, target: string,
                      e: Inputs, r0: int, r: int)
    requires FreshPlan(d0, ref0, target0, e0).Some? && FreshPlan(d, ref, target, e).Some?
    requires AtRevision(d0.lib, e0.resolve(ref0).value, r0) && AtRevision(d.lib, e.resolve(ref).value, r) && r != r0
    ensures OutOfDate(FreshPlan(d0, ref0, target0, e0).value, FreshPlan(d, ref, target, e).value)
  {
    PlanShowsAccount(d0, ref0, target0, e0);
    PlanShowsAccount(d, ref, target, e);
  }

  /** The key of a request, and that it is new. */
  function KeyOf(ev: Event): Key
    requires Asks(ev)
  {
    var idem := if ev.ConfirmReq? then "" else ev.idem;
    if idem != "" then idem else if ev.requestId != "" then ev.requestId else ev.e.newRequest
  }

  lemma UnusedKey(s: Sys, key: Key)
    requires Unused(s, key)
    ensures LookupKey(s, key).None?
  {
    KeyFromSound(s, key, 0);
  }

  /** The reply to a submission. */
  function SubmitReply(s: Sys, ev: Event): Reply
    requires ev.SubmitReq?
  {
    SubmitEffect(s, ev.plan, ev.requestId, ev.idem, ev.actor, false, None, ev.e, RealSwitch(ev.e)).1
  }

  lemma StaleSubmissionStops(s: Sys, ev: Event, latest: Plan)
    requires s.serving && ev.SubmitReq? && Unused(s, KeyOf(ev)) && ValidSlotName(ev.plan) && ev.plan in s.plans
    requires FreshPlan(s.disk, s.plans[ev.plan].accountId, s.plans[ev.plan].target, ev.e) == Some(latest)
    requires OutOfDate(s.plans[ev.plan], latest) && ev.e.savePlan == Works
    ensures SubmitReply(s, ev) == Stale && Idle(s, Step(s, ev))
  {
    UnusedKey(s, KeyOf(ev));
  }

  /** A preview shows the account at one revision; before the plan is used the account is saved
      again, by a renewal or an import or a switch. Then a submission of the plan is refused as
      stale and changes nothing, and a confirmation of it never restarts the App. */
  lemma SavedAgainGoesStale(s: Sys, shown: Event, evs: seq<Event>, ev: Event, r0: int, r: int)
    requires Inv(s) && s.serving && shown.PreviewReq? && NewIds(s, shown) && shown.e.savePlan == Works
    requires FreshPlan(s.disk, shown.account, shown.target, shown.e).Some?
    requires FreshRun(Step(s, shown), evs)
    requires var t, plan := Run(Step(s, shown), evs), FreshPlan(s.disk, shown.account, shown.target, shown.e).value;
      && t.serving && NewIds(t, ev)
      && Asks(ev) && ev.e.savePlan == Works && FreshPlan(t.disk, plan.accountId, plan.target, ev.e).Some?
      && AtRevision(s.disk.lib, shown.e.resolve(shown.account).value, r0)
      && AtRevision(t.disk.lib, ev.e.resolve(plan.accountId).value, r) && r != r0
    ensures var t := Run(Step(s, shown), evs); var t' := Step(t, ev);
      && (ev.SubmitReq? && ev.plan == shown.e.newPlan && ValidSlotName(ev.plan) && Unused(t, KeyOf(ev)) ==>
            SubmitReply(t, ev) == Stale && Idle(t, t'))
      && (ev.ConfirmReq? && ev.op in t.ops && t.ops[ev.op].plan == shown.e.newPlan ==>
            || t'.execs == t.execs
            || (|t'.execs| == |t.execs| + 1 && t'.execs[..|t.execs|] == t.execs && !t'.execs[|t.execs|].restart))
  {
    var t, plan := Run(Step(s, shown), evs), FreshPlan(s.disk, shown.account, shown.target, shown.e).value;
    var latest := FreshPlan(t.disk, plan.accountId, plan.target, ev.e).value;
    InvStep(s, shown);
    InvRun(Step(s, shown), evs);
    PlansNeverChange(Step(s, shown), evs, shown.e.newPlan);
    RevisionTells(s.disk, shown.account, shown.target, shown.e, t.disk, plan.accountId, plan.target, ev.e, r0, r);
    if ev.SubmitReq? && ev.plan == shown.e.newPlan && ValidSlotName(ev.plan) && Unused(t, KeyOf(ev)) {
      StaleSubmissionStops(t, ev, latest);
    } else if ev.ConfirmReq? && ev.op in t.ops && t.ops[ev.op].plan == shown.e.newPlan {
      Consent.StaleConfirmAsksAgain(t, ev, plan, latest);
    }
  }

  // ---- Operations keep their account and target -----------------------------------------------

  ghost predicate SameGoal(a: OpRecord, b: OpRecord) {
    a.account == b.account && a.accountId == b.accountId && a.target == b.target
  }

  lemma RanKeepsGoals(d: Sys, s': Sys, x: Exec, e: Inputs, id: Id)
    requires Ran(d, s', x, e) && id in d.ops
    ensures id in s'.ops && SameGoal(s'.ops[id], d.ops[id])
  {}

  lemma EnteredKeepsGoals(s: Sys, s': Sys, existing: Option<Id>, actor: Actor, e: Inputs, a: Accepted, id: Id)
    requires Entered(s, s', existing, actor, e, a) && e.newOp !in s.ops && id in s.ops
    ensures id in s'.ops && SameGoal(s'.ops[id], s.ops[id])
  {
    var d := Drafted(s, e, a);
    assert id in d.ops && SameGoal(d.ops[id], s.ops[id]);
    if a.draft.status == InProgress {
      RanKeepsGoals(d, s', ExecOf(a, actor, e), e, id);
    }
  }

  lemma MarksKeepGoals(s: Sys, s': Sys, found: bool, recovered: bool, id: Id)
    requires Marks(s, s', found, recovered) && id in s.ops
    ensures id in s'.ops && SameGoal(s'.ops[id], s.ops[id])
  {
    assert id in s'.ops.Keys;
  }

  lemma MovedKeepsGoals(s: Sys, s': Sys, ev: Event, a: Accepted, id: Id)
    requires NewIds(s, ev) && Moved(s, s', ev, a) && id in s.ops
    ensures id in s'.ops && SameGoal(s'.ops[id], s.ops[id])
  {
    if s.serving && Took(s, s', ev, a) {
      EnteredKeepsGoals(s, s', ExistingOf(ev), ev.actor, ev.e, a, id);
    } else if ev.StartHost? && Marks(s, s', FoundJournal(s), Recovered(s, ev)) {
      MarksKeepGoals(s, s', FoundJournal(s), Recovered(s, ev), id);
    }
  }

  /** The account and the target of an operation never change. */
  lemma {:induction false} GoalsNeverChange(s: Sys, evs: seq<Event>, id: Id)
    requires Inv(s) && FreshRun(s, evs) && id in s.ops
    ensures id in Run(s, evs).ops && SameGoal(Run(s, evs).ops[id], s.ops[id])
  {
    if evs != [] {
      var init, last := evs[..|evs| - 1], evs[|evs| - 1];
      FreshPrefix(s, evs);
      GoalsNeverChange(s, init, id);
      InvRun(s, init);
      var a := StepShape(Run(s, init), last);
      MovedKeepsGoals(Run(s, init), Step(Run(s, init), last), last, a, id);
    }
  }

  // ---- Cancellation -----------------------------------------------------------------------------

  /** A cancellation takes effect if and only if the operation is known, neither running nor
      succeeded, and its record can be saved; then only its status changes. */
  lemma CancelsExactly(s: Sys, ev: Event)
    requires ev.CancelReq? && s.serving
    ensures var s' := Step(s, ev);
      if ValidSlotName(ev.op) && ev.op in s.ops && s.ops[ev.op].status != InProgress && s.ops[ev.op].status != Succeeded
         && ev.save == Works
      then s' == s.(ops := s.ops[ev.op := s.ops[ev.op].(status := Cancelled)])
      else s' == s.(serving := s'.serving)
  {}

  // ---- Requests that are taken -------------------------------------------------------------------

  /** Nothing the shown plan promised has changed: the revision, and no member came to the target. */
  ghost predicate Unchanged(shown: Plan, latest: Plan) {
    latest.revision == shown.revision && forall m :: m in latest.members ==> m in shown.members
  }

  /** What was shown can be planned now, and both the plan and the operation can be saved. */
  ghost predicate Plannable(s: Sys, planId: Id, e: Inputs, latest: Plan) {
    && ValidSlotName(planId) && planId in s.plans && e.savePlan == Works && e.saveFirst == Works
    && FreshPlan(s.disk, s.plans[planId].accountId, s.plans[planId].target, e) == Some(latest)
  }

  lemma PlannedTaken(s0: Sys, s: Sys, plan: Plan, latest: Plan, key: Key, sig: Signature, actor: Actor, confirm: bool,
                     existing: Option<Id>, e: Inputs, run: Executor)
    returns (a: Accepted)
    requires existing.Some? ==> existing.value in s.ops
    requires Listed(s) && Respects(run) && Unused(s, key) && e.saveFirst == Works
    requires s == s0.(plans := s0.plans[e.newPlan := latest])
    requires e.newOp !in s.ops && e.legacyOp !in s.ops && e.newOp != e.legacyOp
    requires existing.None? ==> !OutOfDate(plan, latest)
    ensures var s' := PlannedEffect(s, plan, Some(latest), key, sig, actor, confirm, existing, e, run).0;
      Entered(s0, s', existing, actor, e, a)
    ensures a.key == key && a.sig == sig && a.plan == plan && a.latest == latest
    ensures a.confirm == (confirm && !OutOfDate(plan, latest))
    ensures a.draft == Draft(a.base, latest, e.newPlan, key, sig, actor, a.confirm)
  {
    var id, base := e.newOp, NewRecord(latest);
    if existing.Some? {
      id, base := existing.value, s.ops[existing.value];
    }
    var sure := confirm && !OutOfDate(plan, latest);
    a := Accepted(id, "", plan, latest, base, Draft(base, latest, e.newPlan, key, sig, actor, sure), key, sig, sure);
    AdmitShape(s0, s, existing, actor, e, run, a);
  }

  lemma NewRequestTaken(s: Sys, planId: Id, latest: Plan, key: Key, sig: Signature, actor: Actor, confirm: bool,
                        existing: Option<Id>, e: Inputs, run: Executor)
    returns (a: Accepted)
    requires existing.Some? ==> existing.value in s.ops
    requires Listed(s) && Respects(run) && Unused(s, key) && Plannable(s, planId, e, latest)
    requires e.newOp !in s.ops && e.legacyOp !in s.ops && e.newOp != e.legacyOp
    requires existing.None? ==> !e.expired && !OutOfDate(s.plans[planId], latest)
    ensures Entered(s, NewRequestEffect(s, planId, key, sig, actor, confirm, existing, e, run).0, existing, actor, e, a)
    ensures a.key == key && a.sig == sig && a.plan == s.plans[planId] && a.latest == latest
    ensures a.confirm == (confirm && !OutOfDate(a.plan, latest))
    ensures a.draft == Draft(a.base, latest, e.newPlan, key, sig, actor, a.confirm)
  {
    var s1 := s.(plans := s.plans[e.newPlan := latest]);
    assert Listed(s1) && Unused(s1, key);
    a := PlannedTaken(s, s1, s.plans[planId], latest, key, sig, actor, confirm, existing, e, run);
  }

  /** The request is on record, and the executor was called exactly if the latest plan clears it. */
  ghost predicate Taken(s: Sys, s': Sys, id: Id, key: Key, sig: Signature, e: Inputs, latest: Plan, restart: bool) {
    && id in s'.ops && s'.ops[id].plan == e.newPlan && key in s'.ops[id].requests && s'.ops[id].requests[key] == sig
    && e.newPlan in s'.plans && s'.plans[e.newPlan] == latest
    && if Cleared(latest, restart) then
         |s'.execs| == |s.execs| + 1 && s'.execs[|s.execs|].op == id && s'.execs[|s.execs|].restart == restart
       else s'.execs == s.execs && s'.disk == s.disk
  }

  lemma EnteredTaken(s: Sys, s': Sys, existing: Option<Id>, actor: Actor, e: Inputs, a: Accepted)
    requires Listed(s) && Entered(s, s', existing, actor, e, a)
    requires Preview.Answers(a.latest.decision, a.latest.code)
    requires a.draft == Draft(a.base, a.latest, e.newPlan, a.key, a.sig, actor, a.confirm)
    ensures Taken(s, s', a.id, a.key, a.sig, e, a.latest, a.confirm && actor == Ui)
  {
    DraftSettles(a.base, a.latest, e.newPlan, a.key, a.sig, actor, a.confirm);
    if a.draft.status == InProgress {
      RanTaken(s, Drafted(s, e, a), s', ExecOf(a, actor, e), e);
    }
  }

  lemma RanTaken(s: Sys, d: Sys, s': Sys, x: Exec, e: Inputs)
    requires Ran(d, s', x, e) && d.execs == s.execs
    ensures s'.plans == d.plans && |s'.execs| == |s.execs| + 1 && s'.execs[|s.execs|] == x
    ensures x.op in s'.ops && s'.ops[x.op].requests == d.ops[x.op].requests && s'.ops[x.op].plan == d.ops[x.op].plan
  {}

  lemma UnchangedExactly(d: Disk, plan: Plan, e: Inputs, latest: Plan)
    requires FreshPlan(d, plan.accountId, plan.target, e) == Some(latest)
    ensures OutOfDate(plan, latest) <==> !Unchanged(plan, latest)
  {}

  lemma SubmitTaken(s: Sys, planId: Id, requestId: string, idem: Key, actor: Actor, confirm: bool,
                    existing: Option<Id>, e: Inputs, latest: Plan, key: Key)
    requires existing.Some? ==> existing.value in s.ops
    requires key == Or(idem, Or(requestId, e.newRequest))
    requires Listed(s) && Unused(s, key) && Plannable(s, planId, e, latest)
    requires e.newOp !in s.ops && e.legacyOp !in s.ops && e.newOp != e.legacyOp
    requires existing.None? ==> !e.expired && Unchanged(s.plans[planId], latest)
    ensures Taken(s, SubmitEffect(s, planId, requestId, idem, actor, confirm, existing, e, RealSwitch(e)).0,
                  if existing.Some? then existing.value else e.newOp, key, SignatureOf(planId, confirm, existing), e,
                  latest, confirm && actor == Ui && Unchanged(s.plans[planId], latest))
  {
    UnusedKey(s, key);
    RealSwitchRespects(e);
    FreshPlanAnswers(s.disk, s.plans[planId].accountId, s.plans[planId].target, e);
    UnchangedExactly(s.disk, s.plans[planId], e, latest);
    var sig := SignatureOf(planId, confirm, existing);
    var a := NewRequestTaken(s, planId, latest, key, sig, actor, confirm, existing, e, RealSwitch(e));
    EnteredTaken(s, NewRequestEffect(s, planId, key, a.sig, actor, confirm, existing, e, RealSwitch(e)).0, existing,
                 actor, e, a);
  }

  /** A submission under a new key of a plan that has not expired and still holds is taken, if the
      plan and the operation can be saved. */
  lemma SubmissionTaken(s: Sys, ev: Event, latest: Plan)
    requires Listed(s) && NewIds(s, ev) && s.serving && ev.SubmitReq? && !ev.e.expired
    requires Unused(s, KeyOf(ev)) && Plannable(s, ev.plan, ev.e, latest) && Unchanged(s.plans[ev.plan], latest)
    ensures Taken(s, Step(s, ev), ev.e.newOp, KeyOf(ev), SubmitOf(ev.plan), ev.e, latest, false)
  {
    SubmitTaken(s, ev.plan, ev.requestId, ev.idem, ev.actor, false, None, ev.e, latest, KeyOf(ev));
  }

  /** A retry under a new key of an operation that can be resumed is taken, even if its plan does
      not hold any more: the latest plan counts. */
  lemma RetryTaken(s: Sys, ev: Event, latest: Plan)
    requires Listed(s) && NewIds(s, ev) && s.serving && ev.RetryReq?
    requires Known(s, ev.op) && Resumable(s.ops[ev.op])
    requires Unused(s, KeyOf(ev)) && Plannable(s, s.ops[ev.op].plan, ev.e, latest)
    ensures Taken(s, Step(s, ev), ev.op, KeyOf(ev), RetryOf(ev.op), ev.e, latest, false)
  {
    ResumeGuard(s.ops[ev.op], ev.op, false);
    SubmitTaken(s, s.ops[ev.op].plan, ev.requestId, ev.idem, ev.actor, false, Some(ev.op), ev.e, latest, KeyOf(ev));
  }

  /** A confirmation from the web session, under a new key, of an operation that waits for the
      restart is taken; it lets the App restart exactly if the plan on record still holds. */
  lemma ConfirmationTaken(s: Sys, ev: Event, latest: Plan)
    requires Listed(s) && NewIds(s, ev) && s.serving && ev.ConfirmReq? && ev.actor == Ui
    requires Known(s, ev.op) && Resumable(s.ops[ev.op]) && AwaitsRestart(s.ops[ev.op])
    requires Unused(s, KeyOf(ev)) && Plannable(s, s.ops[ev.op].plan, ev.e, latest)
    ensures Taken(s, Step(s, ev), ev.op, KeyOf(ev), ConfirmOf(ev.op), ev.e, latest,
                  Unchanged(s.plans[s.ops[ev.op].plan], latest))
  {
    ResumeGuard(s.ops[ev.op], ev.op, true);
    SubmitTaken(s, s.ops[ev.op].plan, ev.requestId, "", ev.actor, true, Some(ev.op), ev.e, latest, KeyOf(ev));
  }

  // ---- Replies ------------------------------------------------------------------------------------

  /** A reply of a serving host is true of the state it leaves: the record shown is the one stored,
      an outcome reported as lost left its operation in progress, and a refusal entered nothing.
      Only a host that died says nothing. */
  ghost predicate TrueReply(s: Sys, s': Sys, reply: Reply) {
    match reply
    case Shows(id, r) => s'.serving && id in s'.ops && s'.ops[id] == r
    case NotSaved(id) => s'.serving && id in s'.ops && s'.ops[id].status == InProgress && |s'.execs| > |s.execs|
    case Silence => !s'.serving
    case _ => s'.serving && Idle(s, s')
  }

  lemma FinishReplies(s: Sys, id: Id, r: OpRecord, latest: Plan, res: Switch.Result, e: Inputs)
    requires id in s.ops && s.ops[id].status == InProgress && e.legacyOp !in s.ops && s.serving
    ensures var (s', reply) := FinishEffect(s, id, r, latest, res, e);
      (reply == NotSaved(id) && s'.serving && id in s'.ops && s'.ops[id].status == InProgress && s'.execs == s.execs)
      || (reply.Shows? && TrueReply(s, s', reply)) || (reply == Silence && !s'.serving)
  {}

  lemma ProceedReplies(s: Sys, id: Id, r: OpRecord, latest: Plan, key: Key, restart: bool, e: Inputs, run: Executor)
    requires s.serving && e.legacyOp !in s.ops && id != e.legacyOp
    ensures var (s', reply) := ProceedEffect(s, id, r, latest, key, restart, e, run); TrueReply(s, s', reply)
  {
    var (s1, saved) := SaveOp(s, id, r, e.saveFirst);
    if saved && r.status == InProgress {
      var exec := Exec(id, key, restart, latest.account, latest.target, latest.revision, r, FilesOf(latest, e));
      var (w, res) := run(s1.disk, latest, restart);
      if w.up {
        FinishReplies(s1.(disk := w.disk, execs := s1.execs + [exec]), id, r, latest, res, e);
      }
    }
  }

  lemma PlannedReplies(s: Sys, plan: Plan, latest: Option<Plan>, key: Key, sig: Signature, actor: Actor,
                       confirm: bool, existing: Option<Id>, e: Inputs, run: Executor)
    requires existing.Some? ==> existing.value in s.ops
    requires e.newOp !in s.ops && e.legacyOp !in s.ops && e.newOp != e.legacyOp && (latest.Some? ==> s.serving)
    ensures var (s', reply) := PlannedEffect(s, plan, latest, key, sig, actor, confirm, existing, e, run);
      TrueReply(s, s', reply)
  {
    if latest.Some? {
      var base := if existing.Some? then s.ops[existing.value] else NewRecord(latest.value);
      var id := if existing.Some? then existing.value else e.newOp;
      var sure := confirm && !OutOfDate(plan, latest.value);
      ProceedReplies(s, id, Draft(base, latest.value, e.newPlan, key, sig, actor, sure), latest.value, key,
                     sure && actor == Ui, e, run);
    }
  }

  lemma LaterReply(s: Sys, s1: Sys, s': Sys, reply: Reply)
    requires Idle(s, s1) && TrueReply(s1, s', reply)
    ensures TrueReply(s, s', reply)
  {}

  lemma PreviewIdles(s: Sys, accountRef: string, target: string, e: Inputs)
    ensures var (s1, latest) := PreviewEffect(s, accountRef, target, e);
      Idle(s, s1) && (s.serving && latest.Some? ==> s1.serving)
  {}

  lemma NewRequestReplies(s: Sys, planId: Id, key: Key, sig: Signature, actor: Actor, confirm: bool,
                          existing: Option<Id>, e: Inputs, run: Executor)
    requires existing.Some? ==> existing.value in s.ops
    requires s.serving && e.newOp !in s.ops && e.legacyOp !in s.ops && e.newOp != e.legacyOp
    ensures var (s', reply) := NewRequestEffect(s, planId, key, sig, actor, confirm, existing, e, run);
      TrueReply(s, s', reply)
  {
    if planId in s.plans {
      var plan := s.plans[planId];
      PreviewIdles(s, plan.accountId, plan.target, e);
      var (s1, latest) := PreviewEffect(s, plan.accountId, plan.target, e);
      var (s', reply) := PlannedEffect(s1, plan, latest, key, sig, actor, confirm, existing, e, run);
      PlannedReplies(s1, plan, latest, key, sig, actor, confirm, existing, e, run);
      LaterReply(s, s1, s', reply);
    }
  }

  lemma SubmitReplies(s: Sys, planId: Id, requestId: string, idem: Key, actor: Actor, confirm: bool,
                      existing: Option<Id>, e: Inputs, run: Executor)
    requires existing.Some? ==> existing.value in s.ops
    requires s.serving && e.newOp !in s.ops && e.legacyOp !in s.ops && e.newOp != e.legacyOp
    ensures var (s', reply) := SubmitEffect(s, planId, requestId, idem, actor, confirm, existing, e, run);
      TrueReply(s, s', reply)
  {
    var key := Or(idem, Or(requestId, e.newRequest));
    KeyFromSound(s, key, 0);
    NewRequestReplies(s, planId, key, SignatureOf(planId, confirm, existing), actor, confirm, existing, e, run);
  }

  lemma ResumeReplies(s: Sys, id: Id, requestId: string, idem: Key, actor: Actor, confirm: bool, e: Inputs,
                      run: Executor)
    requires s.serving && e.newOp !in s.ops && e.legacyOp !in s.ops && e.newOp != e.legacyOp
    ensures var (s', reply) := ResumeEffect(s, id, requestId, idem, actor, confirm, e, run); TrueReply(s, s', reply)
  {
    if id in s.ops {
      SubmitReplies(s, s.ops[id].plan, requestId, idem, actor, confirm, Some(id), e, run);
    }
  }

  lemma CancelReplies(s: Sys, id: Id, save: Fate)
    requires s.serving
    ensures var (s', reply) := CancelEffect(s, id, save); TrueReply(s, s', reply)
  {}

  /** What the host answers. */
  function ReplyTo(s: Sys, ev: Event): Reply
    requires Asks(ev) || ev.CancelReq?
  {
    match ev
    case SubmitReq(_, _, _, _, _) => SubmitReply(s, ev)
    case ConfirmReq(op, req, actor, e) => ConfirmEffect(s, op, req, actor, e, RealSwitch(e)).1
    case RetryReq(op, req, idem, actor, e) => ResumeEffect(s, op, req, idem, actor, false, e, RealSwitch(e)).1
    case CancelReq(op, save) => CancelEffect(s, op, save).1
  }

  /** Every reply of a serving host is true. */
  lemma RepliesAreTrue(s: Sys, ev: Event)
    requires s.serving && NewIds(s, ev) && (Asks(ev) || ev.CancelReq?)
    ensures TrueReply(s, Step(s, ev), ReplyTo(s, ev))
  {
    match ev
    case SubmitReq(plan, req, idem, actor, e) =>
      SubmitReplies(s, plan, req, idem, actor, false, None, e, RealSwitch(e));
    case ConfirmReq(op, req, actor, e) => ResumeReplies(s, op, req, "", actor, true, e, RealSwitch(e));
    case RetryReq(op, req, idem, actor, e) => ResumeReplies(s, op, req, idem, actor, false, e, RealSwitch(e));
    case CancelReq(op, save) => CancelReplies(s, op, save);
  }

  /** What is no name of a saved plan is refused. */
  lemma UnknownPlanStops(s: Sys, ev: Event)
    requires s.serving && ev.SubmitReq? && Unused(s, KeyOf(ev)) && (!ValidSlotName(ev.plan) || ev.plan !in s.plans)
    ensures SubmitReply(s, ev) == Refused && Step(s, ev) == s
  {
    UnusedKey(s, KeyOf(ev));
  }

  /** An expired plan is stale. */
  lemma ExpiredSubmissionStops(s: Sys, ev: Event)
    requires s.serving && ev.SubmitReq? && Unused(s, KeyOf(ev)) && ValidSlotName(ev.plan) && ev.plan in s.plans
    requires ev.e.expired
    ensures SubmitReply(s, ev) == Stale && Step(s, ev) == s
  {
    UnusedKey(s, KeyOf(ev));
  }

  /** Why a retry or a confirmation is turned down at once, in this order: not from the web session
      or an unknown operation; settled or running, which is shown; a doubtful recovery; nothing to
      confirm. The request then changes nothing. */
  lemma TurnedDown(s: Sys, ev: Event)
    requires s.serving && (ev.ConfirmReq? || ev.RetryReq?)
    ensures var reply, same := ReplyTo(s, ev), Step(s, ev) == s;
      if (ev.ConfirmReq? && ev.actor != Ui) || !ValidSlotName(ev.op) || ev.op !in s.ops then reply == Refused && same
      else
        var r := s.ops[ev.op];
        if r.status == Succeeded || r.status == Cancelled || r.status == InProgress then
          reply == Shows(ev.op, r) && same
        else if r.recovery == OpRecovery.RecoveryFailed || r.recovery == Unknown then reply == RecoveryBlocked && same
        else ev.ConfirmReq? && (r.status != WaitingUser || r.code != Gate(Preview.AppRestartRequired)) ==>
               reply == Refused && same
  {}
}
