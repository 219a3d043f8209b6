/** From the preview to the record: what a request that was let through can come to, and what a
    succeeded operation means. */
module Outcomes {
  import opened Options
  import opened Accounts
  import opened Clients
  import opened Disk
  import opened Operations
  import opened OperationProofs
  import opened Idempotence
  import Completion
  import Consent
  import Guarantees
  import Preview
  import Reconcile
  import Records
  import Switch
  import SwitchProofs

  // ---- The preview foretells the record --------------------------------------------------------

  /** On the same probes and files, a switch that the latest plan clears completes or fails. */
  lemma ClearedConcludes(d: Disk, accountRef: string, target: string, e: Inputs, latest: Plan, restart: bool)
    requires FreshPlan(d, accountRef, target, e) == Some(latest) && Cleared(latest, restart)
    requires Preview.SameView(e.env, e.inspect, Guarantees.LivesSeen(e.io, d, e.clients), e.lives)
    ensures var r := Switch.UseEffect(e.io, Start(d), e.clients, CallOf(latest, restart), e.env).1;
      r.status == Switch.Completed || r.status == Switch.Failed
  {
    if IsBundle(Get(d.lib, latest.account).value) {
      Preview.GatePredictsExecutor(e.io, d, e.clients, latest.account, TargetToCli(target), restart, e.env, e.inspect,
                                   e.live, e.lives);
    }
  }

  /** The operation of execution x, if its outcome could be saved, succeeded or failed. */
  ghost predicate Concludes(s': Sys, x: Exec) {
    x.op in s'.ops
    && (s'.ops[x.op] == x.before || s'.ops[x.op].status == Succeeded || s'.ops[x.op].status == FailedOp)
  }

  lemma ReportsConclude(s: Sys, s': Sys, ev: Event, a: Accepted)
    requires Asks(ev) && TookBy(s, s', ev, a, RealSwitch(ev.e)) && a.draft.status == InProgress
    requires Preview.SameView(ev.e.env, ev.e.inspect, Guarantees.LivesSeen(ev.e.io, s.disk, ev.e.clients), ev.e.lives)
    ensures Concludes(s', ExecOf(a, ev.actor, ev.e))
  {
    TookSettles(s, s', ev, a);
    ClearedConcludes(s.disk, a.plan.accountId, a.plan.target, ev.e, a.latest, a.confirm && ev.actor == Ui);
  }

  /** If the executor meets the probes and files that the preview met, an executed operation is
      recorded as succeeded or failed, or still in progress where the outcome could not be saved;
      never as waiting or blocked. */
  lemma ExecutedConcludes(s: Sys, ev: Event)
    requires Inv(s) && NewIds(s, ev) && s.serving && Asks(ev)
    requires Preview.SameView(ev.e.env, ev.e.inspect, Guarantees.LivesSeen(ev.e.io, s.disk, ev.e.clients), ev.e.lives)
    ensures var s' := Step(s, ev);
      s'.execs == s.execs || (|s'.execs| == |s.execs| + 1 && Concludes(s', s'.execs[|s.execs|]))
  {
    var a := AskRuns(s, ev);
    var s' := Serve(s, ev);
    if !Idle(s, s') {
      TookSettles(s, s', ev, a);
      if a.draft.status == InProgress {
        ReportsConclude(s, s', ev, a);
      }
    }
  }

  // ---- What a succeeded operation means ----------------------------------------------------------

  /** The preview saw the files as they are. */
  ghost predicate SeesFiles(d: Disk, e: Inputs) {
    forall c :: c in e.clients ==>
      e.live(c) == if c.storage in d.files then Decode(d.files[c.storage]) else None
  }

  /** Every file of the target holds the seat of the account. */
  ghost predicate Held(d: Disk, latest: Plan, e: Inputs) {
    && Get(d.lib, latest.account).Some? && Resolve(e.clients, TargetToCli(latest.target)).Some?
    && forall s :: s in FilesOf(latest, e) ==>
         Completion.Seated(Lookup(d.files, s), Get(d.lib, latest.account).value.id)
  }

  /** A plan is a no-op if and only if no credentials clash, no process query failed, and every
      file of the target already holds the seat of the account. */
  lemma NoopExactly(d: Disk, accountRef: string, target: string, e: Inputs, latest: Plan)
    requires FreshPlan(d, accountRef, target, e) == Some(latest) && SeesFiles(d, e)
    ensures latest.decision == Preview.Noop <==>
      && Reconcile.AllSuspects(d.lib, e.lives) == [] && Held(d, latest, e)
      && forall c :: c in Resolve(e.clients, TargetToCli(target)).value ==>
           e.inspect(c).reason != QueryFailed && PresenceOf(e.inspect(c)) != PresenceUnknown
  {
    var affected := Resolve(e.clients, TargetToCli(target)).value;
    var id := Get(d.lib, latest.account).value.id;
    QueriesFine(affected, e.inspect);
    AffectedAreClients(e.clients, TargetToCli(target));
    HeldExactly(d, latest, e, affected, id);
  }

  lemma QueriesFine(cs: seq<Client>, inspect: Client -> ClientState)
    ensures Preview.Gate(cs, inspect).0 != Preview.Noop
    ensures Preview.Gate(cs, inspect).1 != Preview.QueryFailedCode <==>
      forall c :: c in cs ==> inspect(c).reason != QueryFailed && PresenceOf(inspect(c)) != PresenceUnknown
  {
    Preview.GateIsMaximum(cs, inspect);
    var level :| Preview.TopSeverity(cs, inspect, level) && Preview.Gate(cs, inspect) == Preview.DecisionAt(level);
    assert forall c :: c in cs ==> (Preview.Severity(inspect(c)) == 3 <==>
      inspect(c).reason == QueryFailed || PresenceOf(inspect(c)) == PresenceUnknown);
  }

  lemma HeldExactly(d: Disk, latest: Plan, e: Inputs, affected: seq<Client>, id: Identity)
    requires Resolve(e.clients, TargetToCli(latest.target)) == Some(affected) && SeesFiles(d, e)
    requires Get(d.lib, latest.account).Some? && Get(d.lib, latest.account).value.id == id
    requires forall c :: c in affected ==> c in e.clients
    ensures Held(d, latest, e) <==> Preview.Already(affected, e.live, id)
  {
    if Preview.Already(affected, e.live, id) {
      forall s | s in FilesOf(latest, e)
        ensures Completion.Seated(Lookup(d.files, s), id)
      {
        var c :| c in affected && c.storage == s;
      }
    }
    if Held(d, latest, e) {
      forall c | c in affected
        ensures e.live(c).Some? && SameSeat(e.live(c).value.id, id)
      {
        assert c.storage in FilesOf(latest, e);
      }
    }
  }

  lemma AffectedAreClients(cs: seq<Client>, spec: string)
    ensures Resolve(cs, spec).Some? ==> forall c :: c in Resolve(cs, spec).value ==> c in cs
  {
    if Resolve(cs, spec).Some? && spec != "" && spec != "all" {
      Consent.SharingWithin(cs, StoragesOf(Picked(cs, SplitCommas(spec), |SplitCommas(spec)|).value));
    }
  }

  /** What it means for the disk d that operation a succeeded, starting from the disk d0. */
  ghost predicate SucceededTruly(d0: Disk, d: Disk, actor: Actor, e: Inputs, a: Accepted) {
    if a.latest.decision == Preview.Noop then d == d0 && Held(d, a.latest, e)
    else
      var call := CallOf(a.latest, a.confirm && actor == Ui);
      && Resolve(e.clients, call.target).Some?
      && Guarantees.SwitchDone(d0, d, Resolve(e.clients, call.target).value, call, e.env,
                               Guarantees.Refreshed(e.io, d0, e.clients))
  }

  lemma TookSucceedsTruly(s: Sys, s': Sys, ev: Event, a: Accepted)
    requires Asks(ev) && TookBy(s, s', ev, a, RealSwitch(ev.e)) && SeesFiles(s.disk, ev.e)
    requires a.id in s'.ops && s'.ops[a.id].status == Succeeded
    ensures SucceededTruly(s.disk, s'.disk, ev.actor, ev.e, a)
  {
    TookSettles(s, s', ev, a);
    if a.draft.status == InProgress {
      Records.MirrorsAreTruthful(s'.ops[a.id], ev.e.io, s.disk, ev.e.clients,
                                 CallOf(a.latest, a.confirm && ev.actor == Ui), ev.e.env);
    } else {
      NoopExactly(s.disk, a.plan.accountId, a.plan.target, ev.e, a.latest);
    }
  }

  /** An operation becomes succeeded only by a request, and then truly so: either its plan was a
      no-op and every file of the target already held the account's seat, or the switch was done. */
  lemma SucceededIsTrue(s: Sys, ev: Event, id: Id) returns (a: Accepted)
    requires Inv(s) && NewIds(s, ev) && (Asks(ev) ==> SeesFiles(s.disk, ev.e))
    requires id in Step(s, ev).ops && Step(s, ev).ops[id].status == Succeeded
    requires !(id in s.ops && s.ops[id].status == Succeeded)
    ensures Asks(ev) && a.id == id && SucceededTruly(s.disk, Step(s, ev).disk, ev.actor, ev.e, a)
  {
    a := StepShape(s, ev);
    var s' := Step(s, ev);
    MovesToSucceeded(s, s', ev, a, id);
    a := AskRuns(s, ev);
    OnlyTouches(s, s', ev, a, id);
    TookSucceedsTruly(s, s', ev, a);
  }

  lemma MarksStay(s: Sys, s': Sys, found: bool, recovered: bool, id: Id)
    requires Marks(s, s', found, recovered) && id in s'.ops && s'.ops[id].status == Succeeded
    ensures id in s.ops && s.ops[id].status == Succeeded
  {
    assert id in s.ops;
  }

  lemma MovesToSucceeded(s: Sys, s': Sys, ev: Event, a: Accepted, id: Id)
    requires Listed(s) && Moved(s, s', ev, a) && id in s'.ops && s'.ops[id].status == Succeeded
    requires !(id in s.ops && s.ops[id].status == Succeeded)
    ensures s.serving && Asks(ev) && !Idle(s, s')
  {
    if ev.StartHost? && Marks(s, s', FoundJournal(s), Recovered(s, ev)) {
      MarksStay(s, s', FoundJournal(s), Recovered(s, ev), id);
    }
  }

  /** Of the records that were not succeeded before, only the request's own can be so now. */
  lemma OnlyTouches(s: Sys, s': Sys, ev: Event, a: Accepted, id: Id)
    requires Listed(s) && NewIds(s, ev) && Took(s, s', ev, a)
    requires id in s'.ops && s'.ops[id].status == Succeeded && !(id in s.ops && s.ops[id].status == Succeeded)
    ensures id == a.id
  {
    if a.draft.status == InProgress {
      var d := Drafted(s, ev.e, a);
      assert Ran(d, s', ExecOf(a, ev.actor, ev.e), ev.e);
      assert id in d.ops;
    }
  }

  // ---- What a report lists as adopted --------------------------------------------------------------

  /** A completed switch lists as adopted exactly the accounts, other than the target's, whose
      saved refresh token it replaced, each once. */
  lemma AdoptedExactly(io: Schedule, d0: Disk, clients: seq<Client>, call: Switch.Call, env: Switch.Env)
    requires ListsSlots(d0.lib) && !call.dryRun
    ensures var (w, r) := Switch.UseEffect(io, Start(d0), clients, call, env);
      w.up && r.status == Switch.Completed ==>
      && (forall n :: n in r.adopted <==>
            && n != call.name && Get(d0.lib, n).Some? && Get(w.disk.lib, n).Some?
            && Get(w.disk.lib, n).value.refresh != Get(d0.lib, n).value.refresh)
      && forall i, j :: 0 <= i < j < |r.adopted| ==> r.adopted[i] != r.adopted[j]
  {
    var updates := Guarantees.Refreshed(io, d0, clients);
    var (w, r) := Switch.UseEffect(io, Start(d0), clients, call, env);
    if w.up && r.status == Switch.Completed {
      Guarantees.ReportIsTrue(io, d0, clients, call, env);
      Completion.SwitchCompletesExactly(io, d0, clients, call, env);
      AdoptedAreKept(io, d0, clients, call, env);
      Switch.UniqMembers(d0.lib.listing, updates.Keys - {call.name});
      UpdatesReplace(d0.lib, Guarantees.LivesSeen(io, d0, clients), w.disk.lib);
    }
  }

  lemma AdoptedAreKept(io: Schedule, d0: Disk, clients: seq<Client>, call: Switch.Call, env: Switch.Env)
    requires Guarantees.Executes(io, d0, clients, call, env)
    ensures Switch.UseEffect(io, Start(d0), clients, call, env).1.adopted
         == Switch.Kept(d0.lib, Guarantees.Refreshed(io, d0, clients), call.name)
  {
    Switch.ReadLivesKeepsDisk(io, Start(d0), clients, 0, []);
    var (w1, lives) := Switch.ReadLives(io, Start(d0), clients, 0, []);
    Switch.UpdatesAdoptable(d0.lib, lives);
    Preview.ExecutionReports(io, w1, Resolve(clients, call.target).value, call, env, Reconcile.Updates(d0.lib, lives));
  }

  /** An account is updated exactly if its saved refresh token changes. */
  lemma UpdatesReplace(lib: Library, lives: seq<Auth>, lib1: Library)
    requires ListsSlots(lib) && SwitchProofs.SlotsAdopted(lib, lib1, Reconcile.Updates(lib, lives))
    ensures forall n :: n in Reconcile.Updates(lib, lives) <==>
      Get(lib, n).Some? && Get(lib1, n).Some? && Get(lib1, n).value.refresh != Get(lib, n).value.refresh
  {
    var updates := Reconcile.Updates(lib, lives);
    forall n
      ensures n in updates <==>
        Get(lib, n).Some? && Get(lib1, n).Some? && Get(lib1, n).value.refresh != Get(lib, n).value.refresh
    {
      if Get(lib, n).Some? {
        assert lib1.slots[n] == SwitchProofs.AdoptedSlot(lib, updates, n);
        Reconcile.JudgeExact(Get(lib, n).value, Reconcile.LivesOf(lib, lives, n));
      }
    }
  }
}
