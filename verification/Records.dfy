/** What a stored operation record says about the disk. */
module Records {
  import opened Options
  import opened Accounts
  import opened Clients
  import opened Disk
  import opened Operations
  import opened OperationProofs
  import Guarantees
  import Idempotence
  import Preview
  import Reconcile
  import Switch

  /** What a record's status and recovery promise about the disk d, for a switch from d0. */
  ghost predicate Truthful(r: OpRecord, d0: Disk, d: Disk, clients: seq<Client>, call: Switch.Call, env: Switch.Env,
                            updates: map<Name, Auth>) {
    && (r.status == Succeeded ==>
          && Resolve(clients, call.target).Some?
          && Guarantees.SwitchDone(d0, d, Resolve(clients, call.target).value, call, env, updates))
    && (r.status == WaitingUser || r.status == BlockedOp ==> d == d0)
    && (r.status == FailedOp && (r.recovery == Unknown || r.recovery == OpRecovery.NotNeeded) ==> d == d0)
    && (r.status == FailedOp && r.recovery == OpRecovery.Restored ==>
          && Resolve(clients, call.target).Some?
          && Guarantees.SwitchUndone(d0, d, Resolve(clients, call.target).value, env, updates))
    && (r.status == FailedOp && r.recovery == OpRecovery.RecoveryFailed ==> d.journal.Journal?)
  }

  lemma MirrorsAreTruthful(r: OpRecord, io: Schedule, d0: Disk, clients: seq<Client>, call: Switch.Call,
                           env: Switch.Env)
    requires !call.dryRun
    requires var (w, res) := Switch.UseEffect(io, Start(d0), clients, call, env); w.up && Mirrors(r, res)
    ensures Truthful(r, d0, Switch.UseEffect(io, Start(d0), clients, call, env).0.disk, clients, call, env,
                     Guarantees.Refreshed(io, d0, clients))
  {
    Guarantees.ReportIsTrue(io, d0, clients, call, env);
  }

  /** After an executor call the operation is still recorded in progress, or its record tells the
      truth about the disk: succeeded means switched, waiting and blocked mean untouched, failed
      means untouched, restored, or with the journal still there, as its recovery says. */
  lemma StoredOutcomeIsTrue(s: Sys, id: Id, r: OpRecord, latest: Plan, key: Key, restart: bool, e: Inputs)
    requires id in s.ops && s.ops[id] == r && e.legacyOp !in s.ops
    ensures var s' := RunEffect(s, id, r, latest, key, restart, e, RealSwitch(e)).0;
      && id in s'.ops
      && (s'.ops[id] == r || Truthful(s'.ops[id], s.disk, s'.disk, e.clients, CallOf(latest, restart), e.env,
                                         Guarantees.Refreshed(e.io, s.disk, e.clients)))
  {
    var (w, res) := RealSwitch(e)(s.disk, latest, restart);
    if w.up {
      var exec := Exec(id, key, restart, latest.account, latest.target, latest.revision, r, FilesOf(latest, e));
      var s1 := s.(disk := w.disk, execs := s.execs + [exec]);
      FinishMirrors(s1, id, r, latest, res, e);
      var t := FinishEffect(s1, id, r, latest, res, e).0.ops[id];
      if t != r {
        MirrorsAreTruthful(t, e.io, s.disk, e.clients, CallOf(latest, restart), e.env);
      }
    }
  }

  /** If the switch turns out pending, the executor leaves a record of its own next to the
      operation's, which waits for the client; none otherwise. */
  lemma PendingLeavesRecord(s: Sys, id: Id, r: OpRecord, latest: Plan, key: Key, restart: bool, e: Inputs)
    requires id in s.ops && s.ops[id] == r && e.legacyOp !in s.ops && e.saveResult == Works && e.saveLegacy == Works
    requires RealSwitch(e)(s.disk, latest, restart).0.up
    ensures var s', res := RunEffect(s, id, r, latest, key, restart, e, RealSwitch(e)).0,
                           RealSwitch(e)(s.disk, latest, restart).1;
      && id in s'.ops && s'.ops.Keys == s.ops.Keys + (if res.status == Switch.Pending then {e.legacyOp} else {})
      && (res.status == Switch.Pending ==>
            && s'.ops[id].status == WaitingUser && s'.ops[id].code == ClientInUse
            && s'.ops[e.legacyOp].status == LegacyPending && s'.ops[e.legacyOp].account == latest.account
            && s'.ops[e.legacyOp].target == if latest.target == "desktop" then "app" else latest.target)
  {}

  /** The switch fails before it touches anything: the account or the target is not there, or,
      past the probes and the held storages, the App was to be stopped and still runs. */
  ghost predicate FailsHarmlessly(d: Disk, clients: seq<Client>, call: Switch.Call, env: Switch.Env) {
    || Get(d.lib, call.name).None? || !IsBundle(Get(d.lib, call.name).value)
    || Resolve(clients, call.target).None?
    || (var affected := Resolve(clients, call.target).value;
        && !Switch.QueryFails(affected, env) && Switch.Held(affected, env, call.force) == {}
        && Preview.StopFails(affected, env, call.force))
  }

  lemma UnstatedExactly(io: Schedule, d0: Disk, clients: seq<Client>, call: Switch.Call, env: Switch.Env)
    requires !call.dryRun
    ensures var (w, res) := Switch.UseEffect(io, Start(d0), clients, call, env);
      && (res.status == Switch.Failed && res.recovery == Switch.Unstated <==> FailsHarmlessly(d0, clients, call, env))
      && (FailsHarmlessly(d0, clients, call, env) ==> w.up && w.disk == d0)
  {
    Switch.ReadLivesKeepsDisk(io, Start(d0), clients, 0, []);
    var (w1, lives) := Switch.ReadLives(io, Start(d0), clients, 0, []);
    Switch.UpdatesAdoptable(d0.lib, lives);
    if Get(d0.lib, call.name).Some? && Resolve(clients, call.target).Some? {
      var updates := Reconcile.Updates(d0.lib, lives);
      Preview.ExecutionReports(io, w1, Resolve(clients, call.target).value, call, env, updates);
    }
  }

  /** The recovery of an operation is recorded as unknown if and only if its switch failed
      harmlessly. */
  lemma UnknownRecoveryExactly(s: Sys, id: Id, r: OpRecord, latest: Plan, key: Key, restart: bool, e: Inputs)
    requires id in s.ops && s.ops[id] == r && e.legacyOp !in s.ops && e.saveResult == Works
    requires RealSwitch(e)(s.disk, latest, restart).0.up
    ensures var s' := RunEffect(s, id, r, latest, key, restart, e, RealSwitch(e)).0;
      id in s'.ops
      && (s'.ops[id].recovery == Unknown <==> FailsHarmlessly(s.disk, e.clients, CallOf(latest, restart), e.env))
  {
    UnstatedExactly(e.io, s.disk, e.clients, CallOf(latest, restart), e.env);
    ConcludedMirrors(r, RealSwitch(e)(s.disk, latest, restart).1);
  }

  /** So such a failure closes its operation for good, although nothing needs to be recovered. */
  lemma HarmlessFailureCloses(s: Sys, id: Id, r: OpRecord, latest: Plan, key: Key, restart: bool, e: Inputs)
    requires id in s.ops && s.ops[id] == r && e.legacyOp !in s.ops && e.saveResult == Works
    requires FailsHarmlessly(s.disk, e.clients, CallOf(latest, restart), e.env)
    ensures var s' := RunEffect(s, id, r, latest, key, restart, e, RealSwitch(e)).0;
      && id in s'.ops && s'.disk == s.disk
      && s'.ops[id].recovery == Unknown && Idempotence.Closed(s'.ops[id])
  {
    UnstatedExactly(e.io, s.disk, e.clients, CallOf(latest, restart), e.env);
    UnknownRecoveryExactly(s, id, r, latest, key, restart, e);
    ConcludedMirrors(r, RealSwitch(e)(s.disk, latest, restart).1);
  }
}
