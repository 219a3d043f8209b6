/** From a history entry to the call: what the executor of this host did for an execution. */
module Execution {
  import opened Options
  import opened Accounts
  import opened Clients
  import opened Disk
  import opened Operations
  import opened OperationProofs
  import Guarantees
  import Switch

  /** A running App, or one whose query failed, is among the clients of the target. */
  ghost predicate AppInTheWay(cs: seq<Client>, target: string, env: Switch.Env) {
    && Resolve(cs, target).Some?
    && exists c :: c in Resolve(cs, target).value && c.kind == App && env.probe(c) != NotRunning
  }

  /** Some process query about the target's clients failed. */
  ghost predicate QueryBroken(cs: seq<Client>, target: string, env: Switch.Env) {
    Resolve(cs, target).Some? && exists c :: c in Resolve(cs, target).value && env.probe(c) == QueryError
  }

  /** A switch that may not restart the App changes nothing while the App is in the way; it is
      pending, or blocked if a query failed. */
  lemma AppHoldsSwitch(io: Schedule, d: Disk, clients: seq<Client>, call: Switch.Call, env: Switch.Env)
    requires !call.force && AppInTheWay(clients, call.target, env)
    ensures var (w, r) := Switch.UseEffect(io, Start(d), clients, call, env);
      && w == Start(d)
      && (Get(d.lib, call.name).Some? && IsBundle(Get(d.lib, call.name).value) ==>
            r.status == if QueryBroken(clients, call.target, env) then Switch.Blocked else Switch.Pending)
  {
    var affected := Resolve(clients, call.target).value;
    assert Switch.QueryFails(affected, env) <==> QueryBroken(clients, call.target, env);
    var c :| c in affected && c.kind == App && env.probe(c) != NotRunning;
    assert c.storage in StoragesOf(affected) && Switch.BusyAppOn(affected, env, c.storage);
    assert c.storage in Switch.Held(affected, env, false);
  }

  /** What the command line calls the target of an execution. */
  function CallTarget(x: Exec): string {
    if x.target == "desktop" then "app" else x.target
  }

  /** Execution x is one switch to its account on its target, which may restart the App only if
      x says so: the disk and the record are what that switch left and reported. It wrote no file
      but those of x, and none at all while an App that it may not restart is in the way. */
  ghost predicate Carried(d: Disk, s': Sys, e: Inputs, x: Exec) {
    var (w, r) := Switch.UseEffect(e.io, Start(d), e.clients,
                                   Switch.Call(x.account, CallTarget(x), x.restart, false, false), e.env);
    && s'.disk == w.disk && x.op in s'.ops
    && (s'.ops[x.op] == x.before || (w.up && Mirrors(s'.ops[x.op], r)))
    && Guarantees.SameFilesExcept(d, s'.disk, x.files + e.env.appWrites.Keys)
    && (!x.restart && AppInTheWay(e.clients, CallTarget(x), e.env) ==>
          && s'.disk == d
          && (s'.ops[x.op] == x.before || s'.ops[x.op].status != Succeeded)
          && (!QueryBroken(e.clients, CallTarget(x), e.env) && Get(d.lib, x.account).Some?
              && IsBundle(Get(d.lib, x.account).value) ==>
                s'.ops[x.op] == x.before || s'.ops[x.op].status == WaitingUser))
  }

  lemma SwitchIsCall(d: Disk, e: Inputs, x: Exec, latest: Plan)
    requires x.account == latest.account && x.target == latest.target
    ensures RealSwitch(e)(d, latest, x.restart) ==
      Switch.UseEffect(e.io, Start(d), e.clients, Switch.Call(x.account, CallTarget(x), x.restart, false, false), e.env)
  {
    assert CallOf(latest, x.restart) == Switch.Call(x.account, CallTarget(x), x.restart, false, false);
  }

  lemma ReportsCarried(d: Disk, s': Sys, e: Inputs, x: Exec, latest: Plan)
    requires Reports(d, s', x, latest, RealSwitch(e))
    requires x.account == latest.account && x.target == latest.target && x.files == FilesOf(latest, e)
    requires x.before.status == InProgress
    ensures Carried(d, s', e, x)
  {
    var call := Switch.Call(x.account, CallTarget(x), x.restart, false, false);
    SwitchIsCall(d, e, x, latest);
    Guarantees.WritesInScope(e.io, d, e.clients, call, e.env);
    if !x.restart && AppInTheWay(e.clients, call.target, e.env) {
      AppHoldsSwitch(e.io, d, e.clients, call, e.env);
    }
  }

  /** Every execution a request adds is carried out as its entry says, and a request that adds
      none changes nothing on the disk. */
  lemma ExecutionsCarried(s: Sys, ev: Event)
    requires Listed(s) && NewIds(s, ev) && s.serving && Asks(ev)
    ensures var s' := Step(s, ev);
      || (s'.execs == s.execs && s'.disk == s.disk)
      || (|s'.execs| == |s.execs| + 1 && s'.execs[..|s.execs|] == s.execs
          && Carried(s.disk, s', ev.e, s'.execs[|s.execs|]))
  {
    var a := AskRuns(s, ev);
    var s' := Serve(s, ev);
    if !Idle(s, s') && a.draft.status == InProgress {
      var x := ExecOf(a, ev.actor, ev.e);
      assert Ran(Drafted(s, ev.e, a), s', x, ev.e);
      ReportsCarried(s.disk, s', ev.e, x, a.latest);
      assert s'.execs[|s.execs|] == x;
    }
  }
}
