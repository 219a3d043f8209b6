/** What a switch demands of the account, the target and the running clients before it writes. */
module Clearance {
  import opened Options
  import opened Accounts
  import opened Clients
  import opened Disk
  import opened Reconcile
  import opened Store
  import opened Switch
  import opened Guarantees
  import Completion

  /** No client of the target is in the way: every process query worked, no CLI runs, and an App
      runs only if the switch may restart it and could stop it. */
  predicate OutOfTheWay(cs: seq<Client>, env: Env, force: bool) {
    forall c :: c in cs ==>
      && env.probe(c) != QueryError
      && (c.kind == Cli ==> env.probe(c) == NotRunning)
      && (c.kind == App && env.probe(c) == Running ==> force && !env.stillRunning)
  }

  /** No two bundles seen of one account, the saved one included, have different tokens that time
      does not order. */
  ghost predicate NothingClashes(lib: Library, lives: seq<Auth>) {
    forall n, a, b :: n in lib.listing && Get(lib, n).Some? && Seen(lib, lives, n, a) && Seen(lib, lives, n, b) ==>
      a.refresh == b.refresh
      || (a.refreshed.Some? && b.refreshed.Some? && a.refreshed.value != b.refreshed.value)
  }

  /** The bundle is the one saved in slot n, or an observed one that the library attributes to it. */
  ghost predicate Seen(lib: Library, lives: seq<Auth>, n: Name, a: Auth) {
    Get(lib, n) == Some(a) || (a in lives && Find(lib, a.id) == Some(n))
  }

  /** Two bundles seen of the account clash. */
  ghost predicate SomeClash(lib: Library, lives: seq<Auth>, n: Name) {
    exists a, b :: Seen(lib, lives, n, a) && Seen(lib, lives, n, b) && Clash(a, b)
  }

  lemma NoConflictExactly(lib: Library, lives: seq<Auth>, n: Name)
    requires Get(lib, n).Some?
    ensures InConflict(lib, lives, n) <==> SomeClash(lib, lives, n)
  {
    JudgeExact(Get(lib, n).value, LivesOf(lib, lives, n));
    LivesOfMembers(lib, lives, n);
    var cands := [Get(lib, n).value] + LivesOf(lib, lives, n);
    forall a
      ensures a in cands <==> Seen(lib, lives, n, a)
    {}
  }

  lemma NothingClashesExactly(lib: Library, lives: seq<Auth>)
    ensures AllConflicts(lib, lives) == [] <==> NothingClashes(lib, lives)
  {
    ConflictsMembers(lib, lives, |lib.listing|);
    assert lib.listing[..|lib.listing|] == lib.listing;
    forall n | n in lib.listing && Get(lib, n).Some?
      ensures InConflict(lib, lives, n) <==> SomeClash(lib, lives, n)
    {
      NoConflictExactly(lib, lives, n);
    }
    if AllConflicts(lib, lives) != [] {
      assert AllConflicts(lib, lives)[0] in AllConflicts(lib, lives);
    }
  }

  lemma GatesExactly(cs: seq<Client>, env: Env, force: bool)
    ensures !QueryFails(cs, env) && Held(cs, env, force) == {} && !(force && BusyApp(cs, env) && env.stillRunning)
            <==> OutOfTheWay(cs, env, force)
  {
    forall c: Client
      ensures Busy(c, env) <==> env.probe(c) != NotRunning
      ensures StateOf(c, env).reason == QueryFailed <==> env.probe(c) == QueryError
    {}
    forall c | c in cs && env.probe(c) == Running && Held(cs, env, force) == {}
      ensures c.kind != Cli && (c.kind == App ==> force && BusyApp(cs, env))
    {
      assert c.storage !in Held(cs, env, force) && c.storage in StoragesOf(cs);
    }
    if OutOfTheWay(cs, env, force) {
      forall s | s in StoragesOf(cs)
        ensures !BusyCliOn(cs, env, s) && (force || !BusyAppOn(cs, env, s))
      {}
    }
  }

  /** The call is for a saved, refreshable account and a known target, and nothing is in its way. */
  ghost predicate MaySwitch(io: Schedule, d0: Disk, clients: seq<Client>, call: Call, env: Env) {
    && Get(d0.lib, call.name).Some? && Refreshable(Get(d0.lib, call.name).value)
    && Resolve(clients, call.target).Some? && !call.dryRun
    && OutOfTheWay(Resolve(clients, call.target).value, env, call.force)
    && NothingClashes(d0.lib, LivesSeen(io, d0, clients))
  }

  /** The switch goes on to its journal exactly under these conditions. */
  lemma ExecutesExactly(io: Schedule, d0: Disk, clients: seq<Client>, call: Call, env: Env)
    ensures Executes(io, d0, clients, call, env) <==> MaySwitch(io, d0, clients, call, env)
  {
    NothingClashesExactly(d0.lib, LivesSeen(io, d0, clients));
    if Resolve(clients, call.target).Some? {
      GatesExactly(Resolve(clients, call.target).value, env, call.force);
    }
  }

  /** Whatever fails, a switch changes something on the disk only under these conditions. */
  lemma WritesOnlyWhenClear(io: Schedule, d0: Disk, clients: seq<Client>, call: Call, env: Env)
    ensures UseEffect(io, Start(d0), clients, call, env).0.disk != d0 ==> MaySwitch(io, d0, clients, call, env)
  {
    ExecutesExactly(io, d0, clients, call, env);
    if !Executes(io, d0, clients, call, env) {
      StopsUnchanged(io, d0, clients, call, env);
    }
  }

  /** A completed switch has started the App again if it stopped one, and has opened it if asked to. */
  lemma AppIsStarted(io: Schedule, d0: Disk, clients: seq<Client>, call: Call, env: Env)
    requires !call.dryRun
    ensures UseEffect(io, Start(d0), clients, call, env).1.status == Completed ==>
      && Resolve(clients, call.target).Some?
      && var affected := Resolve(clients, call.target).value;
         ((exists c :: c in affected && c.kind == App && (call.open || (call.force && env.probe(c) == Running)))
          || (call.open && !env.runningNow)
          ==> env.started)
  {
    Completion.SwitchCompletesExactly(io, d0, clients, call, env);
  }
}
