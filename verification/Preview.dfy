/** The preview gate, and why it predicts the executor. */
module Preview {
  import opened Options
  import opened Accounts
  import opened Clients
  import opened Disk
  import opened Reconcile
  import opened Switch
  import opened Guarantees
  import FixedPoint
  import Transaction

  datatype Decision = Ready | WaitingUser | Stopped | Noop
  datatype Code = NoCode | QueryFailedCode | CliInUse | AppRestartRequired | CredentialConflict

  /** What one client's state does to the decision reached so far. */
  function Escalate(p: (Decision, Code), st: ClientState): (Decision, Code) {
    if st.reason == QueryFailed || PresenceOf(st) == PresenceUnknown then (Stopped, QueryFailedCode)
    else if st.reason == CliRunning && p.0 != Stopped then (WaitingUser, CliInUse)
    else if st.reason == AppRunning && p.0 == Ready then (WaitingUser, AppRestartRequired)
    else p
  }

  function Gate(cs: seq<Client>, inspect: Client -> ClientState): (Decision, Code) {
    if cs == [] then (Ready, NoCode)
    else Escalate(Gate(cs[..|cs| - 1], inspect), inspect(cs[|cs| - 1]))
  }

  /** How much a single client state holds a switch back. */
  function Severity(st: ClientState): nat {
    if st.reason == QueryFailed || PresenceOf(st) == PresenceUnknown then 3
    else if st.reason == CliRunning then 2
    else if st.reason == AppRunning then 1
    else 0
  }

  function DecisionAt(level: nat): (Decision, Code)
    requires level <= 3
  {
    if level == 3 then (Stopped, QueryFailedCode)
    else if level == 2 then (WaitingUser, CliInUse)
    else if level == 1 then (WaitingUser, AppRestartRequired)
    else (Ready, NoCode)
  }

  ghost predicate TopSeverity(cs: seq<Client>, inspect: Client -> ClientState, level: nat) {
    && level <= 3
    && (forall c :: c in cs ==> Severity(inspect(c)) <= level)
    && (level > 0 ==> exists c :: c in cs && Severity(inspect(c)) == level)
  }

  lemma TopGrows(init: seq<Client>, last: Client, inspect: Client -> ClientState, level: nat)
    requires TopSeverity(init, inspect, level)
    ensures var top := if Severity(inspect(last)) > level then Severity(inspect(last)) else level;
      TopSeverity(init + [last], inspect, top)
  {
    var cs := init + [last];
    if Severity(inspect(last)) > level {
      assert last in cs;
    } else if level > 0 {
      var c :| c in init && Severity(inspect(c)) == level;
      assert c in cs;
    }
  }

  lemma EscalateIsMaximum(level: nat, st: ClientState)
    requires level <= 3
    ensures Escalate(DecisionAt(level), st) == DecisionAt(if Severity(st) > level then Severity(st) else level)
  {}

  /** The loop computes the greatest severity among the clients, so their order, and how
      often each is listed, does not matter. */
  lemma {:induction false} GateIsMaximum(cs: seq<Client>, inspect: Client -> ClientState)
    ensures exists level :: TopSeverity(cs, inspect, level) && Gate(cs, inspect) == DecisionAt(level)
  {
    if cs == [] {
      assert TopSeverity(cs, inspect, 0) && Gate(cs, inspect) == DecisionAt(0);
    } else {
      var init, last := cs[..|cs| - 1], cs[|cs| - 1];
      GateIsMaximum(init, inspect);
      var level :| TopSeverity(init, inspect, level) && Gate(init, inspect) == DecisionAt(level);
      TopGrows(init, last, inspect, level);
      EscalateIsMaximum(level, inspect(last));
      assert cs == init + [last];
    }
  }

  lemma GateOrderIndependent(cs: seq<Client>, ds: seq<Client>, inspect: Client -> ClientState)
    requires forall c :: c in cs <==> c in ds
    ensures Gate(cs, inspect) == Gate(ds, inspect)
  {
    GateIsMaximum(cs, inspect);
    GateIsMaximum(ds, inspect);
  }

  /** Every affected client already holds the seat. */
  predicate Already(cs: seq<Client>, live: Client -> Option<Auth>, id: Identity) {
    forall c :: c in cs ==> live(c).Some? && SameSeat(live(c).value.id, id)
  }

  function Decide(lib: Library, id: Identity, affected: seq<Client>, inspect: Client -> ClientState,
                  live: Client -> Option<Auth>, lives: seq<Auth>): (Decision, Code) {
    var gate := Gate(affected, inspect);
    if AllSuspects(lib, lives) != [] then (Stopped, CredentialConflict)
    else if Already(affected, live, id) && gate.1 != QueryFailedCode then (Noop, NoCode)
    else gate
  }

  /** The answers a preview can give. */
  predicate Answers(decision: Decision, code: Code) {
    match decision
    case Ready => code == NoCode
    case Noop => code == NoCode
    case WaitingUser => code == CliInUse || code == AppRestartRequired
    case Stopped => code == QueryFailedCode || code == CredentialConflict
  }

  lemma DecisionAnswers(lib: Library, id: Identity, affected: seq<Client>, inspect: Client -> ClientState,
                        live: Client -> Option<Auth>, lives: seq<Auth>)
    ensures var (decision, code) := Decide(lib, id, affected, inspect, live, lives); Answers(decision, code)
  {
    GateIsMaximum(affected, inspect);
  }

  lemma InspectedOneMore(cs: seq<Client>, i: nat, inspect: Client -> ClientState, live: Client -> Option<Auth>,
                         id: Identity)
    requires i < |cs|
    ensures Gate(cs[..i + 1], inspect) == Escalate(Gate(cs[..i], inspect), inspect(cs[i]))
    ensures Already(cs[..i + 1], live, id) <==>
      Already(cs[..i], live, id) && live(cs[i]).Some? && SameSeat(live(cs[i]).value.id, id)
  {
    assert cs[..i + 1][..i] == cs[..i];
    assert cs[..i + 1] == cs[..i] + [cs[i]];
  }

  /** The loop of Preview over the affected clients. */
  method InspectAffected(id: Identity, affected: seq<Client>, inspect: Client -> ClientState,
                         live: Client -> Option<Auth>)
    returns (decision: Decision, code: Code, already: bool)
    ensures (decision, code) == Gate(affected, inspect) && decision != Noop
    ensures already == Already(affected, live, id)
  {
    decision, code, already := Ready, NoCode, true;
    var i := 0;
    while i < |affected|
      invariant 0 <= i <= |affected|
      invariant (decision, code) == Gate(affected[..i], inspect)
      invariant already == Already(affected[..i], live, id)
      invariant decision != Noop
    {
      InspectedOneMore(affected, i, inspect, live, id);
      var c := affected[i];
      var st := inspect(c);
      if st.reason == QueryFailed || PresenceOf(st) == PresenceUnknown {
        decision, code := Stopped, QueryFailedCode;
      } else if st.reason == CliRunning && decision != Stopped {
        decision, code := WaitingUser, CliInUse;
      } else if st.reason == AppRunning && decision == Ready {
        decision, code := WaitingUser, AppRestartRequired;
      }
      var auth := live(c);
      if auth.None? || !SameSeat(auth.value.id, id) {
        already := false;
      }
      i := i + 1;
    }
    assert affected[..|affected|] == affected;
  }

  /** The decision part of Preview. `live` is what each affected client's file decodes to and
      `lives` the bundles of all clients. */
  method PreviewDecision(lib: Library, id: Identity, affected: seq<Client>, inspect: Client -> ClientState,
                         live: Client -> Option<Auth>, lives: seq<Auth>)
    returns (decision: Decision, code: Code, already: bool)
    ensures (decision, code) == Decide(lib, id, affected, inspect, live, lives)
    ensures already && decision == Noop <==>
      AllSuspects(lib, lives) == [] && Already(affected, live, id) && Gate(affected, inspect).1 != QueryFailedCode
  {
    decision, code, already := InspectAffected(id, affected, inspect, live);
    var conflicts := CredentialConflicts(lib, lives);
    if conflicts != [] {
      decision, code, already := Stopped, CredentialConflict, false;
    } else if already && code != QueryFailedCode {
      decision, code := Noop, NoCode;
    }
  }

  // ---- Prediction -------------------------------------------------------------------------

  /** The preview looked at the same probes, and at all the files the executor may see. */
  ghost predicate SameView(env: Env, inspect: Client -> ClientState, seen: seq<Auth>, lives: seq<Auth>) {
    && (forall c: Client :: inspect(c) == InspectClient(c, env.probe(c)))
    && (forall a :: a in seen ==> a in lives)
  }

  lemma NoSuspects(lib: Library, lives: seq<Auth>)
    ensures AllSuspects(lib, lives) == [] <==> forall n :: n in lib.listing ==> !Suspect(lib, lives, n)
  {
    SuspectsMembers(lib, lives, |lib.listing|);
    assert lib.listing[..|lib.listing|] == lib.listing;
    FixedPoint.SomeMember(AllSuspects(lib, lives));
  }

  /** A preview without conflicts leaves the executor none, even if it reads fewer files. */
  lemma NoConflictLater(lib: Library, lives: seq<Auth>, seen: seq<Auth>)
    requires forall a :: a in seen ==> a in lives
    requires AllSuspects(lib, lives) == []
    ensures AllConflicts(lib, seen) == []
  {
    NoSuspects(lib, lives);
    ConflictsMembers(lib, seen, |lib.listing|);
    assert lib.listing[..|lib.listing|] == lib.listing;
    forall n | n in lib.listing
      ensures !InConflict(lib, seen, n)
    {
      if InConflict(lib, seen, n) {
        DetectorsPartExactly(lib, seen, n);
        var stored := Get(lib, n).value;
        SeatMatesMembers(seen, stored.id);
        SeatMatesMembers(lives, stored.id);
        ConflictMonotone([stored] + SeatMates(seen, stored.id), [stored] + SeatMates(lives, stored.id));
      }
    }
    FixedPoint.SomeMember(AllConflicts(lib, seen));
  }

  /** What the gate's answer says about the probes. */
  lemma GateOnProbes(cs: seq<Client>, env: Env, inspect: Client -> ClientState)
    requires forall c: Client :: inspect(c) == InspectClient(c, env.probe(c))
    ensures Gate(cs, inspect).1 == QueryFailedCode <==> QueryFails(cs, env)
    ensures Gate(cs, inspect).0 == Ready <==> forall c :: c in cs ==> env.probe(c) == NotRunning
    ensures Gate(cs, inspect).1 == CliInUse <==>
      !QueryFails(cs, env) && exists c :: c in cs && c.kind != App && env.probe(c) == Running
    ensures Gate(cs, inspect).1 == AppRestartRequired <==>
      && (exists c :: c in cs && c.kind == App && env.probe(c) == Running)
      && (forall c :: c in cs && c.kind != App ==> env.probe(c) == NotRunning)
      && !QueryFails(cs, env)
    ensures Gate(cs, inspect).1 != CredentialConflict
  {
    GateIsMaximum(cs, inspect);
    var level :| TopSeverity(cs, inspect, level) && Gate(cs, inspect) == DecisionAt(level);
    forall c | c in cs
      ensures Severity(inspect(c)) == 3 <==> StateOf(c, env).reason == QueryFailed
      ensures Severity(inspect(c)) == 0 <==> env.probe(c) == NotRunning
      ensures Severity(inspect(c)) == 2 <==> c.kind != App && env.probe(c) == Running
      ensures Severity(inspect(c)) == 1 <==> c.kind == App && env.probe(c) == Running
    {}
    if level > 0 {
      var c :| c in cs && Severity(inspect(c)) == level;
      assert level == 1 ==> Busy(c, env);
    }
  }

  lemma HeldMembers(cs: seq<Client>, env: Env, force: bool)
    ensures Held(cs, env, force) != {} <==>
      exists c :: c in cs && Busy(c, env) && (c.kind == Cli || (c.kind == App && !force))
  {
    if c :| c in cs && Busy(c, env) && (c.kind == Cli || (c.kind == App && !force)) {
      assert c.storage in Held(cs, env, force);
    }
    if Held(cs, env, force) != {} {
      var s :| s in Held(cs, env, force);
    }
  }

  /** What a preview promises about the executor's report: ready leads to completed or
      failed; a required App restart to pending, or with force to completed or failed; a
      failed query to blocked; CLI_IN_USE to pending exactly if a client of kind cli (or,
      without force, the App) is running. */
  ghost predicate Foretells(preview: (Decision, Code), affected: seq<Client>, env: Env, force: bool, status: Status) {
    && (preview.0 == Ready ==> status == Completed || status == Failed)
    && (preview.1 == AppRestartRequired ==>
        if force then status == Completed || status == Failed else status == Pending)
    && (preview.1 == QueryFailedCode ==> status == Blocked)
    && (preview.1 == CliInUse ==>
          (status == Pending <==>
            exists c :: c in affected && Busy(c, env) && (c.kind == Cli || (c.kind == App && !force))))
  }

  /** The App was to be stopped and still runs. */
  predicate StopFails(affected: seq<Client>, env: Env, force: bool) {
    force && BusyApp(affected, env) && env.stillRunning
  }

  /** The executor's report as its gates decide it, in their order: the probes, the held
      storages, stopping the App, and the conflicts it sees. */
  ghost predicate Gated(affected: seq<Client>, env: Env, force: bool, conflicts: seq<Name>, status: Status) {
    if QueryFails(affected, env) then status == Blocked
    else if Held(affected, env, force) != {} then status == Pending
    else if StopFails(affected, env, force) then status == Failed
    else if conflicts != [] then status == Blocked
    else status == Completed || status == Failed
  }

  lemma GateForetells(affected: seq<Client>, env: Env, inspect: Client -> ClientState, force: bool,
                      conflicts: seq<Name>, status: Status)
    requires forall c: Client :: inspect(c) == InspectClient(c, env.probe(c))
    requires Gated(affected, env, force, conflicts, status) && conflicts == []
    ensures Foretells(Gate(affected, inspect), affected, env, force, status)
  {
    GateOnProbes(affected, env, inspect);
    HeldMembers(affected, env, force);
  }

  lemma DecisionForetells(lib: Library, id: Identity, affected: seq<Client>, env: Env, inspect: Client -> ClientState,
                          live: Client -> Option<Auth>, force: bool, lives: seq<Auth>, seen: seq<Auth>, status: Status)
    requires SameView(env, inspect, seen, lives)
    requires Gated(affected, env, force, AllConflicts(lib, seen), status)
    ensures var preview := Decide(lib, id, affected, inspect, live, lives);
      && Foretells(preview, affected, env, force, status)
      && (preview.1 == CredentialConflict && seen == lives && NoParting(lib, lives) ==> status != Completed)
  {
    if AllSuspects(lib, lives) == [] {
      GateOnProbes(affected, env, inspect);
      NoConflictLater(lib, lives, seen);
      GateForetells(affected, env, inspect, force, AllConflicts(lib, seen), status);
    } else {
      DetectorsAgree(lib, lives);
    }
  }

  /** With the same probes and files the preview predicts the executor, whatever I/O fails
      in between; and a conflict it reports stops the executor, unless only foreign bundles clash. */
  lemma GatePredictsExecutor(io: Schedule, d0: Disk, clients: seq<Client>, name: Name, target: string, force: bool,
                             env: Env, inspect: Client -> ClientState, live: Client -> Option<Auth>, lives: seq<Auth>)
    requires Get(d0.lib, name).Some? && IsBundle(Get(d0.lib, name).value)
    requires Resolve(clients, target).Some?
    requires SameView(env, inspect, LivesSeen(io, d0, clients), lives)
    ensures var affected := Resolve(clients, target).value;
      var preview := Decide(d0.lib, Get(d0.lib, name).value.id, affected, inspect, live, lives);
      var status := UseEffect(io, Start(d0), clients, Call(name, target, force, false, false), env).1.status;
      && Foretells(preview, affected, env, force, status)
      && (preview.1 == CredentialConflict && LivesSeen(io, d0, clients) == lives && NoParting(d0.lib, lives) ==>
            status != Completed)
  {
    ExecutorGates(io, d0, clients, Call(name, target, force, false, false), env);
    DecisionForetells(d0.lib, Get(d0.lib, name).value.id, Resolve(clients, target).value, env, inspect, live, force,
                      lives, LivesSeen(io, d0, clients),
                      UseEffect(io, Start(d0), clients, Call(name, target, force, false, false), env).1.status);
  }

  /** When every affected client is an App or a CLI, CLI_IN_USE is pending even with force. */
  lemma CliInUseHolds(io: Schedule, d0: Disk, clients: seq<Client>, name: Name, target: string, force: bool,
                      env: Env, inspect: Client -> ClientState, live: Client -> Option<Auth>, lives: seq<Auth>)
    requires Get(d0.lib, name).Some? && IsBundle(Get(d0.lib, name).value)
    requires Resolve(clients, target).Some?
    requires SameView(env, inspect, LivesSeen(io, d0, clients), lives)
    requires forall c :: c in Resolve(clients, target).value ==> c.kind != OtherKind
    requires var id, affected := Get(d0.lib, name).value.id, Resolve(clients, target).value;
      Decide(d0.lib, id, affected, inspect, live, lives).1 == CliInUse
    ensures UseEffect(io, Start(d0), clients, Call(name, target, force, false, false), env).1.status == Pending
  {
    var affected := Resolve(clients, target).value;
    GateOnProbes(affected, env, inspect);
    var c :| c in affected && c.kind != App && env.probe(c) == Running;
    assert c.kind == Cli && Busy(c, env);
    GatePredictsExecutor(io, d0, clients, name, target, force, env, inspect, live, lives);
  }

  /** The report of a switch that passed the gates: completed or failed, with its recovery stated
      and the accounts refreshed besides the target. */
  predicate Concludes(r: Result, kept: seq<Name>) {
    (r.status == Completed || r.status == Failed) && r.recovery != Unstated && r.adopted == kept
  }

  lemma CommitReports(io: Schedule, w: World, env: Env, updates: map<Name, Auth>, tx: Tx, kept: seq<Name>)
    requires Adoptable(w.disk.lib, updates)
    ensures Concludes(Commit(io, w, env, updates, tx, kept).1, kept)
  {}

  lemma UndoReports(io: Schedule, w: World, tx: Tx, kept: seq<Name>)
    ensures Concludes(Undo(io, w, tx, kept).1, kept)
  {}

  lemma ApplyReports(io: Schedule, w: World, affected: seq<Client>, call: Call, env: Env,
                     updates: map<Name, Auth>, id: Identity, tx: Tx, kept: seq<Name>)
    requires Adoptable(w.disk.lib, updates)
    ensures Concludes(Apply(io, w, affected, call, env, updates, id, tx, kept).1, kept)
  {
    var w1 := WriteAll(io, w, tx, 0).0;
    WriteAllKeepsLibrary(io, w, tx, 0);
    var w2 := WriteStateFile(io, w1, Selected(call.name, ReadState(w1.disk.state))).0;
    var w3, storages := ClientsWrite(w2, env.appWrites), UniqueStorages(affected);
    VerifyKeepsDisk(io, w3, storages, id, 0);
    var w4 := Verify(io, w3, storages, id, 0).0;
    UndoReports(io, w1, tx, kept);
    UndoReports(io, w2, tx, kept);
    UndoReports(io, w3, tx, kept);
    UndoReports(io, w4, tx, kept);
    CommitReports(io, w4, env, updates, tx, kept);
  }

  lemma ExecutionReports(io: Schedule, w: World, affected: seq<Client>, call: Call, env: Env, updates: map<Name, Auth>)
    requires Get(w.disk.lib, call.name).Some? && Adoptable(w.disk.lib, updates)
    ensures Concludes(Execute(io, w, affected, call, env, updates).1, Kept(w.disk.lib, updates, call.name))
  {
    var auth := Chosen(w.disk.lib, updates, call.name);
    var (w1, tx) := Transaction.PrepareEffect(io, w, affected, auth);
    PrepareKeepsLibrary(io, w, affected, auth);
    if tx.Some? {
      ApplyReports(io, w1, affected, call, env, updates, auth.id, tx.value, Kept(w.disk.lib, updates, call.name));
    }
  }

  /** The executor's own gates decide its report up to what happens to the files. */
  lemma ExecutorGates(io: Schedule, d0: Disk, clients: seq<Client>, call: Call, env: Env)
    requires Get(d0.lib, call.name).Some? && IsBundle(Get(d0.lib, call.name).value)
    requires Resolve(clients, call.target).Some? && !call.dryRun
    ensures Gated(Resolve(clients, call.target).value, env, call.force,
                  AllConflicts(d0.lib, LivesSeen(io, d0, clients)),
                  UseEffect(io, Start(d0), clients, call, env).1.status)
  {
    ReadLivesKeepsDisk(io, Start(d0), clients, 0, []);
    var (w1, lives) := ReadLives(io, Start(d0), clients, 0, []);
    UpdatesAdoptable(d0.lib, lives);
    ExecutionReports(io, w1, Resolve(clients, call.target).value, call, env, Updates(d0.lib, lives));
  }
}
