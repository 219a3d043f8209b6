/** Disks on which a promise fails: the conditions proved elsewhere are not empty. */
module Counterexamples {
  import opened Options
  import opened Accounts
  import opened Clients
  import opened Disk
  import opened Reconcile
  import opened Store
  import opened Switch
  import opened Transaction
  import opened Guarantees
  import opened Completion
  import Consent
  import FixedPoint
  import Operations
  import Preview

  // ---- Common parts ---------------------------------------------------------------------------

  function Person(user: string): Identity {
    Identity("chatgpt", "w", user, "", "", "")
  }

  function Token(user: string, refresh: string, at: int): Auth {
    Auth(Person(user), refresh, Some(at), 0)
  }

  function Holding(a: Auth): Slot {
    Slot(Readable(a), Some(1))
  }

  /** Every probe gives the same answer, and no client writes. */
  function Everywhere(answer: Answer): Env {
    Env(_ => answer, false, false, true, map[], [])
  }

  function Plainly(name: Name, target: string): Call {
    Call(name, target, false, false, false)
  }

  /** A library with one account. */
  function Solo(a: Auth): Library {
    Library(["work"], map["work" := Holding(a)])
  }

  lemma SoloAccount(a: Auth)
    ensures Get(Solo(a), "work") == Some(a)
  {
    assert ValidSlotName("work");
  }

  /** With no bundle observed nothing conflicts. */
  lemma NothingObserved(a: Auth)
    ensures AllSuspects(Solo(a), []) == [] && AllConflicts(Solo(a), []) == []
  {
    assert Suspects(Solo(a), [], 0) == [];
    DetectorsAgree(Solo(a), []);
    if n :| n in AllConflicts(Solo(a), []) {
      assert n in AllSuspects(Solo(a), []);
    }
    FixedPoint.SomeMember(AllConflicts(Solo(a), []));
  }

  lemma SomeLive(lives: seq<Auth>)
    ensures lives != [] ==> exists a :: a in lives
  {
    if lives != [] {
      assert lives[0] in lives;
    }
  }

  lemma NoFilesNoLives(io: Schedule, d: Disk, cs: seq<Client>)
    requires d.files == map[]
    ensures LivesSeen(io, d, cs) == []
  {
    ReadLivesSound(io, Start(d), cs, 0, []);
    var lives := LivesSeen(io, d, cs);
    SomeLive(lives);
  }

  // ---- A client of another kind ------------------------------------------------------------------

  function Stranger(): Client {
    Client("x", OtherKind, "X", "s")
  }

  lemma StrangerGate(inspect: Client -> ClientState)
    requires inspect(Stranger()) == InspectClient(Stranger(), Running)
    ensures Preview.Gate([Stranger()], inspect) == (Preview.WaitingUser, Preview.CliInUse)
  {
    var cs := [Stranger()];
    assert cs[..0] == [];
    assert Preview.Gate(cs[..0], inspect) == (Preview.Ready, Preview.NoCode);
  }

  /** The preview's inspection, on the probes of the executor. */
  function Looking(env: Env): Client -> ClientState {
    c => InspectClient(c, env.probe(c))
  }

  lemma StrangerPreviewed(a: Auth)
    ensures Preview.Decide(Solo(a), a.id, [Stranger()], Looking(Everywhere(Running)), _ => None, [])
         == (Preview.WaitingUser, Preview.CliInUse)
  {
    NothingObserved(a);
    StrangerGate(Looking(Everywhere(Running)));
    assert [Stranger()][0] in [Stranger()];
  }

  /** The executor's gates look at Apps and CLIs only. */
  lemma StrangerPasses()
    ensures var cs, env := [Stranger()], Everywhere(Running);
      !QueryFails(cs, env) && Held(cs, env, false) == {} && !NeedsStart(cs, env, Plainly("work", "all"))
  {
    Preview.HeldMembers([Stranger()], Everywhere(Running), false);
  }

  /** A client that is neither App nor CLI runs: the preview says CLI_IN_USE, and the executor,
      on the same probes and files, writes its file and completes. */
  lemma OtherKindIsWritten(io: Schedule)
    requires AllWorks(io)
    ensures var a, cs := Token("u", "R", 1), [Stranger()];
      var d0, env := Disk(map[], NoJournal, None, Solo(a)), Everywhere(Running);
      && Resolve(cs, "all") == Some(cs)
      && Preview.Decide(d0.lib, a.id, cs, Looking(env), _ => None, LivesSeen(io, d0, cs))
         == (Preview.WaitingUser, Preview.CliInUse)
      && UseEffect(io, Start(d0), cs, Plainly("work", "all"), env).1.status == Completed
  {
    var a, cs := Token("u", "R", 1), [Stranger()];
    var d0, env := Disk(map[], NoJournal, None, Solo(a)), Everywhere(Running);
    SoloAccount(a);
    NothingObserved(a);
    NoFilesNoLives(io, d0, cs);
    StrangerPreviewed(a);
    StrangerPasses();
    QuietSwitchCompletesExactly(io, d0, cs, Plainly("work", "all"), env);
  }

  // ---- A label that is another client's id --------------------------------------------------------

  /** Two command-line clients on two storages; the second one's label is the first one's id in another case. */
  function Namesakes(): seq<Client> {
    [Client("a", Cli, "First", "s1"), Client("b", Cli, "A", "s2")]
  }

  lemma NamesakesNamed()
    ensures NamedBy(Namesakes()[0], "a") && NamedBy(Namesakes()[1], "a")
    ensures SplitCommas("a") == ["a"] && Trim("a") == "a"
  {
    Consent.NoCommaOnePart("a");
    assert "a" in SplitCommas("a");
    assert Lower("A") == Lower("a");
  }

  lemma NamesakesView()
    ensures Operations.TargetById(Operations.TargetList(Namesakes()), "a") == Some(Operations.TargetView("a", ["a"]))
  {
    var cs := Namesakes();
    assert cs[..1][..0] == [] && cs[..1] == [cs[0]] && cs[..|cs| - 1] == cs[..1];
    var first := Operations.TargetView("a", ["a"]);
    assert Operations.CliTargets(cs[..1]) == [first];
    assert Operations.CliTargets(cs)[0] == first;
    assert Operations.FirstApp(cs, 2) == None && Operations.FirstApp(cs, 1) == None;
    assert Operations.TargetList(cs)[0] == first;
  }

  lemma NamesakesResolve()
    ensures UniqueIds(Namesakes()) && Resolve(Namesakes(), "a").Some?
    ensures "s2" in StoragesOf(Resolve(Namesakes(), "a").value)
    ensures Consent.MemberStorages(Namesakes(), ["a"]) == {"s1"}
  {
    var cs := Namesakes();
    NamesakesNamed();
    assert cs[0] in cs && cs[1] in cs && Named(cs[0], "a");
    ResolveExactly(cs, "a");
    assert cs[1].storage in NamedStorages(cs, "a");
    assert cs[1] in Resolve(cs, "a").value;
  }

  lemma NoLivesNoUpdates(a: Auth)
    ensures Updates(Solo(a), []) == map[]
  {
    SoloAccount(a);
    assert LivesOf(Solo(a), [], "work") == [];
    JudgeExact(a, []);
  }

  /** Nothing on disk but the account: every gate is open. */
  lemma SoloExecutes(io: Schedule, a: Auth, cs: seq<Client>, target: string)
    requires IsBundle(a) && Resolve(cs, target).Some?
    ensures var d0 := Disk(map[], NoJournal, None, Solo(a));
      Executes(io, d0, cs, Plainly("work", target), Everywhere(NotRunning)) && ToWrite(io, d0, cs, "work") == a
  {
    var d0 := Disk(map[], NoJournal, None, Solo(a));
    SoloAccount(a);
    NothingObserved(a);
    NoFilesNoLives(io, d0, cs);
    NoLivesNoUpdates(a);
  }

  /** The view of target "a" shows one member, and a switch to it overwrites the other client's file. */
  lemma NamesakeIsOverwritten(io: Schedule)
    requires AllWorks(io)
    ensures var a := Token("u", "R", 1);
      var cs, d0 := Namesakes(), Disk(map[], NoJournal, None, Solo(a));
      var (w, r) := UseEffect(io, Start(d0), cs, Plainly("work", "a"), Everywhere(NotRunning));
      && Operations.TargetById(Operations.TargetList(cs), "a") == Some(Operations.TargetView("a", ["a"]))
      && Consent.MemberStorages(cs, ["a"]) == {"s1"}
      && r.status == Completed && w.up && "s2" in w.disk.files && Decode(w.disk.files["s2"]) == Some(a)
  {
    var a := Token("u", "R", 1);
    var cs, d0, env := Namesakes(), Disk(map[], NoJournal, None, Solo(a)), Everywhere(NotRunning);
    NamesakesView();
    NamesakesResolve();
    SoloExecutes(io, a, cs, "a");
    SoloAccount(a);
    QuietSwitchCompletesExactly(io, d0, cs, Plainly("work", "a"), env);
    CompletedWrites(io, d0, cs, Plainly("work", "a"), env, "s2");
  }

  // ---- A rival that revives --------------------------------------------------------------------------

  function Old(): Auth { Token("u", "R", 1) }

  function Newer(): Auth { Token("u", "R", 5) }

  function Rival(): Auth { Token("u", "S", 3) }

  function Home(): Auth { Token("v", "H", 1) }

  function Pair(): Library {
    Library(["home", "work"], map["home" := Holding(Home()), "work" := Holding(Old())])
  }

  function Two(): seq<Client> {
    [Client("a", Cli, "first", "s1"), Client("b", Cli, "second", "s2")]
  }

  /** One client holds a newer copy of the saved token, another an older rival with another token. */
  function RivalDisk(): Disk {
    Disk(map["s1" := Encode(Newer()), "s2" := Encode(Rival())], NoJournal, None, Pair())
  }

  lemma PairAccounts()
    ensures Get(Pair(), "home") == Some(Home()) && Get(Pair(), "work") == Some(Old())
    ensures forall a :: a == Newer() || a == Rival() ==> Find(Pair(), a.id) == Some("work")
  {
    assert ValidSlotName("home") && ValidSlotName("work");
    forall a | a == Newer() || a == Rival()
      ensures Find(Pair(), a.id) == Some("work")
    {
      FindUnique(Pair(), a.id, "work");
    }
  }

  /** What the clients hold is exactly the newer copy and the rival. */
  lemma RivalsSeen(io: Schedule)
    requires AllWorks(io)
    ensures forall a :: a in LivesSeen(io, RivalDisk(), Two()) <==> a == Newer() || a == Rival()
  {
    FixedPoint.ReadExactly(io, RivalDisk(), Two());
    assert Two()[0] in Two() && Two()[1] in Two();
    assert OnDisk(RivalDisk().files, Two(), Newer()) && OnDisk(RivalDisk().files, Two(), Rival());
  }

  lemma HomeKept(lives: seq<Auth>)
    requires forall a :: a in lives <==> a == Newer() || a == Rival()
    ensures !InConflict(Pair(), lives, "home")
  {
    PairAccounts();
    LivesOfMembers(Pair(), lives, "home");
    JudgeExact(Home(), LivesOf(Pair(), lives, "home"));
  }

  /** The newer copy of the saved token keeps the rival out. */
  lemma WorkKept(lives: seq<Auth>)
    requires forall a :: a in lives <==> a == Newer() || a == Rival()
    ensures Get(Pair(), "work") == Some(Old()) && VerdictFor(Pair(), lives, "work") == Keep
  {
    PairAccounts();
    LivesOfMembers(Pair(), lives, "work");
    var mine := LivesOf(Pair(), lives, "work");
    JudgeExact(Old(), mine);
    var cands := [Old()] + mine;
    assert forall a :: a in cands ==> a == Old() || a == Newer() || a == Rival();
    assert IsLatest(Newer(), cands) by {
      assert Newer() in mine;
    }
  }

  lemma RivalKeptOut(lives: seq<Auth>)
    requires forall a :: a in lives <==> a == Newer() || a == Rival()
    ensures AllConflicts(Pair(), lives) == [] && "work" !in Updates(Pair(), lives)
  {
    HomeKept(lives);
    WorkKept(lives);
    ConflictsMembers(Pair(), lives, 2);
    FixedPoint.SomeMember(AllConflicts(Pair(), lives));
    assert Pair().listing[..2] == Pair().listing;
  }

  /** Target "a" names the first client and not the second. */
  lemma FirstNamed()
    ensures NamedBy(Two()[0], "a") && !NamedBy(Two()[1], "a")
    ensures PartKnown(Two(), "a") && SplitCommas("a") == ["a"]
  {
    Consent.NoCommaOnePart("a");
    assert "a" in SplitCommas("a") && Trim("a") == "a";
    assert Two()[0] in Two() && Named(Two()[0], "a");
    assert |Lower("second")| == 6 && |Lower("a")| == 1;
    assert Lower("b")[0] != Lower("a")[0];
  }

  lemma OneOfTwo(cs: seq<Client>, spec: string)
    requires UniqueIds(cs) && |cs| == 2 && SpecKnown(cs, spec) && NamedBy(cs[0], spec) && !NamedBy(cs[1], spec)
    ensures Resolve(cs, spec).Some? && StoragesOf(Resolve(cs, spec).value) == {cs[0].storage}
  {
    ResolveExactly(cs, spec);
    ResolvedStorages(cs, spec);
    assert cs[0] in cs;
    assert forall c :: c in cs ==> c == cs[0] || c == cs[1];
  }

  lemma FirstResolves()
    ensures UniqueIds(Two()) && Resolve(Two(), "a").Some?
    ensures StoragesOf(Resolve(Two(), "a").value) == {"s1"}
  {
    FirstNamed();
    OneOfTwo(Two(), "a");
  }

  /** Outside the target only the rival is left, and no copy of the saved token outdates it. */
  lemma RivalLeft(again: Schedule)
    requires AllWorks(again) && Resolve(Two(), "a").Some?
    ensures !FixedPoint.RivalsOutdated(Old(), FixedPoint.Untouched(again, RivalDisk(), Two(), "a"))
  {
    FirstResolves();
    var others := OnHeld(Two(), {"s1"}, false);
    var left := FixedPoint.Untouched(again, RivalDisk(), Two(), "a");
    FixedPoint.OnHeldMembers(Two(), {"s1"}, false);
    FixedPoint.ReadExactly(again, RivalDisk(), others);
    assert Two()[1] in others && OnDisk(RivalDisk().files, others, Rival());
    assert FixedPoint.Rival(Old(), left, Rival());
    forall k | FixedPoint.CopyOf(Old(), left, k)
      ensures k == Old()
    {
      assert OnDisk(RivalDisk().files, others, k) || k == Old();
    }
  }

  /** Where nobody runs, the gates on the probes are open. */
  lemma NobodyRuns(cs: seq<Client>, name: Name, target: string)
    ensures !QueryFails(cs, Everywhere(NotRunning)) && Held(cs, Everywhere(NotRunning), false) == {}
    ensures !NeedsStart(cs, Everywhere(NotRunning), Plainly(name, target))
  {
    Preview.HeldMembers(cs, Everywhere(NotRunning), false);
  }

  lemma RivalExecutes(io: Schedule)
    requires AllWorks(io)
    ensures Executes(io, RivalDisk(), Two(), Plainly("home", "a"), Everywhere(NotRunning))
    ensures "work" !in Updates(Pair(), LivesSeen(io, RivalDisk(), Two()))
    ensures Get(Pair(), "home") == Some(Home())
    ensures !NeedsStart(Resolve(Two(), "a").value, Everywhere(NotRunning), Plainly("home", "a"))
  {
    PairAccounts();
    RivalsSeen(io);
    RivalKeptOut(LivesSeen(io, RivalDisk(), Two()));
    FirstResolves();
    NobodyRuns(Resolve(Two(), "a").value, "home", "a");
  }

  lemma RivalSwitchCompletes(io: Schedule)
    requires AllWorks(io)
    ensures var (w, r) := UseEffect(io, Start(RivalDisk()), Two(), Plainly("home", "a"), Everywhere(NotRunning));
      w.up && r.status == Completed && "work" !in Updates(Pair(), LivesSeen(io, RivalDisk(), Two()))
  {
    RivalExecutes(io);
    QuietSwitchCompletesExactly(io, RivalDisk(), Two(), Plainly("home", "a"), Everywhere(NotRunning));
  }

  lemma PairDistinct(lives: seq<Auth>)
    requires forall a :: a in lives <==> a == Newer() || a == Rival()
    ensures FixedPoint.DistinctSeats(Pair(), lives)
  {
    PairAccounts();
  }

  /** A switch to another account completes, overwriting the newer copy; the next observation
      then adopts the older rival, which was kept out before. */
  lemma RivalRevivesOnDisk(io: Schedule, again: Schedule)
    requires AllWorks(io) && AllWorks(again)
    ensures var (w, r) := UseEffect(io, Start(RivalDisk()), Two(), Plainly("home", "a"), Everywhere(NotRunning));
      && w.up && r.status == Completed
      && "work" !in Updates(Pair(), LivesSeen(io, RivalDisk(), Two()))
      && Updates(w.disk.lib, LivesSeen(again, w.disk, Two())) != map[]
  {
    var env, call := Everywhere(NotRunning), Plainly("home", "a");
    RivalSwitchCompletes(io);
    PairAccounts();
    FirstResolves();
    RivalLeft(again);
    RivalsSeen(io);
    PairDistinct(LivesSeen(io, RivalDisk(), Two()));
    FixedPoint.ReadExactly(io, RivalDisk(), Two());
    FixedPoint.CompletedSwitchSettles(io, RivalDisk(), Two(), call, env, again);
    assert "work" in RivalDisk().lib.listing;
  }

  // ---- A slot that keeps the refreshed bundle ----------------------------------------------------------

  function Saved(): Auth { Token("u", "R", 1) }

  function Refresh(): Auth { Token("u", "S", 3) }

  function Lone(): seq<Client> {
    [Client("a", Cli, "first", "s1")]
  }

  /** The client holds a newer token than the library. */
  function FreshDisk(): Disk {
    Disk(map["s1" := Encode(Refresh())], NoJournal, None, Solo(Saved()))
  }

  /** Removing the journal fails once, and so do the two writes that put the slot back. */
  function Unlucky(): Schedule {
    n => if n == 10 || n >= 15 then Fails else Works
  }

  function FreshUpdates(): map<Name, Auth> {
    map["work" := Refresh()]
  }

  function FreshTx(): Tx {
    Tx([Snapshot(Lone()[0], Encode(Refresh()), true)], Encode(Refresh()), ReadState(None))
  }

  lemma FreshSeen()
    ensures ReadLives(Unlucky(), Start(FreshDisk()), Lone(), 0, []) == (World(FreshDisk(), true, 1), [Refresh()])
  {
    var w1 := ReadFile(Unlucky(), Start(FreshDisk()), "s1").0;
    assert !Seen(Lone(), 0);
    assert ReadLives(Unlucky(), w1, Lone(), 1, [Refresh()]) == (w1, [Refresh()]);
    assert [] + LiveOf(Bytes(Encode(Refresh()))) == [Refresh()];
  }

  /** A single live copy with another token and a later date is adopted. */
  lemma LaterIsAdopted(stored: Auth, a: Auth)
    requires a.refresh != stored.refresh && Dated(stored) && Dated(a) && stored.refreshed.value < a.refreshed.value
    ensures Judge(stored, [a]) == Adopt(a)
  {
    var cands := [stored, a];
    assert [stored] + [a] == cands && cands[..1] == [stored] && [stored][..0] == [];
    assert Newest([]) == None && Newest([stored]) == Some(stored);
    assert Newest(cands) == Some(a);
  }

  lemma SoloLives(a: Auth, live: Auth)
    requires SameSeat(a.id, live.id)
    ensures LivesOf(Solo(a), [live], "work") == [live]
  {
    SoloAccount(a);
    FindUnique(Solo(a), live.id, "work");
    assert LivesOf(Solo(a), [], "work") == [] && [live][..0] == [];
  }

  lemma SoloUpdates(a: Auth, live: Auth)
    requires SameSeat(a.id, live.id) && Judge(a, [live]) == Adopt(live)
    ensures Updates(Solo(a), [live]) == map["work" := live] && AllConflicts(Solo(a), [live]) == []
  {
    SoloAccount(a);
    SoloLives(a, live);
    assert VerdictFor(Solo(a), [live], "work") == Adopt(live);
    ConflictsMembers(Solo(a), [live], 1);
    FixedPoint.SomeMember(AllConflicts(Solo(a), [live]));
    var updates := Updates(Solo(a), [live]);
    forall n
      ensures n in updates <==> n == "work"
    {
      assert n in Solo(a).listing <==> n == "work";
    }
    assert updates["work"] == live;
  }

  lemma FreshJudged()
    ensures Updates(Solo(Saved()), [Refresh()]) == FreshUpdates() && AllConflicts(Solo(Saved()), [Refresh()]) == []
  {
    LaterIsAdopted(Saved(), Refresh());
    SoloUpdates(Saved(), Refresh());
  }

  lemma FreshPrepared()
    ensures PrepareEffect(Unlucky(), World(FreshDisk(), true, 1), Lone(), Refresh())
         == (World(FreshDisk().(journal := Journal(FreshTx())), true, 3), Some(FreshTx()))
  {
    var w := World(FreshDisk(), true, 1);
    var w1 := ReadFile(Unlucky(), w, "s1").0;
    assert [] + [FreshTx().files[0]] == FreshTx().files;
    assert Snap(Unlucky(), w1, Lone(), 1, FreshTx().files) == (w1, Some(FreshTx().files));
    assert Snap(Unlucky(), w, Lone(), 0, []) == (w1, Some(FreshTx().files));
  }

  /** The switch up to its commit: files written, account selected, files verified. */
  function FreshVerified(): World {
    var d := FreshDisk();
    World(d.(journal := Journal(FreshTx()), state := Some(Selected("work", ReadState(None)))), true, 6)
  }

  function FreshAdopted(): Library {
    Library(["work"], map["work" := Slot(Readable(Refresh()), Some(2))])
  }

  lemma FreshCommit(kept: seq<Name>)
    ensures Adoptable(FreshVerified().disk.lib, FreshUpdates())
    ensures var (w, r) := Commit(Unlucky(), FreshVerified(), Everywhere(NotRunning), FreshUpdates(), FreshTx(), kept);
      w.up && w.disk.lib == FreshAdopted() && r.status == Failed && r.recovery == WasRestored
  {
    var io, w, updates, tx := Unlucky(), FreshVerified(), FreshUpdates(), FreshTx();
    var order := PutOrder([], w.disk.lib, updates);
    assert ["work"][..0] == [] && [] + ["work"] == ["work"];
    assert order == ["work"];
    var w8 := w.(clock := 8);
    assert Backup(io, w8, order, 1) == (w8, true);
    assert Backup(io, w, order, 0) == (w8, true);
    var w10 := PutEffect(io, w8, "work", Refresh(), true).0;
    assert w10 == World(w.disk.(lib := FreshAdopted()), true, 10);
    assert PutAll(io, w10, updates, order, 1) == (w10, true);
    assert PutAll(io, w8, updates, order, 0) == (w10, true);
    var w11 := RemoveJournal(io, w10).0;
    FreshUndone(w11, kept);
  }

  /** The rollback works, and the two writes that put the slot back do not. */
  lemma FreshUndone(w: World, kept: seq<Name>)
    requires w == World(FreshVerified().disk.(lib := FreshAdopted()), true, 11)
    ensures var (w1, r) := Undo(Unlucky(), w, FreshTx(), kept);
      var w2 := PutBackAll(Unlucky(), w1, Solo(Saved()).slots, ["work"], 0);
      w2.up && w2.disk.lib == FreshAdopted() && r.status == Failed && r.recovery == WasRestored
  {
    var io, tx := Unlucky(), FreshTx();
    var w12 := w.(clock := 12);
    assert Preflight(io, w12, tx, 1) == (w12, true);
    assert Preflight(io, w, tx, 0) == (w12, true);
    var w13 := w.(clock := 13);
    assert Restore(io, w13, tx, 0) == (w13, true);
    assert Restore(io, w12, tx, 1) == (w13, true);
    var w15 := RollbackEffect(io, w, tx).0;
    assert w15.up && w15.clock == 15 && w15.disk.lib == FreshAdopted();
    var w17 := w15.(clock := 17);
    assert PutBackAll(io, w17, Solo(Saved()).slots, ["work"], 1) == w17;
  }

  lemma FreshApplied(kept: seq<Name>)
    ensures Adoptable(Solo(Saved()), FreshUpdates())
    ensures var w := World(FreshDisk().(journal := Journal(FreshTx())), true, 3);
      var (w', r) := Apply(Unlucky(), w, Lone(), Plainly("work", "all"), Everywhere(NotRunning), FreshUpdates(),
                           Refresh().id, FreshTx(), kept);
      w'.up && w'.disk.lib == FreshAdopted() && r.status == Failed && r.recovery == WasRestored
  {
    var io, env, tx := Unlucky(), Everywhere(NotRunning), FreshTx();
    var w := World(FreshDisk().(journal := Journal(tx)), true, 3);
    var w4 := WriteFile(io, w, "s1", tx.next).0;
    assert w4 == w.(clock := 4);
    assert WriteAll(io, w4, tx, 1) == (w4, true);
    assert WriteAll(io, w, tx, 0) == (w4, true);
    var w5 := WriteStateFile(io, w4, Selected("work", ReadState(None))).0;
    assert ClientsWrite(w5, env.appWrites) == w5;
    assert Lone()[..0] == [] && UniqueStorages(Lone()[..0]) == [];
    assert UniqueStorages(Lone()) == ["s1"];
    var w6 := FreshVerified();
    assert Verify(io, w6, ["s1"], Refresh().id, 1) == (w6, true);
    assert Verify(io, w5, ["s1"], Refresh().id, 0) == (w6, true);
    FreshCommit(kept);
  }

  lemma FreshExecuted()
    ensures Adoptable(Solo(Saved()), FreshUpdates()) && Get(Solo(Saved()), "work") == Some(Saved())
    ensures var w1 := World(FreshDisk(), true, 1);
      var (w, r) := Execute(Unlucky(), w1, Lone(), Plainly("work", "all"), Everywhere(NotRunning), FreshUpdates());
      w.up && w.disk.lib == FreshAdopted() && r.status == Failed && r.recovery == WasRestored
  {
    SoloAccount(Saved());
    FreshPrepared();
    FreshApplied(Kept(FreshDisk().lib, FreshUpdates(), "work"));
  }

  /** A switch whose journal removal fails rolls its files back and reports them restored; if the
      writes that put the slots back fail too, a slot keeps the refreshed bundle. */
  lemma SlotKeepsRefreshed()
    ensures var (w, r) :=
        UseEffect(Unlucky(), Start(FreshDisk()), Lone(), Plainly("work", "all"), Everywhere(NotRunning));
      && w.up && r.status == Failed && r.recovery == WasRestored
      && Get(FreshDisk().lib, "work") == Some(Saved()) && Get(w.disk.lib, "work") == Some(Refresh())
  {
    var d0, cs, call, env := FreshDisk(), Lone(), Plainly("work", "all"), Everywhere(NotRunning);
    NobodyRuns(cs, "work", "all");
    FreshSeen();
    FreshJudged();
    FreshExecuted();
    assert ValidSlotName("work");
  }
}
