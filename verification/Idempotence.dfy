/** Idempotency keys and the life of an operation record, over every run of the service. */
module Idempotence {
  import opened Options
  import opened Clients
  import opened Disk
  import opened Transaction
  import opened Operations
  import opened OperationProofs
  import Recovery

  // ---- At most one execution per key -------------------------------------------------------

  ghost predicate Counted(s: Sys) {
    forall id :: id in s.ops ==> |s.ops[id].requests| == s.ops[id].attempt
  }

  /** No key is recorded in two operations. */
  ghost predicate Exclusive(s: Sys) {
    forall a, b, key :: a in s.ops && b in s.ops && key in s.ops[a].requests && key in s.ops[b].requests ==> a == b
  }

  /** Every execution carried a key that its operation had durably recorded before. */
  ghost predicate Logged(s: Sys) {
    forall i :: 0 <= i < |s.execs| ==>
      var x := s.execs[i];
      && x.op in s.ops && x.key in s.ops[x.op].requests
      && x.before.status == InProgress && x.key in x.before.requests
  }

  ghost predicate Once(s: Sys) {
    forall i, j :: 0 <= i < j < |s.execs| ==> s.execs[i].key != s.execs[j].key
  }

  ghost predicate Inv(s: Sys) {
    Listed(s) && Counted(s) && Exclusive(s) && Logged(s) && Once(s)
  }

  /** One unused key was entered into one operation; at most one execution, under that key. */
  ghost predicate Recorded(s: Sys, s': Sys, id: Id, key: Key) {
    && Unused(s, key) && Listed(s')
    && (forall j :: j in s.ops ==> j in s'.ops && (j != id ==> s'.ops[j] == s.ops[j]))
    && (forall j :: j in s'.ops && j !in s.ops && j != id ==> s'.ops[j].requests == map[] && s'.ops[j].attempt == 0)
    && id in s'.ops
    && s'.ops[id].requests.Keys == (if id in s.ops then s.ops[id].requests.Keys else {}) + {key}
    && s'.ops[id].attempt == (if id in s.ops then s.ops[id].attempt else 0) + 1
    && (s'.execs == s.execs
        || (|s'.execs| == |s.execs| + 1 && s'.execs[..|s.execs|] == s.execs
            && var x := s'.execs[|s.execs|];
               x.op == id && x.key == key && x.before.status == InProgress && key in x.before.requests))
  }

  lemma RanRecords(s: Sys, s': Sys, id: Id, key: Key, x: Exec, e: Inputs)
    requires Ran(s, s', x, e) && x.op == id && id in s.ops
    ensures s'.ops[id].requests == s.ops[id].requests && s'.ops[id].attempt == s.ops[id].attempt && Listed(s')
    ensures forall j :: j in s.ops ==> j in s'.ops && (j != id ==> s'.ops[j] == s.ops[j])
    ensures forall j :: j in s'.ops && j !in s.ops ==> s'.ops[j].requests == map[] && s'.ops[j].attempt == 0
    ensures s'.execs == s.execs + [x]
  {}

  lemma EnteredRecords(s: Sys, s': Sys, existing: Option<Id>, actor: Actor, e: Inputs, a: Accepted)
    requires Listed(s) && Entered(s, s', existing, actor, e, a) && e.newOp !in s.ops
    ensures Recorded(s, s', a.id, a.key)
  {
    var d := Drafted(s, e, a);
    assert Listed(d) by {
      forall j
        ensures j in d.listing <==> j in d.ops
      {
        assert j in d.listing <==> j == a.id || j in s.listing;
      }
    }
    assert d.ops[a.id].requests.Keys == (if a.id in s.ops then s.ops[a.id].requests.Keys else {}) + {a.key};
    if a.draft.status == InProgress {
      RanRecords(d, s', a.id, a.key, ExecOf(a, actor, e), e);
    }
  }

  lemma RecordedCounts(s: Sys, s': Sys, id: Id, key: Key)
    requires Counted(s) && Recorded(s, s', id, key)
    ensures Counted(s')
  {
    var before := if id in s.ops then s.ops[id].requests.Keys else {};
    assert key !in before;
    assert |before + {key}| == |before| + 1;
  }

  lemma RecordedKeepsExclusive(s: Sys, s': Sys, id: Id, key: Key)
    requires Exclusive(s) && Recorded(s, s', id, key)
    ensures Exclusive(s')
  {
    forall a, b, k | a in s'.ops && b in s'.ops && k in s'.ops[a].requests && k in s'.ops[b].requests
      ensures a == b
    {
      OwnerBefore(s, s', id, key, a, k);
      OwnerBefore(s, s', id, key, b, k);
    }
  }

  lemma OwnerBefore(s: Sys, s': Sys, id: Id, key: Key, j: Id, k: Key)
    requires Recorded(s, s', id, key) && j in s'.ops && k in s'.ops[j].requests
    ensures if k == key then j == id else j in s.ops && k in s.ops[j].requests
  {
    assert k in s'.ops[j].requests.Keys;
  }

  lemma RecordedKeepsHistory(s: Sys, s': Sys, id: Id, key: Key)
    requires Logged(s) && Once(s) && Recorded(s, s', id, key)
    ensures Logged(s') && Once(s')
  {
    forall i | 0 <= i < |s'.execs|
      ensures s'.execs[i] == (if i < |s.execs| then s.execs[i] else s'.execs[|s.execs|])
      ensures i < |s.execs| ==> s'.execs[i].key != key
    {
      if i < |s.execs| {
        assert s'.execs[..|s.execs|][i] == s.execs[i];
      }
    }
    assert key in s'.ops[id].requests.Keys;
    forall i | 0 <= i < |s.execs|
      ensures var x := s.execs[i]; x.op in s'.ops && x.key in s'.ops[x.op].requests
    {
      assert s.execs[i].key in s.ops[s.execs[i].op].requests.Keys;
      assert s.execs[i].op == id ==> s.execs[i].key in s'.ops[id].requests.Keys;
    }
  }

  lemma RecordedKeepsInv(s: Sys, s': Sys, id: Id, key: Key)
    requires Inv(s) && Recorded(s, s', id, key)
    ensures Inv(s')
  {
    RecordedCounts(s, s', id, key);
    RecordedKeepsExclusive(s, s', id, key);
    RecordedKeepsHistory(s, s', id, key);
  }

  lemma SameKeysKeepInv(s: Sys, s': Sys)
    requires Inv(s) && s'.listing == s.listing && s'.execs == s.execs && s'.ops.Keys == s.ops.Keys
    requires forall id :: id in s.ops ==>
      s'.ops[id].requests == s.ops[id].requests && s'.ops[id].attempt == s.ops[id].attempt
    ensures Inv(s')
  {
    assert Listed(s') by {
      assert forall id :: id in s'.ops <==> id in s.ops.Keys;
    }
    assert Logged(s') && Exclusive(s');
  }

  lemma InvStep(s: Sys, ev: Event)
    requires Inv(s) && NewIds(s, ev)
    ensures Inv(Step(s, ev))
  {
    var a := StepShape(s, ev);
    MovedKeepsInv(s, Step(s, ev), ev, a);
  }

  lemma UnmovedKeepsInv(s: Sys, s': Sys)
    requires Inv(s) && Unmoved(s, s')
    ensures Inv(s')
  {}

  lemma GaveUpKeepsInv(s: Sys, s': Sys, ev: Event)
    requires Inv(s) && GaveUp(s, s', ev)
    ensures Inv(s')
  {
    SameKeysKeepInv(s, s');
  }

  lemma MarksKeepInv(s: Sys, s': Sys, found: bool, recovered: bool)
    requires Inv(s) && Marks(s, s', found, recovered)
    ensures Inv(s')
  {
    SameKeysKeepInv(s, s');
  }

  lemma TookKeepsInv(s: Sys, s': Sys, ev: Event, a: Accepted)
    requires Inv(s) && NewIds(s, ev) && Took(s, s', ev, a)
    ensures Inv(s')
  {
    EnteredRecords(s, s', ExistingOf(ev), ev.actor, ev.e, a);
    RecordedKeepsInv(s, s', a.id, a.key);
  }

  lemma MovedKeepsInv(s: Sys, s': Sys, ev: Event, a: Accepted)
    requires Inv(s) && NewIds(s, ev) && Moved(s, s', ev, a)
    ensures Inv(s')
  {
    if Unmoved(s, s') {
      UnmovedKeepsInv(s, s');
    } else if GaveUp(s, s', ev) {
      GaveUpKeepsInv(s, s', ev);
    } else if s.serving && Took(s, s', ev, a) {
      TookKeepsInv(s, s', ev, a);
    } else {
      MarksKeepInv(s, s', FoundJournal(s), Recovered(s, ev));
    }
  }

  /** In every run, across crashes and restarts, no idempotency key is executed twice: no key
      is in two operations, each execution's key was recorded first, and keys are counted by
      attempts. */
  lemma {:induction false} InvRun(s: Sys, evs: seq<Event>)
    requires Inv(s) && FreshRun(s, evs)
    ensures Inv(Run(s, evs))
  {
    if evs != [] {
      FreshPrefix(s, evs);
      InvRun(s, evs[..|evs| - 1]);
      InvStep(Run(s, evs[..|evs| - 1]), evs[|evs| - 1]);
    }
  }

  function ExecsOf(execs: seq<Exec>, id: Id): seq<Exec> {
    if execs == [] then []
    else ExecsOf(execs[..|execs| - 1], id) + if execs[|execs| - 1].op == id then [execs[|execs| - 1]] else []
  }

  lemma {:induction false} ExecKeys(execs: seq<Exec>, id: Id) returns (keys: set<Key>)
    requires forall i, j :: 0 <= i < j < |execs| ==> execs[i].key != execs[j].key
    ensures |keys| == |ExecsOf(execs, id)|
    ensures forall k :: k in keys ==> exists i :: 0 <= i < |execs| && execs[i].op == id && execs[i].key == k
  {
    keys := {};
    if execs != [] {
      var last := execs[|execs| - 1];
      keys := ExecKeys(execs[..|execs| - 1], id);
      if last.op == id {
        assert last.key !in keys;
        keys := keys + {last.key};
      }
    }
  }

  /** An operation is executed at most as often as it was attempted. */
  lemma ExecutionsBounded(s: Sys, evs: seq<Event>, id: Id)
    requires Inv(s) && FreshRun(s, evs)
    ensures var t := Run(s, evs);
      |ExecsOf(t.execs, id)| <= if id in t.ops then t.ops[id].attempt else 0
  {
    InvRun(s, evs);
    var t := Run(s, evs);
    var keys := ExecKeys(t.execs, id);
    if id in t.ops {
      forall k | k in keys
        ensures k in t.ops[id].requests.Keys
      {}
      SubsetSize(keys, t.ops[id].requests.Keys);
    } else if k :| k in keys {
      assert false;
    }
  }

  lemma {:induction false} SubsetSize(a: set<Key>, b: set<Key>)
    requires a <= b
    ensures |a| <= |b|
  {
    assert b == a + (b - a);
  }

  /** Repeating a recorded key changes nothing and shows the operation that owns it. */
  lemma ReplayShowsOwner(s: Sys, id: Id, planId: Id, requestId: string, idem: Key, actor: Actor, confirm: bool,
                         existing: Option<Id>, e: Inputs, run: Executor)
    requires Inv(s) && id in s.ops && (existing.Some? ==> existing.value in s.ops)
    requires Or(idem, Or(requestId, e.newRequest)) in s.ops[id].requests
    ensures var key := Or(idem, Or(requestId, e.newRequest));
      SubmitEffect(s, planId, requestId, idem, actor, confirm, existing, e, run)
      == (s, if s.ops[id].requests[key] == SignatureOf(planId, confirm, existing)
             then Shows(id, s.ops[id]) else Refused)
  {
    var key := Or(idem, Or(requestId, e.newRequest));
    KeyFromSound(s, key, 0);
    assert s.listing[0..] == s.listing;
    assert id in s.listing;
    assert LookupKey(s, key) == Some(id);
  }

  /** The key an accepted request used stays recorded in its operation ever after. */
  lemma {:induction false} KeysStay(s: Sys, evs: seq<Event>, id: Id, key: Key)
    requires Inv(s) && FreshRun(s, evs) && id in s.ops && key in s.ops[id].requests
    ensures var t := Run(s, evs); id in t.ops && key in t.ops[id].requests
  {
    if evs != [] {
      var init, last := evs[..|evs| - 1], evs[|evs| - 1];
      FreshPrefix(s, evs);
      KeysStay(s, init, id, key);
      InvRun(s, init);
      var t := Run(s, init);
      var a := StepShape(t, last);
      KeysStayStep(t, Step(t, last), last, a, id, key);
    }
  }

  lemma KeysStayStep(s: Sys, s': Sys, ev: Event, a: Accepted, id: Id, key: Key)
    requires Inv(s) && NewIds(s, ev) && Moved(s, s', ev, a) && id in s.ops && key in s.ops[id].requests
    ensures id in s'.ops && key in s'.ops[id].requests
  {
    if s.serving && Took(s, s', ev, a) {
      EnteredRecords(s, s', ExistingOf(ev), ev.actor, ev.e, a);
    }
  }

  // ---- The life of a record ------------------------------------------------------------------

  predicate Settled(r: OpRecord) {
    r.status == Succeeded || r.status == Cancelled
  }

  /** Neither confirm nor retry will run it: it is settled, or its recovery is in doubt. */
  predicate Closed(r: OpRecord) {
    Settled(r) || (!Unfinished(r) && (r.recovery == OpRecovery.RecoveryFailed || r.recovery == Unknown))
  }

  /** Left in progress, as a crash or a failed final save leaves it, or closed. */
  ghost predicate Gated(s: Sys, id: Id) {
    id in s.ops && (s.ops[id].status == InProgress || Closed(s.ops[id]))
  }

  /** A start-up that found a journal and rolled it back. */
  ghost predicate Reopens(s: Sys, ev: Event) {
    ev.StartHost? && !s.serving && FoundJournal(s) && Recovered(s, ev)
  }

  lemma {:induction false} ExecsOfMore(execs: seq<Exec>, x: Exec, id: Id)
    ensures ExecsOf(execs + [x], id) == ExecsOf(execs, id) + if x.op == id then [x] else []
  {
    assert (execs + [x])[..|execs|] == execs;
  }

  /** A request entered elsewhere leaves operation id alone. */
  lemma RecordedSpares(s: Sys, s': Sys, other: Id, key: Key, id: Id)
    requires Recorded(s, s', other, key) && id in s.ops && id != other
    ensures id in s'.ops && s'.ops[id] == s.ops[id] && ExecsOf(s'.execs, id) == ExecsOf(s.execs, id)
  {
    if s'.execs != s.execs {
      var x := s'.execs[|s.execs|];
      assert s'.execs == s'.execs[..|s.execs|] + [x];
      ExecsOfMore(s.execs, x, id);
    }
  }

  lemma TookSpares(s: Sys, s': Sys, ev: Event, a: Accepted, id: Id)
    requires Listed(s) && NewIds(s, ev) && Took(s, s', ev, a) && id in s.ops && !Resumable(s.ops[id])
    ensures id in s'.ops && s'.ops[id] == s.ops[id] && ExecsOf(s'.execs, id) == ExecsOf(s.execs, id)
  {
    EnteredRecords(s, s', ExistingOf(ev), ev.actor, ev.e, a);
    RecordedSpares(s, s', a.id, a.key, id);
  }

  /** A closed record stays closed over any step. */
  lemma ClosedStep(s: Sys, s': Sys, ev: Event, a: Accepted, id: Id)
    requires Listed(s) && NewIds(s, ev) && Moved(s, s', ev, a) && id in s.ops && Closed(s.ops[id])
    ensures id in s'.ops && Closed(s'.ops[id]) && ExecsOf(s'.execs, id) == ExecsOf(s.execs, id)
    ensures Settled(s.ops[id]) ==> s'.ops[id] == s.ops[id]
  {
    if s.serving && Took(s, s', ev, a) {
      TookSpares(s, s', ev, a, id);
    }
  }

  /** Only a start-up that finds the record in progress and rolls a journal back lets it out. */
  lemma GatedStep(s: Sys, s': Sys, ev: Event, a: Accepted, id: Id)
    requires Listed(s) && NewIds(s, ev) && Moved(s, s', ev, a) && Gated(s, id)
    requires s.ops[id].status == InProgress ==> !Reopens(s, ev)
    ensures Gated(s', id) && ExecsOf(s'.execs, id) == ExecsOf(s.execs, id)
  {
    if Closed(s.ops[id]) {
      ClosedStep(s, s', ev, a, id);
    } else if s.serving && Took(s, s', ev, a) {
      TookSpares(s, s', ev, a, id);
    }
  }

  /** A succeeded or cancelled record is never executed again and never changes. */
  lemma {:induction false} SettledForever(s: Sys, evs: seq<Event>, id: Id)
    requires Inv(s) && FreshRun(s, evs) && id in s.ops && Settled(s.ops[id])
    ensures var t := Run(s, evs);
      id in t.ops && t.ops[id] == s.ops[id] && ExecsOf(t.execs, id) == ExecsOf(s.execs, id)
  {
    if evs != [] {
      var init, last := evs[..|evs| - 1], evs[|evs| - 1];
      FreshPrefix(s, evs);
      SettledForever(s, init, id);
      InvRun(s, init);
      var t := Run(s, init);
      var a := StepShape(t, last);
      SettledStep(t, Step(t, last), last, a, id);
    }
  }

  lemma SettledStep(s: Sys, s': Sys, ev: Event, a: Accepted, id: Id)
    requires Listed(s) && NewIds(s, ev) && Moved(s, s', ev, a) && id in s.ops && Settled(s.ops[id])
    ensures id in s'.ops && s'.ops[id] == s.ops[id] && ExecsOf(s'.execs, id) == ExecsOf(s.execs, id)
  {
    ClosedStep(s, s', ev, a, id);
  }

  /** A closed operation is never executed again, in any run, whatever start-ups roll back in it. */
  lemma {:induction false} ClosedForever(s: Sys, evs: seq<Event>, id: Id)
    requires Inv(s) && FreshRun(s, evs) && id in s.ops && Closed(s.ops[id])
    ensures var t := Run(s, evs);
      id in t.ops && Closed(t.ops[id]) && ExecsOf(t.execs, id) == ExecsOf(s.execs, id)
  {
    if evs != [] {
      var init, last := evs[..|evs| - 1], evs[|evs| - 1];
      FreshPrefix(s, evs);
      ClosedForever(s, init, id);
      InvRun(s, init);
      var t := Run(s, init);
      var a := StepShape(t, last);
      ClosedStep(t, Step(t, last), last, a, id);
    }
  }

  /** The event is a start-up that finds operation id in progress, and rolls a journal back. */
  ghost predicate ReopensOp(s: Sys, ev: Event, id: Id) {
    id in s.ops && s.ops[id].status == InProgress && Reopens(s, ev)
  }

  /** Crash gating: an operation left in progress is executed again only after a start-up that
      found it in progress, found a journal and rolled it back. */
  lemma {:induction false} CrashGating(s: Sys, evs: seq<Event>, id: Id)
    requires Inv(s) && FreshRun(s, evs) && Gated(s, id)
    requires forall k :: 0 <= k < |evs| ==> !ReopensOp(Run(s, evs[..k]), evs[k], id)
    ensures Gated(Run(s, evs), id) && ExecsOf(Run(s, evs).execs, id) == ExecsOf(s.execs, id)
  {
    if evs != [] {
      var init, last := evs[..|evs| - 1], evs[|evs| - 1];
      FreshPrefix(s, evs);
      forall k | 0 <= k < |init|
        ensures !ReopensOp(Run(s, init[..k]), init[k], id)
      {
        assert init[..k] == evs[..k];
      }
      CrashGating(s, init, id);
      InvRun(s, init);
      var t := Run(s, init);
      var a := StepShape(t, last);
      GatedStep(t, Step(t, last), last, a, id);
    }
  }

  lemma MarkedCloses(s: Sys, s': Sys, id: Id, found: bool, recovered: bool)
    requires Marks(s, s', found, recovered) && id in s.ops && Unfinished(s.ops[id]) && !Unfinished(s'.ops[id])
    ensures s'.ops[id].status == FailedOp && s'.ops[id].code == Interrupted
    ensures Closed(s'.ops[id]) <==> !(found && recovered)
    ensures s'.ops[id].recovery == OpRecovery.RecoveryFailed <==> !recovered
  {
    assert s'.ops[id] == InterruptedRecord(s.ops[id], found, recovered);
  }

  /** The start-up that marks an unfinished operation closes it if and only if it did not roll a
      journal back: without a journal its recovery is unknown, and with a rollback that failed
      or was put off, as while a client runs, it counts as failed. Closed means forever: a later
      start-up that does restore the files does not reopen the operation. */
  lemma StartUpClosesExactly(s: Sys, ev: Event, id: Id)
    requires Inv(s) && ev.StartHost? && !s.serving && Step(s, ev).serving
    requires id in s.ops && Unfinished(s.ops[id])
    ensures id in Step(s, ev).ops
    ensures Step(s, ev).ops[id].status == FailedOp && Step(s, ev).ops[id].code == Interrupted
    ensures Closed(Step(s, ev).ops[id]) <==> !Reopens(s, ev)
    ensures Step(s, ev).ops[id].recovery == OpRecovery.RecoveryFailed <==> !Recovered(s, ev)
  {
    var s' := Step(s, ev);
    ServingMeansFinished(s, ev);
    HostShape(s, ev.io, ev.probe, ev.saves);
    MarkedCloses(s, s', id, FoundJournal(s), Recovered(s, ev));
  }

  /** A rollback is put off while any client of the journal is not known to be stopped; nothing is touched. */
  lemma DeferredTouchesNothing(s: Sys, ev: Event)
    requires ev.StartHost? && !s.serving && s.disk.journal.Journal?
    requires exists b :: b in s.disk.journal.tx.files && ev.probe(b.client) != NotRunning
    ensures !Recovered(s, ev) && Step(s, ev).disk == s.disk
  {
    Recovery.QuietExactly(s.disk.journal.tx, ev.probe);
    var (w, recovered) := RecoverEffect(ev.io, Start(s.disk), ev.probe);
    MarkShape(s.(disk := w.disk, serving := false), 0, true, recovered, ev.saves);
  }

  /** A rollback put off because a client of the journal runs fails the operation for good. */
  lemma DeferredRecoveryCloses(s: Sys, ev: Event, id: Id, evs: seq<Event>)
    requires Inv(s) && ev.StartHost? && !s.serving && Step(s, ev).serving
    requires id in s.ops && Unfinished(s.ops[id])
    requires s.disk.journal.Journal?
    requires exists b :: b in s.disk.journal.tx.files && ev.probe(b.client) != NotRunning
    requires FreshRun(Step(s, ev), evs)
    ensures var t := Run(Step(s, ev), evs);
      && id in t.ops && Closed(t.ops[id]) && ExecsOf(t.execs, id) == ExecsOf(s.execs, id)
      && Step(s, ev).disk == s.disk
  {
    var s1 := Step(s, ev);
    DeferredTouchesNothing(s, ev);
    StartUpClosesExactly(s, ev, id);
    InvStep(s, ev);
    HostShape(s, ev.io, ev.probe, ev.saves);
    ClosedForever(s1, evs, id);
  }

  /** A host that serves has left no operation unfinished. */
  lemma {:induction false} MarksAll(s: Sys, i: nat, found: bool, recovered: bool, saves: Id -> Fate)
    requires i <= |s.listing|
    ensures var (s', done) := MarkFrom(s, i, found, recovered, saves);
      done ==> forall id :: id in s.listing[i..] && id in s'.ops ==> !Unfinished(s'.ops[id])
    decreases |s.listing| - i
  {
    if i < |s.listing| {
      var id := s.listing[i];
      assert s.listing[i..] == [id] + s.listing[i + 1..];
      if id !in s.ops || !Unfinished(s.ops[id]) {
        MarksAll(s, i + 1, found, recovered, saves);
        MarkShape(s, i + 1, found, recovered, saves);
      } else if saves(id) == Works {
        var s1 := s.(ops := s.ops[id := InterruptedRecord(s.ops[id], found, recovered)]);
        MarksAll(s1, i + 1, found, recovered, saves);
        MarkShape(s1, i + 1, found, recovered, saves);
      }
    }
  }

  lemma ServingMeansFinished(s: Sys, ev: Event)
    requires Inv(s) && ev.StartHost? && !s.serving && Step(s, ev).serving
    ensures forall id :: id in Step(s, ev).ops ==>
      var r := Step(s, ev).ops[id];
      !Unfinished(r) && r.status != InProgress && r.status != Queued
  {
    var (w, recovered) := RecoverEffect(ev.io, Start(s.disk), ev.probe);
    var s1 := s.(disk := w.disk, serving := false);
    MarksAll(s1, 0, FoundJournal(s), recovered, ev.saves);
    MarkShape(s1, 0, FoundJournal(s), recovered, ev.saves);
    assert s1.listing[0..] == s.listing;
  }

  /** Such a start-up leaves the restored disk: every journalled file is back, or the process died after that. */
  lemma ReopeningRestores(s: Sys, ev: Event)
    requires Reopens(s, ev) && s.disk.journal.Journal? && Recovery.Distinct(s.disk.journal.tx.files)
    ensures var tx := s.disk.journal.tx;
      Recovery.Guarded(tx, s.disk.files) && Step(s, ev).disk == Recovery.Restored(tx, s.disk)
  {
    Recovery.RecoverOutcome(ev.io, Start(s.disk), ev.probe);
    var (w, recovered) := RecoverEffect(ev.io, Start(s.disk), ev.probe);
    MarkShape(s.(disk := w.disk, serving := false), 0, true, recovered, ev.saves);
  }

  /** While a journal remains, no request changes a client file, the state or an account. */
  lemma JournalFreezesDisk(s: Sys, ev: Event)
    requires Inv(s) && NewIds(s, ev) && Request(ev) && s.disk.journal != NoJournal
    ensures Step(s, ev).disk == s.disk
  {
    var _ := StepShape(s, ev);
  }

  /** Write-ahead: an execution in a step is preceded by a durable record of the same
      operation in progress under the executed key; if that save fails, nothing is executed. */
  lemma SavedBeforeRun(s: Sys, ev: Event)
    requires Inv(s) && NewIds(s, ev)
    ensures var s' := Step(s, ev);
      || s'.execs == s.execs
      || (&& Asks(ev) && ev.e.saveFirst == Works && |s'.execs| == |s.execs| + 1
          && var x := s'.execs[|s.execs|];
          && s'.execs == s.execs + [x]
          && x.before.status == InProgress && x.key in x.before.requests && Unused(s, x.key)
          && (ExistingOf(ev).Some? ==> x.op == ExistingOf(ev).value && x.op in s.ops && Resumable(s.ops[x.op]))
          && (ExistingOf(ev).None? ==> x.op == ev.e.newOp))
  {
    var a := StepShape(s, ev);
  }
}
