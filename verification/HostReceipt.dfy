/**
 Which dispatch a completed receipt consumes.  The journal names the dispatch that was sent, but
 the run that completes the receipt finalizes the dispatch of its own request: the two are the
 same exactly when that request carries the journalled dispatch, and they can differ.
 */
module HostReceipt {

  import opened Options
  import opened DispatchRegistry
  import opened HostProtocol
  import opened HostSafety
  import opened WatchHost
  import Watch

  /** What was sent from a directory was sent with the dispatch its journal names. */
  ghost predicate JournalNamesSent(w: World) {
    forall i :: 0 <= i < |w.sends| ==>
      var j := FilesOf(w, w.sends[i].bound.effect.dir).journal;
      j.Journal? && j.token == w.sends[i].token
  }

  /** Between the SENDING commit and the next one a process works on the dispatch it journalled. */
  ghost predicate NamesOwn(w: World, pc: Pc) {
    pc.ReadyToSend? || pc.Failed? || pc.GotReceipt? ==>
      FilesOf(w, pc.task.dir).journal.Journal? && FilesOf(w, pc.task.dir).journal.token == pc.task.token
  }

  ghost predicate Named(s: System) {
    JournalNamesSent(s.world) && forall p :: p in s.at ==> NamesOwn(s.world, s.at[p])
  }

  predicate CommitsJournal(e: Event) {
    e.LoadJournal? || e.CommitMismatch? || e.CommitSending? || e.CommitReceipt? || e.CommitAmbiguous?
  }

  lemma {:induction false} OtherActsKeepJournals(w: World, pc: Pc, e: Event)
    requires Act(w, pc, e).Some? && !CommitsJournal(e)
    ensures var w' := Act(w, pc, e).value.0;
            && (forall d :: FilesOf(w', d).journal == FilesOf(w, d).journal)
            && (!e.Send? ==> w'.sends == w.sends)
  {
  }

  lemma {:induction false} CommitsTouchOwnJournal(w: World, pc: Pc, e: Event)
    requires Act(w, pc, e).Some? && CommitsJournal(e)
    ensures var w' := Act(w, pc, e).value.0;
            && LockOf(pc).Some? && w'.sends == w.sends
            && (forall d :: Some(d) != LockOf(pc) ==> FilesOf(w', d).journal == FilesOf(w, d).journal)
  {
  }

  /** A commit either keeps the journalled dispatch, or comes before any send, or names the
      dispatch the process works on. */
  lemma {:induction false} CommitsName(w: World, pc: Pc, e: Event)
    requires Act(w, pc, e).Some? && CommitsJournal(e) && PcOk(w, pc) && NamesOwn(w, pc)
    ensures var d, r := LockOf(pc).value, Act(w, pc, e).value;
            var j, j' := FilesOf(w, d).journal, FilesOf(r.0, d).journal;
            && (j'.Journal? || j' == j)
            && (Rank(j) < 2 || (j.Journal? && j'.token == j.token))
            && NamesOwn(r.0, r.1)
  {
  }

  lemma {:induction false} CommitKeepsNamed(s: System, p: Process, e: Event)
    requires Inv(s) && Named(s) && p in s.at && Act(s.world, s.at[p], e).Some? && CommitsJournal(e)
    ensures Named(Acted(s, p, e))
  {
    var pc, w' := s.at[p], Act(s.world, s.at[p], e).value.0;
    CommitsTouchOwnJournal(s.world, pc, e);
    CommitsName(s.world, pc, e);
    var d := LockOf(pc).value;
    assert DirectoryOk(s.world, d);
    forall q | q in s.at && q != p ensures NamesOwn(w', s.at[q]) {
      assert Apart(s.at[p], s.at[q]);
      assert NamesOwn(s.world, s.at[q]);
    }
  }

  lemma {:induction false} SendKeepsNamed(s: System, p: Process, e: Event)
    requires Inv(s) && Named(s) && p in s.at && Act(s.world, s.at[p], e).Some? && e.Send?
    ensures Named(Acted(s, p, e))
  {
    assert NamesOwn(s.world, s.at[p]);
    OtherActsKeepJournals(s.world, s.at[p], e);
  }

  lemma {:induction false} OtherActKeepsNamed(s: System, p: Process, e: Event)
    requires Inv(s) && Named(s) && p in s.at && Act(s.world, s.at[p], e).Some? && !CommitsJournal(e) && !e.Send?
    ensures Named(Acted(s, p, e))
  {
    OtherActsKeepJournals(s.world, s.at[p], e);
    assert NamesOwn(s.world, s.at[p]);
  }

  lemma {:induction false} ApplyKeepsNamed(s: System, p: Process, e: Event)
    requires Inv(s) && Named(s) && Apply(s, p, e).Some?
    ensures Named(Apply(s, p, e).value)
  {
    if !e.Acquire? && !e.CreateConsumed? && !e.Stop? && !e.Evaluate? {
      if CommitsJournal(e) { CommitKeepsNamed(s, p, e); }
      else if e.Send? { SendKeepsNamed(s, p, e); }
      else { OtherActKeepsNamed(s, p, e); }
    }
  }

  lemma {:induction false} RunKeepsNamed(s: System, run: seq<(Process, Event)>)
    requires Inv(s) && Named(s) && Exec(s, run).Some?
    ensures Named(Exec(s, run).value)
    decreases |run|
  {
    if run != [] {
      ApplyKeepsInv(s, run[0].0, run[0].1);
      ApplyKeepsNamed(s, run[0].0, run[0].1);
      RunKeepsNamed(Apply(s, run[0].0, run[0].1).value, run[1..]);
    }
  }

  lemma {:induction false} ReachableNamed(s: System)
    requires Reachable(s)
    ensures Inv(s) && Named(s)
  {
    var legacy, spent, run :| Exec(Start(legacy, spent), run) == Some(s);
    StartInv(legacy, spent);
    RunKeepsInv(Start(legacy, spent), run);
    RunKeepsNamed(Start(legacy, spent), run);
  }

  /** Send i is the directory's only one, delivered, and was made with dispatch `token` or not. */
  ghost predicate OnlyDelivery(w: World, b: Binding, i: nat) {
    && i < |w.sends| && w.sends[i].bound == b && Delivered(b.effect.key, w.sends[i].receipt, w.sends[i].info)
    && forall j :: 0 <= j < |w.sends| && j != i ==> w.sends[j].bound.effect.dir != b.effect.dir
  }

  lemma {:induction false} ReceiptHasOneDelivery(w: World, d: Dir) returns (i: nat)
    requires DirectoryOk(w, d) && SendsOk(w) && FilesOf(w, d).journal.Journal? && FilesOf(w, d).journal.phase == Receipt
    requires FilesOf(w, d).journal.bound.effect.dir == d
    ensures OnlyDelivery(w, FilesOf(w, d).journal.bound, i)
  {
    var b := FilesOf(w, d).journal.bound;
    i :| 0 <= i < |w.sends| && w.sends[i].bound == b && Delivered(b.effect.key, w.sends[i].receipt, w.sends[i].info);
    forall j | 0 <= j < |w.sends| && j != i ensures w.sends[j].bound.effect.dir != d {
      assert if i < j then w.sends[i].bound.effect.dir != w.sends[j].bound.effect.dir
             else w.sends[j].bound.effect.dir != w.sends[i].bound.effect.dir;
    }
  }

  /** Whenever a process has finalized a dispatch, the effect was delivered by exactly one send of
      the directory; and what it finalized is the dispatch of that send if and only if its request
      carries the dispatch the journal names. */
  lemma {:induction false} FinalizesWhatWasSentIff(s: System, p: Process) returns (i: nat)
    requires Reachable(s) && p in s.at && s.at[p].Finalized?
    ensures var t, b := s.at[p].task, BindingOf(s.at[p].task, s.at[p].attempt);
            && OnlyDelivery(s.world, b, i) && ConsumedFor(s.world, t.token, b)
            && FilesOf(s.world, t.dir).journal.Journal?
            && (s.world.sends[i].token == t.token <==> FilesOf(s.world, t.dir).journal.token == t.token)
  {
    ReachableNamed(s);
    var t := s.at[p].task;
    assert PcOk(s.world, s.at[p]) && DirectoryOk(s.world, t.dir);
    i := ReceiptHasOneDelivery(s.world, t.dir);
  }

  // ------------------------------------------------------------- a run where they differ

  /** A process acquires the free lock of its directory, evaluates and passes the gate. */
  lemma {:induction false} Entered(s: System, p: Process, d: Dir, o: Watch.Observation, v: Variant, token: Token) returns (t: Task)
    requires p !in s.at && Unlocked(s, d) && DirOf(o) == d
    requires FilesOf(s.world, d).watch == Watch.EMPTY && FilesOf(s.world, d).ledger == []
    requires Watch.Evaluate(o, Watch.EMPTY).Evaluated? && Watch.IsTyped(Watch.Evaluate(o, Watch.EMPTY).result)
    ensures var e := Watch.Evaluate(o, Watch.EMPTY); t == Task(d, e.key, e.next, [], v, token)
    ensures Exec(s, [(p, Acquire(d)), (p, Evaluate(o)), (p, GateAllow(v, token))]) == Some(s.(at := s.at[p := Authorized(t)]))
  {
    var e := Watch.Evaluate(o, Watch.EMPTY);
    t := Task(d, e.key, e.next, [], v, token);
    var s1 := s.(at := s.at[p := Locked(d)]);
    var s2 := s.(at := s.at[p := Typed(d, e.key, e.next, [])]);
    var run := [(p, Acquire(d)), (p, Evaluate(o)), (p, GateAllow(v, token))];
    assert Apply(s, p, Acquire(d)) == Some(s1);
    assert Look(s.world, d, o) == Some(Typed(d, e.key, e.next, []));
    assert s1.at[p := Typed(d, e.key, e.next, [])] == s2.at;
    assert Apply(s1, p, Evaluate(o)) == Some(s2);
    assert s2.at[p := Authorized(t)] == s.at[p := Authorized(t)];
    assert Apply(s2, p, GateAllow(v, token)) == Some(s.(at := s.at[p := Authorized(t)]));
    ExecThree(s, run, s1, s2, s.(at := s.at[p := Authorized(t)]));
  }

  lemma {:induction false} ExecThree(s: System, run: seq<(Process, Event)>, s1: System, s2: System, s3: System)
    requires |run| == 3
    requires Apply(s, run[0].0, run[0].1) == Some(s1) && Apply(s1, run[1].0, run[1].1) == Some(s2)
    requires Apply(s2, run[2].0, run[2].1) == Some(s3)
    ensures Exec(s, run) == Some(s3)
  {
    assert run[1..][0] == run[1] && run[1..][1..] == run[2..] && run[2..][0] == run[2] && run[2..][1..] == [];
    assert Exec(s2, run[2..]) == Exec(s3, []);
    assert Exec(s1, run[1..]) == Exec(s2, run[2..]);
  }

  lemma {:induction false} ExecMore(s: System, run: seq<(Process, Event)>, more: seq<(Process, Event)>)
    requires Exec(s, run).Some?
    ensures Exec(s, run + more) == Exec(Exec(s, run).value, more)
    decreases |run|
  {
    if run == [] {
      assert run + more == more;
    } else {
      assert (run + more)[1..] == run[1..] + more;
      ExecMore(Apply(s, run[0].0, run[0].1).value, run[1..], more);
    }
  }

  /** A directory of whose journal, ledger and watch state only the journal was ever written. */
  ghost predicate OnlyJournal(w: World, d: Dir, j: Journal) {
    FilesOf(w, d) == Files(j, [], Watch.EMPTY)
  }

  /** First leg: intent with attempt a, and the request's dispatch reserved. */
  lemma {:induction false} ReservesAndStops(w: World, t: Task, a: nat) returns (es: seq<Event>, w1: World)
    requires OnlyJournal(w, t.dir, NoJournal) && t.token !in w.markers && t.token !in w.legacy
    ensures Follow(w, Authorized(t), es) == Some((w1, Holding(t, a)))
    ensures OnlyJournal(w1, t.dir, Journal(Intent, BindingOf(t, a), t.token)) && w1.sends == w.sends && w1.legacy == w.legacy
    ensures w1.markers == w.markers[t.token := Reserved(BindingOf(t, a))]
  {
    var j := PutJournal(w, t.dir, Journal(Intent, BindingOf(t, a), t.token));
    LoadedNothing(w, t, a);
    CreatedReservation(j, t, a);
    Join(w, Authorized(t), [LoadJournal(a)], j, Reserving(t, a), [CreateReservation, WriteReservation]);
    es := [LoadJournal(a)] + [CreateReservation, WriteReservation];
    w1 := PutMarker(CreateMarker(j, t.token, OwnedBy(BindingOf(t, a))), t.token, Reserved(BindingOf(t, a)));
  }

  /** Second leg: the intent is found, another dispatch reserved, sent and received with. */
  lemma {:induction false} SendsAndStops(w: World, t: Task, a: nat, named: Token) returns (es: seq<Event>, w1: World)
    requires OnlyJournal(w, t.dir, Journal(Intent, BindingOf(t, a), named)) && t.token !in w.markers && t.token !in w.legacy
    ensures Follow(w, Authorized(t), es) == Some((w1, Finalizing(t, a)))
    ensures OnlyJournal(w1, t.dir, Journal(Receipt, BindingOf(t, a), t.token))
    ensures w1.sends == w.sends + [Sent(BindingOf(t, a), t.token, true, true)]
    ensures w1.markers == w.markers[t.token := Reserved(BindingOf(t, a))]
  {
    var b := BindingOf(t, a);
    var m := PutMarker(CreateMarker(w, t.token, OwnedBy(b)), t.token, Reserved(b));
    var q := PutJournal(m, t.dir, Journal(Sending, b, t.token));
    w1 := PutJournal(AfterSend(q, t, a, true, true), t.dir, Journal(Receipt, b, t.token));
    LoadedOwn(w, t);
    CreatedReservation(w, t, a);
    Join(w, Authorized(t), [LoadJournal(0)], w, Reserving(t, a), [CreateReservation, WriteReservation]);
    StartedSending(m, t, a);
    Join(w, Authorized(t), [LoadJournal(0)] + [CreateReservation, WriteReservation], m, Holding(t, a), [CommitSending]);
    SentDelivered(q, t, a, true);
    es := [LoadJournal(0)] + [CreateReservation, WriteReservation] + [CommitSending];
    Join(w, Authorized(t), es, q, ReadyToSend(t, a), [Send(true, true), CommitReceipt]);
    es := es + [Send(true, true), CommitReceipt];
  }

  /** Third leg: the receipt is found and completed with the dispatch of this request. */
  lemma {:induction false} CompletesWithOwn(w: World, t: Task, a: nat, named: Token) returns (es: seq<Event>, w1: World)
    requires OnlyJournal(w, t.dir, Journal(Receipt, BindingOf(t, a), named)) && t.entries == []
    requires t.token in w.markers && w.markers[t.token] == Reserved(BindingOf(t, a))
    ensures Follow(w, Authorized(t), es) == Some((w1, Finished(t.dir)))
    ensures FilesOf(w1, t.dir).ledger == [Entry(t.key, Applied)] && w1.sends == w.sends
    ensures w1.markers == w.markers[t.token := ConsumedBy(BindingOf(t, a))]
  {
    var c := PutMarker(PutMarker(w, t.token, Torn), t.token, ConsumedBy(BindingOf(t, a)));
    LoadedOwn(w, t);
    ConsumedReservation(w, t, a);
    Join(w, Authorized(t), [LoadJournal(0)], w, Finalizing(t, a), [OpenForConsumption, WriteConsumed]);
    es := [LoadJournal(0)] + [OpenForConsumption, WriteConsumed];
    Recorded(c, t, a);
    Join(w, Authorized(t), es, c, Finalized(t, a), [RecordApplied, SaveWatch]);
    es := es + [RecordApplied, SaveWatch];
    w1 := PutWatch(WithApplied(c, t), t.dir, t.next);
    assert !HasEntry(t.entries, t.key, Applied);
    assert t.entries + [Entry(t.key, Applied)] == [Entry(t.key, Applied)];
  }

  /** A leg as a run of the whole system in which nobody else is about, crash included. */
  lemma {:induction false} LegRuns(s: System, p: Process, d: Dir, o: Watch.Observation, t: Task, es: seq<Event>, w1: World, pc: Pc)
    returns (run: seq<(Process, Event)>)
    requires s.at == map[] && DirOf(o) == d && t.dir == d
    requires FilesOf(s.world, d).watch == Watch.EMPTY && FilesOf(s.world, d).ledger == []
    requires var e := Watch.Evaluate(o, Watch.EMPTY);
             e.Evaluated? && Watch.IsTyped(e.result) && t == Task(d, e.key, e.next, [], t.variant, t.token)
    requires Follow(s.world, Authorized(t), es) == Some((w1, pc))
    ensures Exec(s, run) == Some(System(w1, map[]))
  {
    var enter := [(p, Acquire(d)), (p, Evaluate(o)), (p, GateAllow(t.variant, t.token))];
    var t' := Entered(s, p, d, o, t.variant, t.token);
    var s1 := s.(at := s.at[p := Authorized(t)]);
    FollowingIsARun(s1, p, es);
    ExecMore(s, enter, By(p, es));
    var s2 := System(w1, s1.at[p := pc]);
    assert Apply(s2, p, Stop) == Some(System(w1, map[])) by { assert s2.at - {p} == map[]; }
    assert [(p, Stop)][1..] == [];
    assert Exec(s2, [(p, Stop)]) == Some(System(w1, map[]));
    ExecMore(s, enter + By(p, es), [(p, Stop)]);
    run := enter + By(p, es) + [(p, Stop)];
  }

  /** For any typed observation and any two unused dispatches there is a run, with two crashes, in
      which the effect is sent once with the second and recorded as applied by consuming the first,
      the sent one staying reserved. */
  lemma {:induction false} AppliedCanConsumeAnother(legacy: set<Token>, spent: set<Token>, o: Watch.Observation, v: Variant,
                                                    x: Token, y: Token, a: nat) returns (run: seq<(Process, Event)>)
    requires Watch.Evaluate(o, Watch.EMPTY).Evaluated? && Watch.IsTyped(Watch.Evaluate(o, Watch.EMPTY).result)
    requires x != y && x !in legacy + spent && y !in legacy + spent
    ensures Exec(Start(legacy, spent), run).Some?
    ensures var w, d, k := Exec(Start(legacy, spent), run).value.world, DirOf(o), Watch.Evaluate(o, Watch.EMPTY).key;
            var b := Binding(Effect(d, k, v), a);
            && FilesOf(w, d).ledger == [Entry(k, Applied)]
            && w.sends == [Sent(b, y, true, true)]
            && x in w.markers && w.markers[x] == ConsumedBy(b)
            && y in w.markers && w.markers[y] == Reserved(b)
  {
    run := ConsumesAnother(Start(legacy, spent), o, v, x, y, a);
  }

  lemma {:induction false} ConsumesAnother(s: System, o: Watch.Observation, v: Variant, x: Token, y: Token, a: nat)
    returns (run: seq<(Process, Event)>)
    requires s.at == map[] && s.world.files == map[] && s.world.sends == []
    requires Watch.Evaluate(o, Watch.EMPTY).Evaluated? && Watch.IsTyped(Watch.Evaluate(o, Watch.EMPTY).result)
    requires x != y && x !in s.world.legacy && y !in s.world.legacy && x !in s.world.markers && y !in s.world.markers
    ensures Exec(s, run).Some?
    ensures var w, d, k := Exec(s, run).value.world, DirOf(o), Watch.Evaluate(o, Watch.EMPTY).key;
            var b := Binding(Effect(d, k, v), a);
            && FilesOf(w, d).ledger == [Entry(k, Applied)]
            && w.sends == [Sent(b, y, true, true)]
            && x in w.markers && w.markers[x] == ConsumedBy(b)
            && y in w.markers && w.markers[y] == Reserved(b)
  {
    var d, e := DirOf(o), Watch.Evaluate(o, Watch.EMPTY);
    var first, second := Task(d, e.key, e.next, [], v, x), Task(d, e.key, e.next, [], v, y);
    var es1, w1 := ReservesAndStops(s.world, first, a);
    var run1 := LegRuns(s, 1, d, o, first, es1, w1, Holding(first, a));
    var es2, w2 := SendsAndStops(w1, second, a, x);
    var run2 := LegRuns(System(w1, map[]), 2, d, o, second, es2, w2, Finalizing(second, a));
    var es3, w3 := CompletesWithOwn(w2, first, a, y);
    var run3 := LegRuns(System(w2, map[]), 3, d, o, first, es3, w3, Finished(d));
    ExecMore(s, run1, run2);
    ExecMore(s, run1 + run2, run3);
    run := run1 + run2 + run3;
  }

  /** There are such observations: a transient failure with no retries left. */
  lemma {:induction false} TypedObservationExists()
    ensures var e := Watch.Evaluate(Watch.TransientAt(0, 3), Watch.EMPTY); e.Evaluated? && Watch.IsTyped(e.result)
  {
    var o := Watch.TransientAt(0, 3);
    var id := DirOf(o);
    Watch.StreakStep(Watch.EMPTY, id, [o], 3);
  }
}
