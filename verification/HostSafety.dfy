/**
 Safety of the watch host: every step keeps the protocol invariant, and what follows for
 every run with any number of processes, directories and dispatches.
 */
module HostSafety {

  import opened Options
  import opened DispatchRegistry
  import opened HostProtocol
  import Watch

  function Acted(s: System, p: Process, e: Event): System
    requires p in s.at && Act(s.world, s.at[p], e).Some?
  {
    var r := Act(s.world, s.at[p], e).value;
    System(r.0, s.at[p := r.1])
  }

  // ------------------------------------------------------- a step that writes nothing

  lemma {:induction false} MoveKeepsInv(s: System, p: Process, pc: Pc)
    requires Inv(s) && p in s.at && PcOk(s.world, pc)
    requires LockOf(pc) == LockOf(s.at[p]) && OpenToken(pc).None?
    ensures Inv(System(s.world, s.at[p := pc]))
  {
    forall q | q in s.at && q != p && LockOf(pc).Some? ensures LockOf(s.at[q]) != LockOf(pc) {
      assert Apart(s.at[p], s.at[q]);
    }
    StepKeepsInv(s, p, s.world, pc, LockOf(pc), None);
  }

  lemma {:induction false} EvaluateKeepsInv(s: System, p: Process, o: Watch.Observation)
    requires Inv(s) && p in s.at && s.at[p].Locked? && Look(s.world, s.at[p].dir, o).Some?
    ensures Inv(s.(at := s.at[p := Look(s.world, s.at[p].dir, o).value]))
  {
    Watch.TypedActionsAreNewAndNamed(FilesOf(s.world, s.at[p].dir).watch, o);
    MoveKeepsInv(s, p, Look(s.world, s.at[p].dir, o).value);
  }

  lemma {:induction false} GateKeepsInv(s: System, p: Process, e: Event)
    requires Inv(s) && p in s.at && s.at[p].Typed? && Act(s.world, s.at[p], e).Some?
    ensures Inv(Acted(s, p, e))
  {
    var pc := s.at[p];
    forall i | 0 <= i < |pc.entries| && pc.entries[i].key == pc.key
      ensures HasEntry(pc.entries, pc.key, Applied) || HasEntry(pc.entries, pc.key, Unknown)
    {
      match pc.entries[i].outcome {
        case Applied => assert pc.entries[i] == Entry(pc.key, Applied);
        case Unknown => assert pc.entries[i] == Entry(pc.key, Unknown);
      }
    }
    MoveKeepsInv(s, p, Act(s.world, pc, e).value.1);
  }

  // -------------------------------------------------------------- journal commits

  /** A journal commit by the lock holder: the phase only moves up, an early phase is
      committed only while nothing was sent, a receipt only after a delivered send. */
  lemma {:induction false} JournalKeepsInv(s: System, p: Process, j: Journal, pc: Pc)
    requires Inv(s) && p in s.at && LockOf(s.at[p]).Some? && OpenToken(pc).None?
    requires var d := LockOf(s.at[p]).value;
             var w' := PutJournal(s.world, d, j);
             && LockOf(pc) == Some(d) && PcOk(w', pc)
             && (Rank(j) < 2 ==> NoSendIn(s.world, d))
             && (j.Journal? && j.phase == Receipt ==> DeliveredSend(s.world, j.bound))
    ensures var d := LockOf(s.at[p]).value;
            Inv(System(PutJournal(s.world, d, j), s.at[p := pc]))
  {
    var d := LockOf(s.at[p]).value;
    var w' := PutJournal(s.world, d, j);
    forall q | q in s.at && q != p ensures LockOf(s.at[q]) != Some(d) {
      assert Apart(s.at[p], s.at[q]);
    }
    assert DirectoryOk(s.world, d);
    FrameLedger(s.world, w', Some(d), d);
    if j.Journal? && j.phase == Receipt { FrameDelivered(s.world, w', Some(d), j.bound); }
    StepKeepsInv(s, p, w', pc, Some(d), None);
  }

  lemma {:induction false} IntentKeepsInv(s: System, p: Process, t: Task, a: nat)
    requires Inv(s) && p in s.at && s.at[p] == Authorized(t) && FilesOf(s.world, t.dir).journal == NoJournal
    ensures Inv(System(PutJournal(s.world, t.dir, Journal(Intent, BindingOf(t, a), t.token)), s.at[p := Reserving(t, a)]))
  {
    assert DirectoryOk(s.world, t.dir);
    JournalKeepsInv(s, p, Journal(Intent, BindingOf(t, a), t.token), Reserving(t, a));
  }

  lemma {:induction false} ResumeKeepsInv(s: System, p: Process, t: Task)
    requires Inv(s) && p in s.at && s.at[p] == Authorized(t)
    requires var j := FilesOf(s.world, t.dir).journal;
             j.Journal? && (j.phase == Intent || j.phase == Receipt)
    ensures var j := FilesOf(s.world, t.dir).journal;
            && (j.bound.effect == Effect(t.dir, t.key, t.variant) && j.phase == Intent ==>
                  Inv(s.(at := s.at[p := Reserving(t, j.bound.attempt)])))
            && (j.bound.effect == Effect(t.dir, t.key, t.variant) && j.phase == Receipt ==>
                  Inv(s.(at := s.at[p := Finalizing(t, j.bound.attempt)])))
            && Inv(s.(at := s.at[p := Mismatched(t)]))
  {
    var j := FilesOf(s.world, t.dir).journal;
    MoveKeepsInv(s, p, Mismatched(t));
    if j.bound.effect == Effect(t.dir, t.key, t.variant) {
      assert j.bound == BindingOf(t, j.bound.attempt);
      if j.phase == Intent { MoveKeepsInv(s, p, Reserving(t, j.bound.attempt)); }
      else { MoveKeepsInv(s, p, Finalizing(t, j.bound.attempt)); }
    }
  }

  lemma {:induction false} MismatchKeepsInv(s: System, p: Process, t: Task)
    requires Inv(s) && p in s.at && s.at[p] == Mismatched(t) && FilesOf(s.world, t.dir).journal.Journal?
    ensures Inv(System(PutJournal(s.world, t.dir, FilesOf(s.world, t.dir).journal.(phase := Ambiguous)),
                       s.at[p := Finished(t.dir)]))
  {
    JournalKeepsInv(s, p, FilesOf(s.world, t.dir).journal.(phase := Ambiguous), Finished(t.dir));
  }

  lemma {:induction false} SendingKeepsInv(s: System, p: Process, t: Task, a: nat)
    requires Inv(s) && p in s.at && s.at[p] == Holding(t, a)
    ensures Inv(System(PutJournal(s.world, t.dir, Journal(Sending, BindingOf(t, a), t.token)), s.at[p := ReadyToSend(t, a)]))
  {
    assert DirectoryOk(s.world, t.dir);
    JournalKeepsInv(s, p, Journal(Sending, BindingOf(t, a), t.token), ReadyToSend(t, a));
  }

  lemma {:induction false} ReceiptKeepsInv(s: System, p: Process, t: Task, a: nat)
    requires Inv(s) && p in s.at && s.at[p] == GotReceipt(t, a)
    ensures Inv(System(PutJournal(s.world, t.dir, Journal(Receipt, BindingOf(t, a), t.token)), s.at[p := Finalizing(t, a)]))
  {
    JournalKeepsInv(s, p, Journal(Receipt, BindingOf(t, a), t.token), Finalizing(t, a));
  }

  lemma {:induction false} AmbiguousKeepsInv(s: System, p: Process, t: Task, a: nat, record: bool)
    requires Inv(s) && p in s.at && s.at[p] == Failed(t, a, record)
    ensures Inv(System(PutJournal(s.world, t.dir, Journal(Ambiguous, BindingOf(t, a), t.token)),
                       s.at[p := if record then SavingUnknown(t.dir, t.key, t.entries) else Finished(t.dir)]))
  {
    JournalKeepsInv(s, p, Journal(Ambiguous, BindingOf(t, a), t.token), if record then SavingUnknown(t.dir, t.key, t.entries) else Finished(t.dir));
  }

  // ------------------------------------------------------------------ the send

  lemma {:induction false} SendFrame(w: World, t: Task, a: nat, receipt: bool, info: bool)
    requires DirectoryOk(w, t.dir) && RegistryOk(w) && SendsOk(w)
    requires JournalIs(w, t.dir, Sending, BindingOf(t, a)) && NoSendIn(w, t.dir) && OwnedToken(w, t.token, BindingOf(t, a))
    ensures var w' := w.(sends := w.sends + [Sent(BindingOf(t, a), t.token, receipt, info)]);
            && Frame(w, w', Some(t.dir)) && DirectoryOk(w', t.dir) && RegistryOk(w') && SendsOk(w')
            && (Delivered(t.key, receipt, info) ==> DeliveredSend(w', BindingOf(t, a)))
  {
    var w' := w.(sends := w.sends + [Sent(BindingOf(t, a), t.token, receipt, info)]);
    FrameLedger(w, w', Some(t.dir), t.dir);
    assert w'.sends[|w.sends|] == Sent(BindingOf(t, a), t.token, receipt, info);
  }

  lemma {:induction false} SendKeepsInv(s: System, p: Process, t: Task, a: nat, receipt: bool, info: bool)
    requires Inv(s) && p in s.at && s.at[p] == ReadyToSend(t, a)
    ensures var w' := s.world.(sends := s.world.sends + [Sent(BindingOf(t, a), t.token, receipt, info)]);
            var pc := if Delivered(t.key, receipt, info) then GotReceipt(t, a) else Failed(t, a, !receipt);
            Inv(System(w', s.at[p := pc]))
  {
    var w' := s.world.(sends := s.world.sends + [Sent(BindingOf(t, a), t.token, receipt, info)]);
    var pc := if Delivered(t.key, receipt, info) then GotReceipt(t, a) else Failed(t, a, !receipt);
    forall q | q in s.at && q != p ensures LockOf(s.at[q]) != Some(t.dir) {
      assert Apart(s.at[p], s.at[q]);
    }
    assert DirectoryOk(s.world, t.dir);
    SendFrame(s.world, t, a, receipt, info);
    StepKeepsInv(s, p, w', pc, Some(t.dir), None);
  }

  // ------------------------------------------------------- the registry's file steps

  ghost predicate OwnerMatches(m: Marker<Binding>, o: Owner) {
    match m
    case Torn => true
    case ConsumedByNobody => o == Nobody
    case _ => o == OwnedBy(m.owner)
  }

  /** Writing a marker that is new, torn or reserved keeps the registry's history. */
  lemma {:induction false} MarkerFrame(w: World, w': World, t: Token, m: Marker<Binding>, o: Owner)
    requires RegistryOk(w) && SendsOk(w)
    requires t !in w.markers || w.markers[t].Torn? || w.markers[t].Reserved?
    requires w' == w.(markers := w.markers[t := m], owners := w.owners[t := o])
    requires t in w.owners ==> o == w.owners[t]
    requires OwnerMatches(m, o)
    ensures Frame(w, w', None) && RegistryOk(w') && SendsOk(w')
  {
  }

  /** A marker step of p on a file that is new, that p has open, or that is a reservation. */
  lemma {:induction false} MarkerKeepsInv(s: System, p: Process, w': World, t: Token, m: Marker<Binding>, o: Owner, pc: Pc)
    requires Inv(s) && p in s.at
    requires t !in s.world.markers || OpenToken(s.at[p]) == Some(t) || s.world.markers[t].Reserved?
    requires w' == s.world.(markers := s.world.markers[t := m], owners := s.world.owners[t := o])
    requires t in s.world.owners ==> o == s.world.owners[t]
    requires OwnerMatches(m, o)
    requires LockOf(pc) == LockOf(s.at[p]) && (OpenToken(pc).Some? ==> OpenToken(pc) == Some(t) && m.Torn?)
    requires PcOk(w', pc)
    ensures Inv(System(w', s.at[p := pc]))
  {
    var d := LockOf(s.at[p]);
    assert OpenIsTorn(s.world, s.at[p]);
    MarkerFrame(s.world, w', t, m, o);
    OthersStayOut(s, p, t);
    if d.Some? { FrameDirectory(s.world, w', None, d.value); }
    assert Frame(s.world, w', d);
    StepKeepsInv(s, p, w', pc, d, Some(t));
  }

  lemma {:induction false} OthersStayOut(s: System, p: Process, t: Token)
    requires Inv(s) && p in s.at
    requires t !in s.world.markers || OpenToken(s.at[p]) == Some(t) || s.world.markers[t].Reserved?
    ensures forall q :: q in s.at && q != p ==> OpenToken(s.at[q]) != Some(t)
    ensures forall q :: q in s.at && q != p && LockOf(s.at[p]).Some? ==> LockOf(s.at[q]) != LockOf(s.at[p])
  {
    forall q | q in s.at && q != p
      ensures OpenToken(s.at[q]) != Some(t) && (LockOf(s.at[p]).Some? ==> LockOf(s.at[q]) != LockOf(s.at[p]))
    {
      assert Apart(s.at[p], s.at[q]) && OpenIsTorn(s.world, s.at[q]);
    }
  }

  lemma {:induction false} CreateKeepsInv(s: System, p: Process, t: Task, a: nat)
    requires Inv(s) && p in s.at && s.at[p] == Reserving(t, a) && t.token !in s.world.markers
    ensures Inv(System(CreateMarker(s.world, t.token, OwnedBy(BindingOf(t, a))), s.at[p := WritingReservation(t, a)]))
  {
    assert RegistryOk(s.world);
    MarkerKeepsInv(s, p, CreateMarker(s.world, t.token, OwnedBy(BindingOf(t, a))), t.token, Torn, OwnedBy(BindingOf(t, a)),
                   WritingReservation(t, a));
  }

  lemma {:induction false} RewriteKeepsInv(s: System, p: Process, t: Token, m: Marker<Binding>, pc: Pc)
    requires Inv(s) && p in s.at && t in s.world.owners
    requires OpenToken(s.at[p]) == Some(t) || (t in s.world.markers && s.world.markers[t].Reserved?)
    requires OwnerMatches(m, s.world.owners[t])
    requires LockOf(pc) == LockOf(s.at[p]) && (OpenToken(pc).Some? ==> OpenToken(pc) == Some(t) && m.Torn?)
    requires PcOk(PutMarker(s.world, t, m), pc)
    ensures Inv(System(PutMarker(s.world, t, m), s.at[p := pc]))
  {
    var w' := PutMarker(s.world, t, m);
    assert w' == s.world.(markers := s.world.markers[t := m], owners := s.world.owners[t := s.world.owners[t]]);
    MarkerKeepsInv(s, p, w', t, m, s.world.owners[t], pc);
  }

  lemma {:induction false} CreateConsumedKeepsInv(s: System, p: Process, t: Token)
    requires Inv(s) && p !in s.at && t !in s.world.markers
    ensures Inv(System(CreateMarker(s.world, t, Nobody), s.at[p := Consuming(t)]))
  {
    StepKeepsInv(s, p, CreateMarker(s.world, t, Nobody), Consuming(t), None, Some(t));
  }

  // -------------------------------------------------------- ledger and watch state

  lemma {:induction false} AppendKeepsLedger(w: World, d: Dir, k: Watch.Key, out: Outcome, w': World)
    requires LedgerOk(w, d) && KeyOf(d, k) && NoEntryFor(FilesOf(w, d).ledger, k)
    requires w' == PutLedger(w, d, FilesOf(w, d).ledger + [Entry(k, out)])
    requires out == Applied ==> Evidence(w, d, k)
    ensures LedgerOk(w', d)
  {
    var es, es' := FilesOf(w, d).ledger, FilesOf(w', d).ledger;
    assert Frame(w, w', Some(d));
    forall i | 0 <= i < |es'| && es'[i].outcome == Applied ensures Evidence(w', d, es'[i].key) {
      assert es'[i] == if i < |es| then es[i] else Entry(k, out);
      FrameEvidence(w, w', Some(d), d, es'[i].key);
    }
  }

  lemma {:induction false} LedgerFrame(w: World, d: Dir, k: Watch.Key, out: Outcome)
    requires DirectoryOk(w, d) && RegistryOk(w) && SendsOk(w)
    requires KeyOf(d, k) && NoEntryFor(FilesOf(w, d).ledger, k) && (out == Applied ==> Evidence(w, d, k))
    ensures var w' := PutLedger(w, d, FilesOf(w, d).ledger + [Entry(k, out)]);
            Frame(w, w', Some(d)) && DirectoryOk(w', d) && RegistryOk(w') && SendsOk(w')
  {
    var w' := PutLedger(w, d, FilesOf(w, d).ledger + [Entry(k, out)]);
    AppendKeepsLedger(w, d, k, out, w');
    var j := FilesOf(w, d).journal;
    if j.Journal? && j.phase == Receipt { FrameDelivered(w, w', Some(d), j.bound); }
  }

  lemma {:induction false} LedgerKeepsInv(s: System, p: Process, k: Watch.Key, out: Outcome, pc: Pc)
    requires Inv(s) && p in s.at && LockOf(s.at[p]).Some?
    requires (pc.SavingWatch? || pc.Finished?) && LockOf(pc) == LockOf(s.at[p])
    requires var d := LockOf(s.at[p]).value;
             KeyOf(d, k) && NoEntryFor(FilesOf(s.world, d).ledger, k) && (out == Applied ==> Evidence(s.world, d, k))
    ensures var d := LockOf(s.at[p]).value;
            Inv(System(PutLedger(s.world, d, FilesOf(s.world, d).ledger + [Entry(k, out)]), s.at[p := pc]))
  {
    var d := LockOf(s.at[p]).value;
    var w' := PutLedger(s.world, d, FilesOf(s.world, d).ledger + [Entry(k, out)]);
    forall q | q in s.at && q != p ensures LockOf(s.at[q]) != Some(d) {
      assert Apart(s.at[p], s.at[q]);
    }
    assert DirectoryOk(s.world, d);
    LedgerFrame(s.world, d, k, out);
    StepKeepsInv(s, p, w', pc, Some(d), None);
  }

  lemma {:induction false} RecordAppliedKeepsInv(s: System, p: Process, t: Task, a: nat)
    requires Inv(s) && p in s.at && s.at[p] == Finalized(t, a)
    ensures Inv(System(PutLedger(s.world, t.dir, t.entries + [Entry(t.key, Applied)]), s.at[p := SavingWatch(t.dir, t.next)]))
  {
    assert DirectoryOk(s.world, t.dir);
    assert DeliveredSend(s.world, BindingOf(t, a)) && ConsumedFor(s.world, t.token, BindingOf(t, a));
    assert Evidence(s.world, t.dir, t.key);
    LedgerKeepsInv(s, p, t.key, Applied, SavingWatch(t.dir, t.next));
  }

  lemma {:induction false} SaveUnknownKeepsInv(s: System, p: Process, d: Dir, k: Watch.Key, es: seq<Entry>)
    requires Inv(s) && p in s.at && s.at[p] == SavingUnknown(d, k, es)
    ensures Inv(System(PutLedger(s.world, d, es + [Entry(k, Unknown)]), s.at[p := Finished(d)]))
  {
    LedgerKeepsInv(s, p, k, Unknown, Finished(d));
  }

  lemma {:induction false} SaveWatchKeepsInv(s: System, p: Process, d: Dir, n: Watch.State)
    requires Inv(s) && p in s.at && s.at[p] == SavingWatch(d, n)
    ensures Inv(System(PutWatch(s.world, d, n), s.at[p := Finished(d)]))
  {
    var w' := PutWatch(s.world, d, n);
    assert OpenToken(s.at[p]).None?;
    forall q | q in s.at && q != p ensures LockOf(s.at[q]) != Some(d) {
      assert Apart(s.at[p], s.at[q]);
    }
    WatchFileStaysOut(s.world, d, n);
    StepKeepsInv(s, p, w', Finished(d), Some(d), None);
  }

  lemma {:induction false} WatchFileStaysOut(w: World, d: Dir, n: Watch.State)
    requires DirectoryOk(w, d) && RegistryOk(w) && SendsOk(w)
    ensures var w' := PutWatch(w, d, n);
            Frame(w, w', Some(d)) && DirectoryOk(w', d) && RegistryOk(w') && SendsOk(w')
  {
    var w' := PutWatch(w, d, n);
    FrameLedger(w, w', Some(d), d);
    var j := FilesOf(w, d).journal;
    if j.Journal? && j.phase == Receipt { FrameDelivered(w, w', Some(d), j.bound); }
  }

  // ------------------------------------------------------------------ every event

  lemma {:induction false} StopKeepsInv(s: System, p: Process)
    requires Inv(s) && p in s.at
    ensures Inv(s.(at := s.at - {p}))
  {
  }

  lemma {:induction false} AcquireKeepsInv(s: System, p: Process, d: Dir)
    requires Inv(s) && p !in s.at && Unlocked(s, d)
    ensures Inv(s.(at := s.at[p := Locked(d)]))
  {
    StepKeepsInv(s, p, s.world, Locked(d), Some(d), None);
  }

  lemma {:induction false} ReservationKeepsInv(s: System, p: Process, e: Event)
    requires Inv(s) && p in s.at && Act(s.world, s.at[p], e).Some?
    requires e in {CreateReservation, WriteReservation}
    ensures Inv(Acted(s, p, e))
  {
    var t, a := s.at[p].task, s.at[p].attempt;
    if e.CreateReservation? {
      if t.token !in s.world.markers { CreateKeepsInv(s, p, t, a); }
      else {
        assert RegistryOk(s.world);
        MoveKeepsInv(s, p, Holding(t, a));
      }
    } else {
      RewriteKeepsInv(s, p, t.token, Reserved(BindingOf(t, a)), Holding(t, a));
    }
  }

  lemma {:induction false} OpenKeepsInv(s: System, p: Process, t: Task, a: nat)
    requires Inv(s) && p in s.at && s.at[p] == Finalizing(t, a) && t.token in s.world.markers
    ensures s.world.markers[t.token] == ConsumedBy(BindingOf(t, a)) ==>
              Inv(System(s.world, s.at[p := Finalized(t, a)]))
    ensures s.world.markers[t.token] == Reserved(BindingOf(t, a)) ==>
              Inv(System(PutMarker(s.world, t.token, Torn), s.at[p := WritingConsumed(t, a)]))
  {
    if s.world.markers[t.token] == ConsumedBy(BindingOf(t, a)) { MoveKeepsInv(s, p, Finalized(t, a)); }
    if s.world.markers[t.token] == Reserved(BindingOf(t, a)) {
      assert RegistryOk(s.world);
      RewriteKeepsInv(s, p, t.token, Torn, WritingConsumed(t, a));
    }
  }

  lemma {:induction false} WriteConsumedKeepsInv(s: System, p: Process, t: Task, a: nat)
    requires Inv(s) && p in s.at && s.at[p] == WritingConsumed(t, a)
    ensures Inv(System(PutMarker(s.world, t.token, ConsumedBy(BindingOf(t, a))), s.at[p := Finalized(t, a)]))
  {
    RewriteKeepsInv(s, p, t.token, ConsumedBy(BindingOf(t, a)), Finalized(t, a));
  }

  lemma {:induction false} LoadKeepsInv(s: System, p: Process, newAttempt: nat)
    requires Inv(s) && p in s.at && s.at[p].Authorized? && Act(s.world, s.at[p], LoadJournal(newAttempt)).Some?
    ensures Inv(Acted(s, p, LoadJournal(newAttempt)))
  {
    var t := s.at[p].task;
    if FilesOf(s.world, t.dir).journal.NoJournal? { IntentKeepsInv(s, p, t, newAttempt); } else { ResumeKeepsInv(s, p, t); }
  }

  lemma {:induction false} CommitKeepsInv(s: System, p: Process, e: Event)
    requires Inv(s) && p in s.at && Act(s.world, s.at[p], e).Some?
    requires e in {CommitMismatch, CommitSending, CommitReceipt, CommitAmbiguous}
    ensures Inv(Acted(s, p, e))
  {
    var t := s.at[p].task;
    if e.CommitMismatch? { MismatchKeepsInv(s, p, t); }
    else if e.CommitSending? { SendingKeepsInv(s, p, t, s.at[p].attempt); }
    else if e.CommitReceipt? { ReceiptKeepsInv(s, p, t, s.at[p].attempt); }
    else { AmbiguousKeepsInv(s, p, t, s.at[p].attempt, s.at[p].record); }
  }

  /** The protocol invariant is kept by every step of every process. */
  lemma {:induction false} ApplyKeepsInv(s: System, p: Process, e: Event)
    requires Inv(s) && Apply(s, p, e).Some?
    ensures Inv(Apply(s, p, e).value)
  {
    match e {
      case Acquire(d) => AcquireKeepsInv(s, p, d);
      case CreateConsumed(t) => CreateConsumedKeepsInv(s, p, t);
      case Stop => StopKeepsInv(s, p);
      case Evaluate(o) => EvaluateKeepsInv(s, p, o);
      case _ => ActKeepsInv(s, p, e);
    }
  }

  lemma {:induction false} ActKeepsInv(s: System, p: Process, e: Event)
    requires Inv(s) && p in s.at && Act(s.world, s.at[p], e).Some?
    ensures Inv(Acted(s, p, e))
  {
    match e {
      case AlreadyApplied | GateReplay | GateUnknown | GateAllow(_, _) => GateKeepsInv(s, p, e);
      case LoadJournal(a) => LoadKeepsInv(s, p, a);
      case CommitMismatch | CommitSending | CommitReceipt | CommitAmbiguous => CommitKeepsInv(s, p, e);
      case Send(r, i) => SendKeepsInv(s, p, s.at[p].task, s.at[p].attempt, r, i);
      case CreateReservation | WriteReservation => ReservationKeepsInv(s, p, e);
      case OpenForConsumption => OpenKeepsInv(s, p, s.at[p].task, s.at[p].attempt);
      case WriteConsumed => WriteConsumedKeepsInv(s, p, s.at[p].task, s.at[p].attempt);
      case WriteConsumedByNobody => RewriteKeepsInv(s, p, s.at[p].spends, ConsumedByNobody, Spent);
      case RecordApplied =>
        assert !HasEntry(s.at[p].task.entries, s.at[p].task.key, Applied);
        RecordAppliedKeepsInv(s, p, s.at[p].task, s.at[p].attempt);
      case SaveUnknown => SaveUnknownKeepsInv(s, p, s.at[p].dir, s.at[p].key, s.at[p].entries);
      case SaveWatch => SaveWatchKeepsInv(s, p, s.at[p].dir, s.at[p].next);
      case _ =>
    }
  }

  // ------------------------------------------------------------------ every run

  lemma {:induction false} StartInv(legacy: set<Token>, spent: set<Token>)
    ensures Inv(Start(legacy, spent))
  {
  }

  lemma {:induction false} RunKeepsInv(s: System, run: seq<(Process, Event)>)
    requires Inv(s) && Exec(s, run).Some?
    ensures Inv(Exec(s, run).value)
    decreases |run|
  {
    if run != [] {
      ApplyKeepsInv(s, run[0].0, run[0].1);
      RunKeepsInv(Apply(s, run[0].0, run[0].1).value, run[1..]);
    }
  }

  /** s is what some run leads to, from an empty state root and any spent dispatches. */
  ghost predicate Reachable(s: System) {
    exists legacy, spent, run :: Exec(Start(legacy, spent), run) == Some(s)
  }

  lemma {:induction false} ReachableInv(s: System)
    requires Reachable(s)
    ensures Inv(s)
  {
    var legacy, spent, run :| Exec(Start(legacy, spent), run) == Some(s);
    StartInv(legacy, spent);
    RunKeepsInv(Start(legacy, spent), run);
  }

  /** At most one send per watch directory and at most one per dispatch, ever.  Each was
      made after its SENDING phase was durable, with a dispatch that the same effect and
      attempt had created the marker of. */
  lemma {:induction false} AtMostOneSend(s: System)
    requires Reachable(s)
    ensures forall i, j :: 0 <= i < j < |s.world.sends| ==>
              && s.world.sends[i].bound.effect.dir != s.world.sends[j].bound.effect.dir
              && s.world.sends[i].token != s.world.sends[j].token
    ensures forall i :: 0 <= i < |s.world.sends| ==>
              && Rank(FilesOf(s.world, s.world.sends[i].bound.effect.dir).journal) >= 2
              && OwnedToken(s.world, s.world.sends[i].token, s.world.sends[i].bound)
  {
    ReachableInv(s);
    forall i | 0 <= i < |s.world.sends|
      ensures Rank(FilesOf(s.world, s.world.sends[i].bound.effect.dir).journal) >= 2
    {
      assert DirectoryOk(s.world, s.world.sends[i].bound.effect.dir);
    }
  }

  /** An APPLIED ledger entry stands for exactly one send of its directory, of the effect
      with the entry's own key, which came back delivered, and for a dispatch consumed by
      that effect and attempt. */
  lemma {:induction false} AppliedMeansDeliveredOnce(s: System, d: Dir, k: Watch.Key)
    requires Reachable(s) && HasEntry(FilesOf(s.world, d).ledger, k, Applied)
    ensures exists i, t ::
              && 0 <= i < |s.world.sends|
              && s.world.sends[i].bound.effect.dir == d && s.world.sends[i].bound.effect.key == k
              && Delivered(k, s.world.sends[i].receipt, s.world.sends[i].info)
              && ConsumedFor(s.world, t, s.world.sends[i].bound)
              && forall j :: 0 <= j < |s.world.sends| && j != i ==> s.world.sends[j].bound.effect.dir != d
  {
    ReachableInv(s);
    var es := FilesOf(s.world, d).ledger;
    assert DirectoryOk(s.world, d);
    var e :| 0 <= e < |es| && es[e] == Entry(k, Applied);
    assert Evidence(s.world, d, k);
    var b: Binding, t: Token :| b.effect.dir == d && b.effect.key == k && ConsumedFor(s.world, t, b) && DeliveredSend(s.world, b);
    var i :| 0 <= i < |s.world.sends| && s.world.sends[i].bound == b &&
             Delivered(b.effect.key, s.world.sends[i].receipt, s.world.sends[i].info);
    assert ConsumedFor(s.world, t, s.world.sends[i].bound);
    forall j | 0 <= j < |s.world.sends| && j != i ensures s.world.sends[j].bound.effect.dir != d {
      assert if i < j then s.world.sends[i].bound.effect.dir != s.world.sends[j].bound.effect.dir
             else s.world.sends[j].bound.effect.dir != s.world.sends[i].bound.effect.dir;
    }
  }

  // ------------------------------------------------------------ the bounded ledger

  /** The nine pairs of a typed result and the decision it reports. */
  ghost function Names(): set<(Watch.Result, Watch.Coordinator.Decision)> {
    {(Watch.WakeCoordinator, Watch.Coordinator.AdmitImplementation), (Watch.WakeCoordinator, Watch.Coordinator.AuditDirtyTree),
     (Watch.WakeCoordinator, Watch.Coordinator.AuthorizePublication), (Watch.WakeCoordinator, Watch.Coordinator.AuditReview),
     (Watch.WakeCoordinator, Watch.Coordinator.MergeReady), (Watch.WakeCoordinator, Watch.Coordinator.ReplanSemanticFailure),
     (Watch.WakeCoordinator, Watch.Coordinator.StaleWorker), (Watch.ResumeAdmittedWorker, Watch.Coordinator.ResumeWorker),
     (Watch.NotifyOwner, Watch.Coordinator.BlockHuman)}
  }

  lemma {:induction false} DistinctIsSmall<T>(s: seq<T>, bound: set<T>)
    requires forall i :: 0 <= i < |s| ==> s[i] in bound
    requires forall i, j :: 0 <= i < j < |s| ==> s[i] != s[j]
    ensures |s| <= |bound|
    decreases |s|
  {
    if s != [] {
      DistinctIsSmall(s[1..], bound - {s[0]});
    }
  }

  /** Different keys of one directory differ in their typed pair, and there are nine. */
  lemma {:induction false} NineKeys(d: Dir, es: seq<Entry>)
    requires forall i :: 0 <= i < |es| ==> KeyOf(d, es[i].key)
    requires forall i, j :: 0 <= i < j < |es| ==> es[i].key != es[j].key
    ensures |es| <= 9
  {
    var pairs := seq(|es|, i requires 0 <= i < |es| => (es[i].key.result, es[i].key.name.d));
    forall i | 0 <= i < |pairs| ensures pairs[i] in Names() {
      assert KeyOf(d, es[i].key);
    }
    forall i, j | 0 <= i < j < |pairs| ensures pairs[i] != pairs[j] {
      assert KeyOf(d, es[i].key) && KeyOf(d, es[j].key);
    }
    DistinctIsSmall(pairs, Names());
  }

  lemma {:induction false} SmallLedger(s: System, d: Dir)
    requires Inv(s)
    ensures |FilesOf(s.world, d).ledger| <= 9
  {
    assert DirectoryOk(s.world, d);
    NineKeys(d, FilesOf(s.world, d).ledger);
  }

  lemma {:induction false} AppendIsAllowed(s: System, p: Process)
    requires Inv(s) && p in s.at
    ensures s.at[p].Finalized? ==> Act(s.world, s.at[p], RecordApplied).Some?
    ensures s.at[p].SavingUnknown? ==> Act(s.world, s.at[p], SaveUnknown).Some?
  {
    if s.at[p].Finalized? { SmallLedger(s, s.at[p].task.dir); }
    if s.at[p].SavingUnknown? { SmallLedger(s, s.at[p].dir); }
  }

  /** In every reachable state a ledger lists each notification key at most once and so has
      at most nine entries; a process about to append one always may: the 32-entry bound
      never trips. */
  lemma {:induction false} LedgerNeverFills(s: System)
    requires Reachable(s)
    ensures forall d :: |FilesOf(s.world, d).ledger| <= 9
    ensures forall d, i, j :: 0 <= i < j < |FilesOf(s.world, d).ledger| ==>
              FilesOf(s.world, d).ledger[i].key != FilesOf(s.world, d).ledger[j].key
    ensures forall p :: p in s.at && s.at[p].Finalized? ==> Act(s.world, s.at[p], RecordApplied).Some?
    ensures forall p :: p in s.at && s.at[p].SavingUnknown? ==> Act(s.world, s.at[p], SaveUnknown).Some?
  {
    ReachableInv(s);
    forall d
      ensures |FilesOf(s.world, d).ledger| <= 9
      ensures forall i, j :: 0 <= i < j < |FilesOf(s.world, d).ledger| ==>
                FilesOf(s.world, d).ledger[i].key != FilesOf(s.world, d).ledger[j].key
    {
      SmallLedger(s, d);
      assert DirectoryOk(s.world, d);
    }
    forall p | p in s.at
      ensures s.at[p].Finalized? ==> Act(s.world, s.at[p], RecordApplied).Some?
      ensures s.at[p].SavingUnknown? ==> Act(s.world, s.at[p], SaveUnknown).Some?
    {
      AppendIsAllowed(s, p);
    }
  }

  // ------------------------------------------------------- what a run never undoes

  ghost predicate PhasesRise(w: World, w': World) {
    forall d :: Rank(FilesOf(w, d).journal) <= Rank(FilesOf(w', d).journal)
  }

  ghost predicate HistoryStays(w: World, w': World) {
    && (forall t :: t in w.owners ==> t in w'.owners && w'.owners[t] == w.owners[t])
    && (forall t, b :: ConsumedFor(w, t, b) ==> ConsumedFor(w', t, b))
    && |w.sends| <= |w'.sends| && w'.sends[..|w.sends|] == w.sends
  }

  /** Between two states of a run: journal phases only move up, a marker's creator stays,
      a consumed dispatch stays consumed, and what was sent stays sent. */
  ghost predicate Onward(w: World, w': World) {
    PhasesRise(w, w') && HistoryStays(w, w')
  }

  lemma {:induction false} ActRaisesPhases(s: System, p: Process, e: Event)
    requires Inv(s) && p in s.at && Act(s.world, s.at[p], e).Some?
    ensures PhasesRise(s.world, Acted(s, p, e).world)
  {
    assert PcOk(s.world, s.at[p]);
  }

  predicate TouchesMarkers(e: Event) {
    e in {CreateReservation, WriteReservation, OpenForConsumption, WriteConsumed, WriteConsumedByNobody}
  }

  lemma {:induction false} OtherActsLeaveMarkers(w: World, pc: Pc, e: Event)
    requires Act(w, pc, e).Some? && !TouchesMarkers(e)
    ensures HistoryStays(w, Act(w, pc, e).value.0)
  {
  }

  lemma {:induction false} MarkerActsKeepHistory(s: System, p: Process, e: Event)
    requires Inv(s) && p in s.at && Act(s.world, s.at[p], e).Some? && TouchesMarkers(e)
    ensures HistoryStays(s.world, Acted(s, p, e).world)
  {
    assert OpenIsTorn(s.world, s.at[p]);
    assert s.world.owners.Keys == s.world.markers.Keys by { assert RegistryOk(s.world); }
    var w' := Acted(s, p, e).world;
    assert w'.sends == s.world.sends;
  }

  lemma {:induction false} RunsMoveOnward(s: System, run: seq<(Process, Event)>)
    requires Inv(s) && Exec(s, run).Some?
    ensures Onward(s.world, Exec(s, run).value.world)
    decreases |run|
  {
    if run != [] {
      var s1 := Apply(s, run[0].0, run[0].1).value;
      ApplyOnward(s, run[0].0, run[0].1);
      ApplyKeepsInv(s, run[0].0, run[0].1);
      RunsMoveOnward(s1, run[1..]);
      OnwardTransitive(s.world, s1.world, Exec(s, run).value.world);
    }
  }

  lemma {:induction false} OnwardTransitive(a: World, b: World, c: World)
    requires Onward(a, b) && Onward(b, c)
    ensures Onward(a, c)
  {
    assert c.sends[..|a.sends|] == c.sends[..|b.sends|][..|a.sends|];
  }

  lemma {:induction false} ActOnward(s: System, p: Process, e: Event)
    requires Inv(s) && p in s.at && Act(s.world, s.at[p], e).Some?
    ensures Onward(s.world, Acted(s, p, e).world)
  {
    ActRaisesPhases(s, p, e);
    if TouchesMarkers(e) { MarkerActsKeepHistory(s, p, e); } else { OtherActsLeaveMarkers(s.world, s.at[p], e); }
  }

  lemma {:induction false} ApplyOnward(s: System, p: Process, e: Event)
    requires Inv(s) && Apply(s, p, e).Some?
    ensures Onward(s.world, Apply(s, p, e).value.world)
  {
    if e.CreateConsumed? {
      assert RegistryOk(s.world);
    } else if !e.Acquire? && !e.Stop? && !e.Evaluate? {
      ActOnward(s, p, e);
    }
  }
}
