/**
 One run of the watch host as sequential code: the locked part of `run_once`,
 `_finish_typed`, `_execute_authorized` and `_record_applied`, over files and markers that
 are replaced in place.  `life` is how many durable operations the process still lives to
 perform; when it is used up the process is gone, between any two of them.

 Every method is shown to follow the protocol, event by event, so the protocol's safety
 covers this code; and what the code answers is stated outright.
 */
module WatchHost {

  import opened Options
  import opened DispatchRegistry
  import opened HostProtocol
  import Watch
  import Coordinator = Watch.Coordinator

  datatype HostResult =
    | NoAction | IsDelivered | IsDedup | LockHeld | StaleReconcile | ResourceBlocked
    | ReconcileAmbiguous | AuthorityDenied | Crashed

  /** What the trust boundary answers for an effect. */
  datatype Gate = Allow | SpentDispatch | StaleRequest | BlockedByResource | NotRetryable | Deny

  /** What the surroundings do during one run. */
  datatype Surroundings = Surroundings(
    boundary: bool, reserveUp: bool, finalizeUp: bool, receipt: bool, info: bool, newAttempt: nat)

  datatype Request = Request(branch: string, target: string, dispatch: Option<Token>)

  // ------------------------------------------------- following the protocol

  /** One event of a process that is alone with its directory. */
  function Go(w: World, pc: Pc, e: Event): Option<(World, Pc)> {
    if e.Evaluate? then
      if !pc.Locked? then None
      else
        var pc' := Look(w, pc.dir, e.observed);
        if pc'.None? then None else Some((w, pc'.value))
    else Act(w, pc, e)
  }

  function Follow(w: World, pc: Pc, es: seq<Event>): Option<(World, Pc)>
    decreases |es|
  {
    if es == [] then Some((w, pc))
    else
      var r := Go(w, pc, es[0]);
      if r.None? then None else Follow(r.value.0, r.value.1, es[1..])
  }

  lemma {:induction false} FollowOnce(w: World, pc: Pc, es: seq<Event>, e: Event)
    requires Follow(w, pc, es).Some?
    ensures Follow(w, pc, es + [e]) == Go(Follow(w, pc, es).value.0, Follow(w, pc, es).value.1, e)
    decreases |es|
  {
    if es == [] {
      assert ([] + [e])[1..] == [];
    } else {
      assert (es + [e])[1..] == es[1..] + [e];
      var r := Go(w, pc, es[0]);
      FollowOnce(r.value.0, r.value.1, es[1..], e);
    }
  }

  lemma {:induction false} FollowMore(w: World, pc: Pc, es: seq<Event>, fs: seq<Event>)
    requires Follow(w, pc, es).Some?
    ensures Follow(w, pc, es + fs) == Follow(Follow(w, pc, es).value.0, Follow(w, pc, es).value.1, fs)
    decreases |es|
  {
    if es == [] {
      assert [] + fs == fs;
    } else {
      assert (es + fs)[1..] == es[1..] + fs;
      var r := Go(w, pc, es[0]);
      FollowMore(r.value.0, r.value.1, es[1..], fs);
    }
  }

  function By(p: Process, es: seq<Event>): seq<(Process, Event)>
    decreases |es|
  {
    if es == [] then [] else [(p, es[0])] + By(p, es[1..])
  }

  /** What the code follows is a run of the whole system, as long as no other process holds
      the lock on a marker file. */
  lemma {:induction false} FollowingIsARun(s: System, p: Process, es: seq<Event>)
    requires p in s.at && Follow(s.world, s.at[p], es).Some?
    requires forall q :: q in s.at && q != p ==> !s.at[q].WritingConsumed?
    ensures var (w', pc') := Follow(s.world, s.at[p], es).value;
            Exec(s, By(p, es)) == Some(System(w', s.at[p := pc']))
    decreases |es|
  {
    if es == [] {
      assert s.at[p := s.at[p]] == s.at;
    } else {
      var (w', pc') := Go(s.world, s.at[p], es[0]).value;
      assert Apply(s, p, es[0]) == Some(System(w', s.at[p := pc']));
      FollowingIsARun(System(w', s.at[p := pc']), p, es[1..]);
      assert By(p, es)[1..] == By(p, es[1..]);
      assert s.at[p := pc'][p := Follow(s.world, s.at[p], es).value.1] == s.at[p := Follow(s.world, s.at[p], es).value.1];
    }
  }

  /** One event of the code, after the events es have led to w and pc. */
  lemma {:induction false} Advance(w0: World, pc0: Pc, es: seq<Event>, w: World, pc: Pc, e: Event)
    requires Follow(w0, pc0, es) == Some((w, pc)) && !e.Evaluate? && Act(w, pc, e).Some?
    ensures Follow(w0, pc0, es + [e]) == Act(w, pc, e)
  {
    FollowOnce(w0, pc0, es, e);
  }

  lemma {:induction false} One(w: World, pc: Pc, e: Event)
    requires !e.Evaluate? && Act(w, pc, e).Some?
    ensures Follow(w, pc, [e]) == Act(w, pc, e)
  {
    Advance(w, pc, [], w, pc, e);
    assert [] + [e] == [e];
  }

  lemma {:induction false} Two(w: World, pc: Pc, e: Event, w1: World, pc1: Pc, f: Event)
    requires Follow(w, pc, [e]) == Some((w1, pc1)) && !f.Evaluate? && Act(w1, pc1, f).Some?
    ensures Follow(w, pc, [e, f]) == Act(w1, pc1, f)
  {
    Advance(w, pc, [e], w1, pc1, f);
    assert [e] + [f] == [e, f];
  }

  lemma {:induction false} FoundReservation(w: World, t: Task, a: nat)
    requires t.token !in w.legacy && t.token in w.markers && w.markers[t.token] == Reserved(BindingOf(t, a))
    ensures Follow(w, Reserving(t, a), [CreateReservation]) == Some((w, Holding(t, a)))
  {
    One(w, Reserving(t, a), CreateReservation);
  }

  lemma {:induction false} CreatedReservation(w: World, t: Task, a: nat)
    requires t.token !in w.legacy && t.token !in w.markers
    ensures var w1 := CreateMarker(w, t.token, OwnedBy(BindingOf(t, a)));
            && Follow(w, Reserving(t, a), [CreateReservation]) == Some((w1, WritingReservation(t, a)))
            && Follow(w, Reserving(t, a), [CreateReservation, WriteReservation]) ==
                 Some((PutMarker(w1, t.token, Reserved(BindingOf(t, a))), Holding(t, a)))
  {
    One(w, Reserving(t, a), CreateReservation);
    Two(w, Reserving(t, a), CreateReservation, CreateMarker(w, t.token, OwnedBy(BindingOf(t, a))), WritingReservation(t, a),
        WriteReservation);
  }

  lemma {:induction false} FoundConsumed(w: World, t: Task, a: nat)
    requires t.token in w.markers && w.markers[t.token] == ConsumedBy(BindingOf(t, a))
    ensures Follow(w, Finalizing(t, a), [OpenForConsumption]) == Some((w, Finalized(t, a)))
  {
    One(w, Finalizing(t, a), OpenForConsumption);
  }

  lemma {:induction false} ConsumedReservation(w: World, t: Task, a: nat)
    requires t.token in w.markers && w.markers[t.token] == Reserved(BindingOf(t, a))
    ensures var w1 := PutMarker(w, t.token, Torn);
            && Follow(w, Finalizing(t, a), [OpenForConsumption]) == Some((w1, WritingConsumed(t, a)))
            && Follow(w, Finalizing(t, a), [OpenForConsumption, WriteConsumed]) ==
                 Some((PutMarker(w1, t.token, ConsumedBy(BindingOf(t, a))), Finalized(t, a)))
  {
    One(w, Finalizing(t, a), OpenForConsumption);
    Two(w, Finalizing(t, a), OpenForConsumption, PutMarker(w, t.token, Torn), WritingConsumed(t, a), WriteConsumed);
  }

  /** The world after the APPLIED entry is recorded, if it was not yet. */
  ghost function WithApplied(w: World, t: Task): World {
    if HasEntry(t.entries, t.key, Applied) then w else PutLedger(w, t.dir, t.entries + [Entry(t.key, Applied)])
  }

  lemma {:induction false} Recorded(w: World, t: Task, a: nat)
    requires HasEntry(t.entries, t.key, Applied) || |t.entries| < MAX_LEDGER_ENTRIES
    ensures Follow(w, Finalized(t, a), [RecordApplied]) == Some((WithApplied(w, t), SavingWatch(t.dir, t.next)))
    ensures Follow(w, Finalized(t, a), [RecordApplied, SaveWatch]) ==
              Some((PutWatch(WithApplied(w, t), t.dir, t.next), Finished(t.dir)))
  {
    One(w, Finalized(t, a), RecordApplied);
    Two(w, Finalized(t, a), RecordApplied, WithApplied(w, t), SavingWatch(t.dir, t.next), SaveWatch);
  }

  lemma {:induction false} StartedSending(w: World, t: Task, a: nat)
    ensures var w1 := PutJournal(w, t.dir, Journal(Sending, BindingOf(t, a), t.token));
            Follow(w, Holding(t, a), [CommitSending]) == Some((w1, ReadyToSend(t, a)))
  {
    One(w, Holding(t, a), CommitSending);
  }

  ghost function AfterSend(w: World, t: Task, a: nat, receipt: bool, info: bool): World {
    w.(sends := w.sends + [Sent(BindingOf(t, a), t.token, receipt, info)])
  }

  lemma {:induction false} SentUndelivered(w: World, t: Task, a: nat, receipt: bool, info: bool)
    requires !Delivered(t.key, receipt, info)
    ensures Follow(w, ReadyToSend(t, a), [Send(receipt, info)]) == Some((AfterSend(w, t, a, receipt, info), Failed(t, a, !receipt)))
  {
    One(w, ReadyToSend(t, a), Send(receipt, info));
  }

  lemma {:induction false} LeftAmbiguous(w: World, t: Task, a: nat, record: bool)
    ensures Follow(w, Failed(t, a, record), [CommitAmbiguous])
         == Some((PutJournal(w, t.dir, Journal(Ambiguous, BindingOf(t, a), t.token)),
                  if record then SavingUnknown(t.dir, t.key, t.entries) else Finished(t.dir)))
  {
    One(w, Failed(t, a, record), CommitAmbiguous);
  }

  lemma {:induction false} SavedUnknown(w: World, d: Dir, k: Watch.Key, es: seq<Entry>)
    requires |es| < MAX_LEDGER_ENTRIES
    ensures Follow(w, SavingUnknown(d, k, es), [SaveUnknown]) == Some((PutLedger(w, d, es + [Entry(k, Unknown)]), Finished(d)))
  {
    One(w, SavingUnknown(d, k, es), SaveUnknown);
  }

  lemma {:induction false} SentDelivered(w: World, t: Task, a: nat, info: bool)
    requires Delivered(t.key, true, info)
    ensures var w1 := AfterSend(w, t, a, true, info);
            && Follow(w, ReadyToSend(t, a), [Send(true, info)]) == Some((w1, GotReceipt(t, a)))
            && Follow(w, ReadyToSend(t, a), [Send(true, info), CommitReceipt]) ==
                 Some((PutJournal(w1, t.dir, Journal(Receipt, BindingOf(t, a), t.token)), Finalizing(t, a)))
  {
    One(w, ReadyToSend(t, a), Send(true, info));
    Two(w, ReadyToSend(t, a), Send(true, info), AfterSend(w, t, a, true, info), GotReceipt(t, a), CommitReceipt);
  }

  lemma {:induction false} LoadedNothing(w: World, t: Task, a: nat)
    requires FilesOf(w, t.dir).journal == NoJournal
    ensures Follow(w, Authorized(t), [LoadJournal(a)]) ==
              Some((PutJournal(w, t.dir, Journal(Intent, BindingOf(t, a), t.token)), Reserving(t, a)))
  {
    One(w, Authorized(t), LoadJournal(a));
  }

  lemma {:induction false} LoadedOwn(w: World, t: Task)
    requires var j := FilesOf(w, t.dir).journal;
             j.Journal? && j.bound.effect == Effect(t.dir, t.key, t.variant) && (j.phase.Intent? || j.phase.Receipt?)
    ensures var j := FilesOf(w, t.dir).journal;
            Follow(w, Authorized(t), [LoadJournal(0)]) ==
              Some((w, if j.phase.Receipt? then Finalizing(t, j.bound.attempt) else Reserving(t, j.bound.attempt)))
  {
    One(w, Authorized(t), LoadJournal(0));
  }

  lemma {:induction false} LoadedForeign(w: World, t: Task)
    requires var j := FilesOf(w, t.dir).journal;
             j.Journal? && j.bound.effect != Effect(t.dir, t.key, t.variant) && (j.phase.Intent? || j.phase.Receipt?)
    ensures var j := FilesOf(w, t.dir).journal;
            && Follow(w, Authorized(t), [LoadJournal(0)]) == Some((w, Mismatched(t)))
            && Follow(w, Authorized(t), [LoadJournal(0), CommitMismatch]) ==
                 Some((PutJournal(w, t.dir, j.(phase := Ambiguous)), Finished(t.dir)))
  {
    One(w, Authorized(t), LoadJournal(0));
    Two(w, Authorized(t), LoadJournal(0), w, Mismatched(t), CommitMismatch);
  }

  lemma {:induction false} Join(w0: World, pc0: Pc, es: seq<Event>, w: World, pc: Pc, fs: seq<Event>)
    requires Follow(w0, pc0, es) == Some((w, pc))
    ensures Follow(w0, pc0, es + fs) == Follow(w, pc, fs)
  {
    FollowMore(w0, pc0, es, fs);
  }

  /** The events lead from w0 and pc0 to the world w, wherever the program counter is then. */
  ghost predicate LeadsTo(w0: World, pc0: Pc, es: seq<Event>, w: World) {
    Follow(w0, pc0, es).Some? && Follow(w0, pc0, es).value.0 == w
  }

  lemma {:induction false} Nothing(w: World, pc: Pc)
    ensures Follow(w, pc, []) == Some((w, pc))
  {
  }

  /** What `_snapshot` compares of one collection. */
  datatype Snapshot = Snapshot(
    repository: string, workstream: string, revision: nat, status: Coordinator.PacketStatus, branch: string,
    gitHead: Coordinator.Head, prHead: Coordinator.Head, ciHead: Coordinator.Head, resource: Coordinator.Resource,
    admission: Coordinator.AdmissionDecision, ambiguous: bool, progress: bool, startingRevision: Option<nat>)

  function SnapshotOf(f: Coordinator.Facts, branch: string): Snapshot {
    Snapshot(f.packet.repository, f.packet.workstream, f.packet.revision, f.packet.status, branch, f.git.head,
             Coordinator.PrHead(f), f.ci.head, f.resource, f.admission.decision, f.ambiguous,
             f.worker.Worker? && f.worker.progress,
             if f.worker.Worker? then Some(f.worker.startingRevision) else None)
  }

  /** `_reconcile`: what a second, authoritative collection says about the first. */
  function Reconcile(c: Snapshot, a: Snapshot, r: Watch.Result): Option<HostResult> {
    if a.ambiguous then Some(ReconcileAmbiguous)
    else if a.(resource := c.resource, admission := c.admission, ambiguous := c.ambiguous) != c then Some(StaleReconcile)
    else if a.resource.ResourceBlock? || a.admission.AdmissionDeny? then Some(ResourceBlocked)
    else if c.resource != a.resource || c.admission != a.admission then Some(StaleReconcile)
    else if r == Watch.ResumeAdmittedWorker && !a.progress then Some(StaleReconcile)
    else None
  }

  /** Facts that reconcile are about the same watch directory. */
  lemma {:induction false} ReconciledFactsShareTheDirectory(o: Watch.Observation, o': Watch.Observation, branch: string, branch': string, r: Watch.Result)
    requires Reconcile(SnapshotOf(o.facts, branch), SnapshotOf(o'.facts, branch'), r).None? && o.cls == o'.cls
    ensures DirOf(o') == DirOf(o) && branch' == branch
    ensures o'.facts.packet.status == o.facts.packet.status && !o'.facts.ambiguous
    ensures !o'.facts.resource.ResourceBlock? && !o'.facts.admission.decision.AdmissionDeny?
  {
    var c, a := SnapshotOf(o.facts, branch), SnapshotOf(o'.facts, branch');
    assert a.(resource := c.resource, admission := c.admission, ambiguous := c.ambiguous) == c;
  }

  /** What the second collection must agree on with the first, apart from resource and admission. */
  ghost predicate Agrees(o: Coordinator.Facts, branch: string, o': Coordinator.Facts, branch': string) {
    && o'.packet.repository == o.packet.repository && o'.packet.workstream == o.packet.workstream
    && o'.packet.revision == o.packet.revision && o'.packet.status == o.packet.status && branch' == branch
    && o'.git.head == o.git.head && Coordinator.PrHead(o') == Coordinator.PrHead(o) && o'.ci.head == o.ci.head
    && (o'.worker.Worker? && o'.worker.progress <==> o.worker.Worker? && o.worker.progress)
    && o'.worker.Worker? == o.worker.Worker? && (o.worker.Worker? ==> o'.worker.startingRevision == o.worker.startingRevision)
  }

  /** What each answer of the reconciliation means. */
  lemma {:induction false} ReconcileMeans(o: Coordinator.Facts, branch: string, o': Coordinator.Facts, branch': string, result: Watch.Result)
    ensures var r := Reconcile(SnapshotOf(o, branch), SnapshotOf(o', branch'), result);
            && (r == None <==>
                  && !o'.ambiguous && Agrees(o, branch, o', branch')
                  && o'.resource == o.resource && !o'.resource.ResourceBlock?
                  && o'.admission.decision == o.admission.decision && !o'.admission.decision.AdmissionDeny?
                  && (result == Watch.ResumeAdmittedWorker ==> o'.worker.Worker? && o'.worker.progress))
            && (r == Some(ReconcileAmbiguous) <==> o'.ambiguous)
            && (r == Some(ResourceBlocked) <==>
                  && !o'.ambiguous && Agrees(o, branch, o', branch')
                  && (o'.resource.ResourceBlock? || o'.admission.decision.AdmissionDeny?))
            && (r.Some? ==> r.value in {ReconcileAmbiguous, ResourceBlocked, StaleReconcile})
  {
    var c, a := SnapshotOf(o, branch), SnapshotOf(o', branch');
    assert a.(resource := c.resource, admission := c.admission, ambiguous := c.ambiguous) == c <==> Agrees(o, branch, o', branch');
  }

  lemma {:induction false} GateFollowed(w: World, d: Dir, k: Watch.Key, n: Watch.State, es: seq<Entry>, v: Variant, t: Token)
    requires !HasEntry(es, k, Unknown)
    ensures HasEntry(es, k, Applied) ==> Follow(w, Typed(d, k, n, es), [AlreadyApplied]) == Some((w, SavingWatch(d, n)))
    ensures !HasEntry(es, k, Applied) ==>
              && Follow(w, Typed(d, k, n, es), [GateReplay]) == Some((w, SavingWatch(d, n)))
              && Follow(w, Typed(d, k, n, es), [GateAllow(v, t)]) == Some((w, Authorized(Task(d, k, n, es, v, t))))
              && (k.result != Watch.NotifyOwner ==>
                    Follow(w, Typed(d, k, n, es), [GateUnknown]) == Some((w, SavingUnknown(d, k, es))))
  {
    if HasEntry(es, k, Applied) {
      One(w, Typed(d, k, n, es), AlreadyApplied);
    } else {
      One(w, Typed(d, k, n, es), GateReplay);
      One(w, Typed(d, k, n, es), GateAllow(v, t));
      if k.result != Watch.NotifyOwner { One(w, Typed(d, k, n, es), GateUnknown); }
    }
  }

  lemma {:induction false} SavedWatch(w: World, d: Dir, n: Watch.State)
    ensures Follow(w, SavingWatch(d, n), [SaveWatch]) == Some((PutWatch(w, d, n), Finished(d)))
  {
    One(w, SavingWatch(d, n), SaveWatch);
  }

  lemma {:induction false} Looked(w: World, d: Dir, o: Watch.Observation)
    requires Look(w, d, o).Some?
    ensures Follow(w, Locked(d), [Evaluate(o)]) == Some((w, Look(w, d, o).value))
  {
    Nothing(w, Locked(d));
    FollowOnce(w, Locked(d), [], Evaluate(o));
    assert [] + [Evaluate(o)] == [Evaluate(o)];
  }

  /** The effect a typed result asks for: an owner notice, or a write on the target issue. */
  function EffectFor(d: Dir, k: Watch.Key, branch: string, status: Coordinator.PacketStatus, target: string): Effect {
    Effect(d, k, if k.result == Watch.NotifyOwner then Notice(branch) else Write(branch, status, target))
  }

  /** The journal holds a receipt of the effect, and the dispatch belongs to its attempt. */
  ghost predicate ReceiptFor(w: World, d: Dir, e: Effect, t: Token) {
    var j := FilesOf(w, d).journal;
    j.Journal? && j.phase == Receipt && j.bound.effect == e && OwnsToken(w.markers, t, j.bound)
  }

  /** The token is reserved or already consumed by exactly this binding. */
  ghost predicate OwnsToken(markers: map<Token, Marker<Binding>>, t: Token, b: Binding) {
    t in markers && (markers[t] == Reserved(b) || markers[t] == ConsumedBy(b))
  }

  /** The token is unused, or reserved by exactly this binding. */
  ghost predicate Reservable(legacy: set<Token>, markers: map<Token, Marker<Binding>>, t: Token, b: Binding) {
    t !in legacy && (t in markers ==> markers[t] == Reserved(b))
  }

  /** It can be reserved, or this binding has consumed it already. */
  ghost predicate Obtainable(legacy: set<Token>, markers: map<Token, Marker<Binding>>, t: Token, b: Binding) {
    t !in legacy && (t in markers ==> OwnsToken(markers, t, b))
  }

  /** Nothing was begun for the directory, or this very effect was intended and not yet sent. */
  ghost predicate MayStart(j: Journal, t: Task) {
    j.NoJournal? || (j.phase == Intent && j.bound.effect == Effect(t.dir, t.key, t.variant))
  }

  ghost function AttemptFor(j: Journal, env: Surroundings): nat {
    if j.Journal? then j.bound.attempt else env.newAttempt
  }

  /** Everything is there that it takes to send. */
  ghost predicate CanSend(w: World, t: Task, env: Surroundings) {
    var j := FilesOf(w, t.dir).journal;
    && MayStart(j, t) && env.boundary && env.reserveUp
    && Reservable(w.legacy, w.markers, t.token, BindingOf(t, AttemptFor(j, env)))
  }

  ghost predicate NoEntry(es: seq<Entry>, k: Watch.Key) {
    !HasEntry(es, k, Unknown) && !HasEntry(es, k, Applied)
  }

  /** The request carries a dispatch, names the branch, and there is something to write to. */
  predicate Proper(d: Dir, k: Watch.Key, request: Request, branch: string) {
    request.dispatch.Some? && request.branch == branch && (k.result == Watch.NotifyOwner || d.subject.Some?)
  }

  function TaskFor(d: Dir, k: Watch.Key, n: Watch.State, es: seq<Entry>, request: Request, branch: string,
                   status: Coordinator.PacketStatus): Task {
    Task(d, k, n, es, EffectFor(d, k, branch, status, request.target).variant, OrElse(request.dispatch, ""))
  }

  /** A typed result on the requested branch that a second collection confirms. */
  ghost predicate Reconciled(e: Watch.Evaluation, o: Watch.Observation, branch: string, o': Watch.Observation, branch': string,
                             request: Request) {
    && e.Evaluated? && Watch.IsTyped(e.result) && request.branch == branch
    && Reconcile(SnapshotOf(o.facts, branch), SnapshotOf(o'.facts, branch'), e.result).None?
  }

  /** All that a send takes but the gate. */
  ghost predicate Sendable(w: World, o: Watch.Observation, branch: string, o': Watch.Observation, branch': string,
                           request: Request, env: Surroundings) {
    var d, entries := DirOf(o), FilesOf(w, DirOf(o)).ledger;
    var e := Watch.Evaluate(o, FilesOf(w, d).watch);
    && Reconciled(e, o, branch, o', branch', request) && NoEntry(entries, e.key) && Proper(d, e.key, request, branch)
    && CanSend(w, TaskFor(d, e.key, e.next, entries, request, branch, o.facts.packet.status), env)
  }

  // ------------------------------------------------------------------ the code

  class Host {
    const legacy: set<Token>
    var files: map<Dir, Files>
    var markers: map<Token, Marker<Binding>>
    var life: nat
    ghost var owners: map<Token, Owner>
    ghost var sends: seq<Sent>

    ghost function Now(): World
      reads this
    {
      World(files, legacy, markers, owners, sends)
    }

    /** The registry answered and changed just as the call on its files does. */
    ghost predicate AnswersLike(before: map<Token, Marker<Binding>>, op: Operation<Token, Binding>, up: bool, answer: Answer)
      reads this
    {
      (MarkerFiles(legacy, markers), answer) == OnMarkers(MarkerFiles(legacy, before), op, if up then Up else Down)
    }

    /** One durable operation, if the process lives that long. */
    method Live() returns (alive: bool)
      modifies `life
      ensures alive <==> old(life) > 0
      ensures life == if alive then old(life) - 1 else 0
    {
      alive := life > 0;
      if alive { life := life - 1; }
    }

    method CommitJournal(d: Dir, j: Journal) returns (ok: bool)
      modifies this
      ensures ok <==> old(life) > 0
      ensures ok ==> life == old(life) - 1
      ensures Now() == if ok then PutJournal(old(Now()), d, j) else old(Now())
    {
      ok := Live();
      if ok { files := files[d := (if d in files then files[d] else NO_FILES).(journal := j)]; }
    }

    method PersistLedger(d: Dir, es: seq<Entry>) returns (ok: bool)
      modifies this
      ensures ok <==> old(life) > 0 && |es| <= MAX_LEDGER_ENTRIES
      ensures ok ==> life == old(life) - 1
      ensures Now() == if ok then PutLedger(old(Now()), d, es) else old(Now())
    {
      if |es| > MAX_LEDGER_ENTRIES { return false; }
      ok := Live();
      if ok { files := files[d := (if d in files then files[d] else NO_FILES).(ledger := es)]; }
    }

    method PersistWatch(d: Dir, n: Watch.State) returns (ok: bool)
      modifies this
      ensures ok <==> old(life) > 0
      ensures ok ==> life == old(life) - 1
      ensures Now() == if ok then PutWatch(old(Now()), d, n) else old(Now())
    {
      ok := Live();
      if ok { files := files[d := (if d in files then files[d] else NO_FILES).(watch := n)]; }
    }

    /** `reserve_dispatch` for the binding of t and a.  A process that dies between the
        exclusive create and the write leaves a torn marker behind. */
    method ReserveDispatch(t: Task, a: nat, up: bool) returns (alive: bool, answer: Answer, ghost es: seq<Event>)
      modifies this
      ensures LeadsTo(old(Now()), Reserving(t, a), es, Now())
      ensures alive ==> AnswersLike(old(markers), Reserve(t.token, BindingOf(t, a)), up, answer)
      ensures alive && answer in {NewlyReserved, OwnedReserved} ==>
                Follow(old(Now()), Reserving(t, a), es) == Some((Now(), Holding(t, a)))
      ensures files == old(files) && sends == old(sends)
      ensures old(life) >= 2 ==> alive && life >= old(life) - 2
      ensures !up || t.token in legacy || t.token in old(markers) ==> alive && Now() == old(Now())
    {
      Nothing(Now(), Reserving(t, a));
      if !up { return true, Unavailable, []; }
      if t.token in legacy { return true, Conflict, []; }
      if t.token in markers {
        if markers[t.token] == Reserved(BindingOf(t, a)) {
          FoundReservation(Now(), t, a);
          return true, OwnedReserved, [CreateReservation];
        }
        return true, if markers[t.token] == ConsumedBy(BindingOf(t, a)) then OwnedConsumed else Conflict, [];
      }
      alive := Live();
      if !alive { return false, Unavailable, []; }
      CreatedReservation(Now(), t, a);
      markers, owners := markers[t.token := Torn], owners[t.token := OwnedBy(BindingOf(t, a))];
      alive := Live();
      if !alive { return false, Unavailable, [CreateReservation]; }
      markers := markers[t.token := Reserved(BindingOf(t, a))];
      assert markers == old(markers)[t.token := Reserved(BindingOf(t, a))];
      answer, es := NewlyReserved, [CreateReservation, WriteReservation];
    }

    /** `finalize_dispatch`; a process that dies after truncating leaves a torn marker. */
    method FinalizeDispatch(t: Task, a: nat, up: bool) returns (alive: bool, answer: Answer, ghost es: seq<Event>)
      modifies this
      ensures LeadsTo(old(Now()), Finalizing(t, a), es, Now())
      ensures alive ==> AnswersLike(old(markers), Finalize(t.token, BindingOf(t, a)), up, answer)
      ensures alive && answer == Ok ==> Follow(old(Now()), Finalizing(t, a), es) == Some((Now(), Finalized(t, a)))
      ensures files == old(files) && sends == old(sends) && owners == old(owners)
      ensures old(life) >= 2 ==> alive && life >= old(life) - 2
      ensures !up || !OwnsToken(old(markers), t.token, BindingOf(t, a)) ==> alive && Now() == old(Now())
    {
      Nothing(Now(), Finalizing(t, a));
      if !up { return true, Unavailable, []; }
      if t.token !in markers { return true, Conflict, []; }
      if markers[t.token] == ConsumedBy(BindingOf(t, a)) {
        FoundConsumed(Now(), t, a);
        return true, Ok, [OpenForConsumption];
      }
      if markers[t.token] != Reserved(BindingOf(t, a)) { return true, Conflict, []; }
      alive := Live();
      if !alive { return false, Unavailable, []; }
      ConsumedReservation(Now(), t, a);
      markers := markers[t.token := Torn];
      alive := Live();
      if !alive { return false, Unavailable, [OpenForConsumption]; }
      markers := markers[t.token := ConsumedBy(BindingOf(t, a))];
      assert markers == old(markers)[t.token := ConsumedBy(BindingOf(t, a))];
      answer, es := Ok, [OpenForConsumption, WriteConsumed];
    }

    method RecordAppliedAction(t: Task, a: nat) returns (r: HostResult, ghost es: seq<Event>)
      modifies this
      ensures LeadsTo(old(Now()), Finalized(t, a), es, Now())
      ensures r in {IsDelivered, Crashed}
      ensures old(life) >= 2 && |t.entries| < MAX_LEDGER_ENTRIES ==> r == IsDelivered
      ensures r == IsDelivered ==>
                && FilesOf(Now(), t.dir).watch == t.next
                && FilesOf(Now(), t.dir).ledger ==
                     (if HasEntry(t.entries, t.key, Applied) then old(FilesOf(Now(), t.dir)).ledger
                      else t.entries + [Entry(t.key, Applied)])
      ensures FilesOf(Now(), t.dir).journal == old(FilesOf(Now(), t.dir)).journal
      ensures sends == old(sends) && markers == old(markers) && owners == old(owners)
    {
      Nothing(Now(), Finalized(t, a));
      if !HasEntry(t.entries, t.key, Applied) {
        var saved := PersistLedger(t.dir, t.entries + [Entry(t.key, Applied)]);
        if !saved { return Crashed, []; }
      }
      Recorded(old(Now()), t, a);
      var ok := PersistWatch(t.dir, t.next);
      if !ok { return Crashed, [RecordApplied]; }
      r, es := IsDelivered, [RecordApplied, SaveWatch];
    }

    /** From a durable receipt: finalize the dispatch at hand, then record the action. */
    method FinishFromReceipt(t: Task, a: nat, env: Surroundings) returns (r: HostResult, ghost es: seq<Event>)
      modifies this
      ensures LeadsTo(old(Now()), Finalizing(t, a), es, Now())
      ensures r in {IsDelivered, ReconcileAmbiguous, Crashed}
      ensures sends == old(sends) && FilesOf(Now(), t.dir).journal == old(FilesOf(Now(), t.dir)).journal
      // What cannot be finalized stays as it is.
      ensures !(env.finalizeUp && OwnsToken(old(markers), t.token, BindingOf(t, a))) ==>
                r == ReconcileAmbiguous && Now() == old(Now())
      ensures (&& env.finalizeUp && OwnsToken(old(markers), t.token, BindingOf(t, a))
               && old(life) >= 4 && |t.entries| < MAX_LEDGER_ENTRIES)
              ==> r == IsDelivered
      ensures r == IsDelivered ==>
                && t.token in markers && markers[t.token] == ConsumedBy(BindingOf(t, a))
                && FilesOf(Now(), t.dir).watch == t.next
                && FilesOf(Now(), t.dir).ledger ==
                     (if HasEntry(t.entries, t.key, Applied) then old(FilesOf(Now(), t.dir)).ledger
                      else t.entries + [Entry(t.key, Applied)])
    {
      var alive, answer;
      ghost var fs;
      alive, answer, es := FinalizeDispatch(t, a, env.finalizeUp);
      if !alive { return Crashed, es; }
      if answer != Ok { return ReconcileAmbiguous, es; }
      ghost var w1 := Now();
      r, fs := RecordAppliedAction(t, a);
      Join(old(Now()), Finalizing(t, a), es, w1, Finalized(t, a), fs);
      es := es + fs;
    }

    /** After a send that is not known to be delivered: the journal turns ambiguous, and without any
        receipt the ledger gains an UNKNOWN entry. */
    method LeaveAmbiguous(t: Task, a: nat, record: bool) returns (r: HostResult, ghost es: seq<Event>)
      modifies this
      ensures LeadsTo(old(Now()), Failed(t, a, record), es, Now())
      ensures r in {ReconcileAmbiguous, Crashed} && sends == old(sends)
      ensures old(life) >= 2 && |t.entries| < MAX_LEDGER_ENTRIES ==>
                && r == ReconcileAmbiguous
                && FilesOf(Now(), t.dir).journal == Journal(Ambiguous, BindingOf(t, a), t.token)
                && FilesOf(Now(), t.dir).ledger ==
                     (if record then t.entries + [Entry(t.key, Unknown)] else old(FilesOf(Now(), t.dir)).ledger)
                && FilesOf(Now(), t.dir).watch == old(FilesOf(Now(), t.dir)).watch
    {
      Nothing(Now(), Failed(t, a, record));
      LeftAmbiguous(Now(), t, a, record);
      var ok := CommitJournal(t.dir, Journal(Ambiguous, BindingOf(t, a), t.token));
      if !ok { return Crashed, []; }
      if !record { return ReconcileAmbiguous, [CommitAmbiguous]; }
      ghost var w1 := Now();
      ok := PersistLedger(t.dir, t.entries + [Entry(t.key, Unknown)]);
      if !ok { return Crashed, [CommitAmbiguous]; }
      SavedUnknown(w1, t.dir, t.key, t.entries);
      Join(old(Now()), Failed(t, a, record), [CommitAmbiguous], w1, SavingUnknown(t.dir, t.key, t.entries), [SaveUnknown]);
      return ReconcileAmbiguous, [CommitAmbiguous] + [SaveUnknown];
    }

    /** After a delivery: the receipt is made durable, then finalized and recorded. */
    method KeepReceipt(t: Task, a: nat, env: Surroundings) returns (r: HostResult, ghost es: seq<Event>)
      modifies this
      ensures LeadsTo(old(Now()), GotReceipt(t, a), es, Now())
      ensures r in {IsDelivered, ReconcileAmbiguous, Crashed} && sends == old(sends)
      ensures r == IsDelivered ==>
                && FilesOf(Now(), t.dir).journal == Journal(Receipt, BindingOf(t, a), t.token)
                && FilesOf(Now(), t.dir).watch == t.next
      ensures old(life) >= 1 && !(env.finalizeUp && OwnsToken(old(markers), t.token, BindingOf(t, a))) ==>
                r == ReconcileAmbiguous && Now() == PutJournal(old(Now()), t.dir, Journal(Receipt, BindingOf(t, a), t.token))
      ensures (&& env.finalizeUp && OwnsToken(old(markers), t.token, BindingOf(t, a))
               && old(life) >= 5 && |t.entries| < MAX_LEDGER_ENTRIES)
              ==> r == IsDelivered
    {
      Nothing(Now(), GotReceipt(t, a));
      One(Now(), GotReceipt(t, a), CommitReceipt);
      var ok := CommitJournal(t.dir, Journal(Receipt, BindingOf(t, a), t.token));
      if !ok { return Crashed, []; }
      ghost var w1 := Now();
      ghost var fs;
      r, fs := FinishFromReceipt(t, a, env);
      Join(old(Now()), GotReceipt(t, a), [CommitReceipt], w1, Finalizing(t, a), fs);
      es := [CommitReceipt] + fs;
    }

    /** From a durable SENDING phase: send once, and make what came back durable. */
    method SendOnce(t: Task, a: nat, env: Surroundings) returns (r: HostResult, ghost es: seq<Event>)
      modifies this
      ensures LeadsTo(old(Now()), ReadyToSend(t, a), es, Now())
      ensures r in {IsDelivered, ReconcileAmbiguous, Crashed}
      ensures sends == if old(life) == 0 then old(sends) else old(sends) + [Sent(BindingOf(t, a), t.token, env.receipt, env.info)]
      ensures r == IsDelivered ==>
                && old(life) > 0 && env.receipt && (t.key.result == Watch.NotifyOwner ==> env.info)
                && FilesOf(Now(), t.dir).journal == Journal(Receipt, BindingOf(t, a), t.token)
                && FilesOf(Now(), t.dir).watch == t.next
      ensures (&& Delivered(t.key, env.receipt, env.info) && env.finalizeUp
               && OwnsToken(old(markers), t.token, BindingOf(t, a))
               && old(life) >= 6 && |t.entries| < MAX_LEDGER_ENTRIES)
              ==> r == IsDelivered
      ensures !Delivered(t.key, env.receipt, env.info) && old(life) >= 3 && |t.entries| < MAX_LEDGER_ENTRIES ==>
                && r == ReconcileAmbiguous
                && FilesOf(Now(), t.dir).journal == Journal(Ambiguous, BindingOf(t, a), t.token)
                && FilesOf(Now(), t.dir).ledger ==
                     (if env.receipt then old(FilesOf(Now(), t.dir)).ledger else t.entries + [Entry(t.key, Unknown)])
      ensures (&& Delivered(t.key, env.receipt, env.info) && old(life) >= 2
               && !(env.finalizeUp && OwnsToken(old(markers), t.token, BindingOf(t, a))))
              ==> r == ReconcileAmbiguous && FilesOf(Now(), t.dir).journal == Journal(Receipt, BindingOf(t, a), t.token)
    {
      Nothing(Now(), ReadyToSend(t, a));
      var ok := Live();
      if !ok { return Crashed, []; }
      sends := sends + [Sent(BindingOf(t, a), t.token, env.receipt, env.info)];
      ghost var w1 := Now();
      ghost var fs;
      if !env.receipt || (t.key.result == Watch.NotifyOwner && !env.info) {
        SentUndelivered(old(Now()), t, a, env.receipt, env.info);
        r, fs := LeaveAmbiguous(t, a, !env.receipt);
        Join(old(Now()), ReadyToSend(t, a), [Send(env.receipt, env.info)], w1, Failed(t, a, !env.receipt), fs);
      } else {
        SentDelivered(old(Now()), t, a, env.info);
        r, fs := KeepReceipt(t, a, env);
        Join(old(Now()), ReadyToSend(t, a), [Send(true, env.info)], w1, GotReceipt(t, a), fs);
      }
      es := [Send(env.receipt, env.info)] + fs;
    }

    /** From a durable intent: reserve the dispatch, commit SENDING, send. */
    method ReserveAndSend(t: Task, a: nat, env: Surroundings) returns (r: HostResult, ghost es: seq<Event>)
      modifies this
      ensures LeadsTo(old(Now()), Reserving(t, a), es, Now())
      ensures r in {IsDelivered, ReconcileAmbiguous, AuthorityDenied, Crashed}
      ensures sends == old(sends) || sends == old(sends) + [Sent(BindingOf(t, a), t.token, env.receipt, env.info)]
      ensures r == IsDelivered ==>
                && sends == old(sends) + [Sent(BindingOf(t, a), t.token, env.receipt, env.info)]
                && Delivered(t.key, env.receipt, env.info)
                && FilesOf(Now(), t.dir).watch == t.next
      ensures (&& Delivered(t.key, env.receipt, env.info) && env.reserveUp && env.finalizeUp && old(life) >= 9
               && t.token !in legacy && (t.token in old(markers) ==> old(markers)[t.token] == Reserved(BindingOf(t, a)))
               && |t.entries| < MAX_LEDGER_ENTRIES)
              ==> r == IsDelivered
      ensures (t.token in legacy || (t.token in old(markers) && !OwnsToken(old(markers), t.token, BindingOf(t, a))))
              ==> r == AuthorityDenied && Now() == old(Now())
      ensures (&& !Delivered(t.key, env.receipt, env.info) && env.reserveUp && old(life) >= 6 && |t.entries| < MAX_LEDGER_ENTRIES
               && Reservable(legacy, old(markers), t.token, BindingOf(t, a)))
              ==> r == ReconcileAmbiguous && FilesOf(Now(), t.dir).journal == Journal(Ambiguous, BindingOf(t, a), t.token)
      // An effect goes out exactly with a dispatch that can be reserved.
      ensures sends != old(sends) ==> env.reserveUp && Reservable(legacy, old(markers), t.token, BindingOf(t, a))
      ensures env.reserveUp && Reservable(legacy, old(markers), t.token, BindingOf(t, a)) && old(life) >= 4 ==> sends != old(sends)
      ensures !env.reserveUp ==> r == AuthorityDenied && Now() == old(Now())
      ensures (&& env.reserveUp && t.token !in legacy
               && t.token in old(markers) && old(markers)[t.token] == ConsumedBy(BindingOf(t, a)))
              ==> r == ReconcileAmbiguous && Now() == old(Now())
    {
      var alive, answer;
      ghost var fs, gs;
      alive, answer, fs := ReserveDispatch(t, a, env.reserveUp);
      if !alive { return Crashed, fs; }
      if answer == OwnedConsumed { return ReconcileAmbiguous, fs; }
      if answer != NewlyReserved && answer != OwnedReserved { return AuthorityDenied, fs; }
      ghost var w1 := Now();
      StartedSending(w1, t, a);
      var ok := CommitJournal(t.dir, Journal(Sending, BindingOf(t, a), t.token));
      if !ok { return Crashed, fs; }
      Join(old(Now()), Reserving(t, a), fs, w1, Holding(t, a), [CommitSending]);
      ghost var w2 := Now();
      r, gs := SendOnce(t, a, env);
      Join(old(Now()), Reserving(t, a), fs + [CommitSending], w2, ReadyToSend(t, a), gs);
      es := fs + [CommitSending] + gs;
    }

    /** From a clean start or an own intent: commit the intent if there is none, then reserve and send. */
    method StartDelivery(t: Task, j: Journal, env: Surroundings) returns (r: HostResult, ghost es: seq<Event>)
      requires j == FilesOf(Now(), t.dir).journal && MayStart(j, t)
      modifies this
      ensures LeadsTo(old(Now()), Authorized(t), es, Now())
      ensures r in {IsDelivered, ReconcileAmbiguous, AuthorityDenied, Crashed}
      ensures sends == old(sends)
           || sends == old(sends) + [Sent(BindingOf(t, AttemptFor(j, env)), t.token, env.receipt, env.info)]
      ensures r == IsDelivered ==>
                |sends| == |old(sends)| + 1 && Delivered(t.key, env.receipt, env.info) && FilesOf(Now(), t.dir).watch == t.next
      ensures sends != old(sends) ==> env.reserveUp && Reservable(legacy, old(markers), t.token, BindingOf(t, AttemptFor(j, env)))
      ensures (&& env.reserveUp && Reservable(legacy, old(markers), t.token, BindingOf(t, AttemptFor(j, env))) && old(life) >= 5)
              ==> sends != old(sends)
      ensures (&& Delivered(t.key, env.receipt, env.info) && env.reserveUp && env.finalizeUp && old(life) >= 10
               && Reservable(legacy, old(markers), t.token, BindingOf(t, AttemptFor(j, env))) && |t.entries| < MAX_LEDGER_ENTRIES)
              ==> r == IsDelivered
      ensures (&& !Delivered(t.key, env.receipt, env.info) && env.reserveUp && old(life) >= 7 && |t.entries| < MAX_LEDGER_ENTRIES
               && Reservable(legacy, old(markers), t.token, BindingOf(t, AttemptFor(j, env))))
              ==> && r == ReconcileAmbiguous
                  && FilesOf(Now(), t.dir).journal == Journal(Ambiguous, BindingOf(t, AttemptFor(j, env)), t.token)
      ensures (old(life) >= 1 && (!env.reserveUp || !Obtainable(legacy, old(markers), t.token, BindingOf(t, AttemptFor(j, env)))))
              ==> && r == AuthorityDenied
                  && Now() == (if j.Journal? then old(Now())
                               else PutJournal(old(Now()), t.dir, Journal(Intent, BindingOf(t, AttemptFor(j, env)), t.token)))
    {
      Nothing(Now(), Authorized(t));
      ghost var w1 := Now();
      ghost var fs;
      var a := if j.Journal? then j.bound.attempt else env.newAttempt;
      if j.NoJournal? {
        LoadedNothing(w1, t, a);
        var saved := CommitJournal(t.dir, Journal(Intent, BindingOf(t, a), t.token));
        if !saved { return Crashed, []; }
      } else {
        LoadedOwn(w1, t);
      }
      ghost var first := LoadJournal(if j.Journal? then 0 else a);
      ghost var w2 := Now();
      r, fs := ReserveAndSend(t, a, env);
      Join(w1, Authorized(t), [first], w2, Reserving(t, a), fs);
      es := [first] + fs;
    }

    /** The journal speaks of another effect: it turns ambiguous. */
    method MarkMismatch(t: Task, j: Journal) returns (r: HostResult, ghost es: seq<Event>)
      requires j == FilesOf(Now(), t.dir).journal && j.Journal? && (j.phase == Intent || j.phase == Receipt)
      requires j.bound.effect != Effect(t.dir, t.key, t.variant)
      modifies this
      ensures LeadsTo(old(Now()), Authorized(t), es, Now()) && sends == old(sends)
      ensures r == if old(life) > 0 then ReconcileAmbiguous else Crashed
      ensures old(life) > 0 ==> Now() == PutJournal(old(Now()), t.dir, j.(phase := Ambiguous))
    {
      Nothing(Now(), Authorized(t));
      LoadedForeign(Now(), t);
      var saved := CommitJournal(t.dir, j.(phase := Ambiguous));
      if !saved { return Crashed, []; }
      return ReconcileAmbiguous, [LoadJournal(0), CommitMismatch];
    }

    /** The journal holds the receipt of this effect. */
    method CompleteReceipt(t: Task, j: Journal, env: Surroundings) returns (r: HostResult, ghost es: seq<Event>)
      requires j == FilesOf(Now(), t.dir).journal && j.Journal? && j.phase == Receipt
      requires j.bound.effect == Effect(t.dir, t.key, t.variant)
      modifies this
      ensures LeadsTo(old(Now()), Authorized(t), es, Now()) && sends == old(sends)
      ensures r in {IsDelivered, ReconcileAmbiguous, Crashed}
      ensures r == IsDelivered ==> FilesOf(Now(), t.dir).watch == t.next
      ensures if env.finalizeUp && OwnsToken(old(markers), t.token, j.bound)
              then old(life) >= 4 && |t.entries| < MAX_LEDGER_ENTRIES ==> r == IsDelivered
              else r == ReconcileAmbiguous && Now() == old(Now())
    {
      ghost var w1 := Now();
      ghost var fs;
      LoadedOwn(w1, t);
      assert j.bound == BindingOf(t, j.bound.attempt);
      r, fs := FinishFromReceipt(t, j.bound.attempt, env);
      Join(w1, Authorized(t), [LoadJournal(0)], w1, Finalizing(t, j.bound.attempt), fs);
      es := [LoadJournal(0)] + fs;
    }

    /** `_execute_authorized`: an authorized effect is delivered at most once; what an
        earlier run left in the journal decides how this one goes on. */
    method ExecuteAuthorized(t: Task, env: Surroundings) returns (r: HostResult, ghost es: seq<Event>)
      modifies this
      ensures LeadsTo(old(Now()), Authorized(t), es, Now())
      ensures r in {IsDelivered, ReconcileAmbiguous, AuthorityDenied, Crashed}
      ensures sends == old(sends)
           || sends == old(sends) + [Sent(BindingOf(t, AttemptFor(old(FilesOf(Now(), t.dir)).journal, env)), t.token, env.receipt, env.info)]
      // A send whose outcome is unknown is never repeated.
      ensures var j := old(FilesOf(Now(), t.dir)).journal;
              j.Journal? && (j.phase == Sending || j.phase == Ambiguous) ==> r == ReconcileAmbiguous && Now() == old(Now())
      // An intent or receipt of another effect is turned ambiguous.
      ensures var j := old(FilesOf(Now(), t.dir)).journal;
              j.Journal? && (j.phase == Intent || j.phase == Receipt) && j.bound.effect != Effect(t.dir, t.key, t.variant) ==>
                r != IsDelivered && sends == old(sends)
                && (old(life) > 0 ==> r == ReconcileAmbiguous && Now() == PutJournal(old(Now()), t.dir, j.(phase := Ambiguous)))
      // A durable receipt of this effect is completed without a second send.
      ensures var j := old(FilesOf(Now(), t.dir)).journal;
              j.Journal? && j.phase == Receipt && j.bound.effect == Effect(t.dir, t.key, t.variant) ==>
                && sends == old(sends)
                && (if env.finalizeUp && OwnsToken(old(markers), t.token, j.bound)
                    then old(life) >= 4 && |t.entries| < MAX_LEDGER_ENTRIES ==> r == IsDelivered
                    else r == ReconcileAmbiguous && Now() == old(Now()))
      // Without a boundary to send through, nothing is written and nothing is sent.
      ensures MayStart(old(FilesOf(Now(), t.dir)).journal, t) && !env.boundary ==> r == AuthorityDenied && Now() == old(Now())
      // An effect goes out exactly from a clean start or an own intent, through the boundary, with
      // a dispatch that can be reserved.
      ensures sends != old(sends) ==> CanSend(old(Now()), t, env)
      ensures CanSend(old(Now()), t, env) && old(life) >= 5 ==> sends != old(sends)
      // It is delivered if it can be finalized too, and ambiguous if no proper receipt comes back.
      ensures (&& CanSend(old(Now()), t, env) && Delivered(t.key, env.receipt, env.info) && env.finalizeUp
               && old(life) >= 10 && |t.entries| < MAX_LEDGER_ENTRIES)
              ==> r == IsDelivered
      ensures (&& CanSend(old(Now()), t, env) && !Delivered(t.key, env.receipt, env.info)
               && old(life) >= 7 && |t.entries| < MAX_LEDGER_ENTRIES)
              ==> r == ReconcileAmbiguous && Rank(FilesOf(Now(), t.dir).journal) == 4
      // A dispatch that is not to be had is denied, and nothing is left but the intent.
      ensures var j := old(FilesOf(Now(), t.dir)).journal;
              (&& MayStart(j, t) && env.boundary && old(life) >= 1
               && (!env.reserveUp || !Obtainable(legacy, old(markers), t.token, BindingOf(t, AttemptFor(j, env)))))
              ==> && r == AuthorityDenied
                  && Now() == (if j.Journal? then old(Now())
                               else PutJournal(old(Now()), t.dir, Journal(Intent, BindingOf(t, AttemptFor(j, env)), t.token)))
      ensures r == IsDelivered ==> FilesOf(Now(), t.dir).watch == t.next
    {
      Nothing(Now(), Authorized(t));
      var j := if t.dir in files then files[t.dir].journal else NoJournal;
      if j.Journal? && (j.phase.Sending? || j.phase.Ambiguous?) { return ReconcileAmbiguous, []; }
      if j.Journal? && j.bound.effect != Effect(t.dir, t.key, t.variant) {
        r, es := MarkMismatch(t, j);
        return;
      }
      if j.Journal? && j.phase.Receipt? {
        r, es := CompleteReceipt(t, j, env);
        return;
      }
      if !env.boundary { return AuthorityDenied, []; }
      r, es := StartDelivery(t, j, env);
    }

    /** Persist the watch state and answer DEDUP; an untyped result is renamed by the caller. */
    method StoreNext(d: Dir, n: Watch.State) returns (r: HostResult, ghost es: seq<Event>)
      modifies this
      ensures LeadsTo(old(Now()), SavingWatch(d, n), es, Now())
      ensures r == if old(life) > 0 then IsDedup else Crashed
      ensures Now() == if old(life) > 0 then PutWatch(old(Now()), d, n) else old(Now())
    {
      Nothing(Now(), SavingWatch(d, n));
      SavedWatch(Now(), d, n);
      var ok := PersistWatch(d, n);
      if !ok { return Crashed, []; }
      r, es := IsDedup, [SaveWatch];
    }

    /** What the gate answers to a proper request that no entry of the ledger covers. */
    method PassGate(d: Dir, k: Watch.Key, n: Watch.State, entries: seq<Entry>, request: Request, branch: string,
                    status: Coordinator.PacketStatus, gate: Gate, env: Surroundings)
      returns (r: HostResult, ghost es: seq<Event>)
      requires NoEntry(entries, k) && Proper(d, k, request, branch)
      modifies this
      ensures LeadsTo(old(Now()), Typed(d, k, n, entries), es, Now())
      ensures gate == Deny ==> r == AuthorityDenied && Now() == old(Now())
      ensures (&& k.result == Watch.NotifyOwner
               && gate in {StaleRequest, BlockedByResource, NotRetryable})
              ==> r == AuthorityDenied && Now() == old(Now())
      ensures k.result != Watch.NotifyOwner && gate == StaleRequest ==>
                r == StaleReconcile && Now() == old(Now())
      ensures k.result != Watch.NotifyOwner && gate == BlockedByResource ==>
                r == ResourceBlocked && Now() == old(Now())
      ensures gate == SpentDispatch && old(life) > 0 ==>
                r == IsDedup && Now() == PutWatch(old(Now()), d, n)
      ensures (&& gate == NotRetryable && k.result != Watch.NotifyOwner
               && old(life) > 0 && |entries| < MAX_LEDGER_ENTRIES)
              ==> r == ReconcileAmbiguous && Now() == PutLedger(old(Now()), d, entries + [Entry(k, Unknown)])
      // An effect goes out exactly for a proper request that the gate allows and that can be sent.
      ensures sends != old(sends) ==>
                && gate == Allow
                && CanSend(old(Now()), TaskFor(d, k, n, entries, request, branch, status), env)
                && |sends| == |old(sends)| + 1 && sends[..|old(sends)|] == old(sends)
                && sends[|old(sends)|].token == request.dispatch.value
                && sends[|old(sends)|].bound.effect ==
                     Effect(d, k, if k.result == Watch.NotifyOwner then Notice(branch) else Write(branch, status, request.target))
      ensures (&& gate == Allow && old(life) >= 5
               && CanSend(old(Now()), TaskFor(d, k, n, entries, request, branch, status), env))
              ==> sends != old(sends)
      ensures (&& gate == Allow && !env.boundary
               && MayStart(old(FilesOf(Now(), d)).journal, TaskFor(d, k, n, entries, request, branch, status)))
              ==> r == AuthorityDenied && Now() == old(Now())
      ensures r == IsDelivered ==>
                && gate == Allow
                && FilesOf(Now(), d).watch == n
      ensures (&& gate == Allow && env.finalizeUp
               && old(life) >= 10 && |entries| < MAX_LEDGER_ENTRIES
               && (|| ReceiptFor(old(Now()), d, EffectFor(d, k, branch, status, request.target), request.dispatch.value)
                   || (&& CanSend(old(Now()), TaskFor(d, k, n, entries, request, branch, status), env)
                       && Delivered(k, env.receipt, env.info))))
              ==> r == IsDelivered
      ensures ReceiptFor(old(Now()), d, EffectFor(d, k, branch, status, request.target), OrElse(request.dispatch, "")) ==>
                sends == old(sends)
      ensures (&& gate == Allow && env.finalizeUp
               && ReceiptFor(old(Now()), d, EffectFor(d, k, branch, status, request.target), request.dispatch.value)
               && old(life) >= 4 && |entries| < MAX_LEDGER_ENTRIES)
              ==> r == IsDelivered
    {
      Nothing(Now(), Typed(d, k, n, entries));
      ghost var w0 := Now();
      ghost var fs;
      var effect := EffectFor(d, k, branch, status, request.target);
      var token := request.dispatch.value;
      GateFollowed(w0, d, k, n, entries, effect.variant, token);
      if gate.SpentDispatch? {
        r, fs := StoreNext(d, n);
        Join(w0, Typed(d, k, n, entries), [GateReplay], w0, SavingWatch(d, n), fs);
        return r, [GateReplay] + fs;
      }
      if gate.Allow? {
        r, fs := ExecuteAuthorized(Task(d, k, n, entries, effect.variant, token), env);
        Join(w0, Typed(d, k, n, entries), [GateAllow(effect.variant, token)], w0,
             Authorized(Task(d, k, n, entries, effect.variant, token)), fs);
        return r, [GateAllow(effect.variant, token)] + fs;
      }
      if k.result == Watch.NotifyOwner || gate.Deny? { return AuthorityDenied, []; }
      if gate.StaleRequest? { return StaleReconcile, []; }
      if gate.BlockedByResource? { return ResourceBlocked, []; }
      var ok := PersistLedger(d, entries + [Entry(k, Unknown)]);
      if !ok { return Crashed, []; }
      SavedUnknown(w0, d, k, entries);
      Join(w0, Typed(d, k, n, entries), [GateUnknown], w0, SavingUnknown(d, k, entries), [SaveUnknown]);
      return ReconcileAmbiguous, [GateUnknown] + [SaveUnknown];
    }

    /** `_finish_typed`: what the ledger says comes first, then the request, then the gate. */
    method FinishTyped(d: Dir, k: Watch.Key, n: Watch.State, entries: seq<Entry>, request: Request, branch: string,
                       status: Coordinator.PacketStatus, gate: Gate, env: Surroundings)
      returns (r: HostResult, ghost es: seq<Event>)
      modifies this
      ensures LeadsTo(old(Now()), Typed(d, k, n, entries), es, Now())
      ensures sends == old(sends) || |sends| == |old(sends)| + 1
      // The ledger comes first.
      ensures HasEntry(entries, k, Unknown) ==> r == ReconcileAmbiguous && Now() == old(Now())
      ensures HasEntry(entries, k, Applied) && !HasEntry(entries, k, Unknown) ==>
                sends == old(sends) && (old(life) > 0 ==> r == IsDedup && Now() == PutWatch(old(Now()), d, n))
      // Then the request and the gate; whatever they refuse leaves everything as it is.
      ensures NoEntry(entries, k) && request.dispatch.None? ==> r == AuthorityDenied && Now() == old(Now())
      ensures NoEntry(entries, k) && request.dispatch.Some? && request.branch != branch ==> r == StaleReconcile && Now() == old(Now())
      ensures (&& NoEntry(entries, k) && request.dispatch.Some? && request.branch == branch
               && k.result != Watch.NotifyOwner && d.subject.None?)
              ==> r == AuthorityDenied && Now() == old(Now())
      ensures NoEntry(entries, k) && Proper(d, k, request, branch) && gate == Deny ==> r == AuthorityDenied && Now() == old(Now())
      ensures (&& NoEntry(entries, k) && Proper(d, k, request, branch) && k.result == Watch.NotifyOwner
               && gate in {StaleRequest, BlockedByResource, NotRetryable})
              ==> r == AuthorityDenied && Now() == old(Now())
      ensures NoEntry(entries, k) && Proper(d, k, request, branch) && k.result != Watch.NotifyOwner && gate == StaleRequest ==>
                r == StaleReconcile && Now() == old(Now())
      ensures NoEntry(entries, k) && Proper(d, k, request, branch) && k.result != Watch.NotifyOwner && gate == BlockedByResource ==>
                r == ResourceBlocked && Now() == old(Now())
      ensures NoEntry(entries, k) && Proper(d, k, request, branch) && gate == SpentDispatch && old(life) > 0 ==>
                r == IsDedup && Now() == PutWatch(old(Now()), d, n)
      ensures (&& NoEntry(entries, k) && Proper(d, k, request, branch) && gate == NotRetryable && k.result != Watch.NotifyOwner
               && old(life) > 0 && |entries| < MAX_LEDGER_ENTRIES)
              ==> r == ReconcileAmbiguous && Now() == PutLedger(old(Now()), d, entries + [Entry(k, Unknown)])
      // An effect goes out exactly for a proper request that the gate allows and that can be sent.
      ensures sends != old(sends) ==>
                && NoEntry(entries, k) && Proper(d, k, request, branch) && gate == Allow
                && CanSend(old(Now()), TaskFor(d, k, n, entries, request, branch, status), env)
                && |sends| == |old(sends)| + 1 && sends[..|old(sends)|] == old(sends)
                && sends[|old(sends)|].token == request.dispatch.value
                && sends[|old(sends)|].bound.effect ==
                     Effect(d, k, if k.result == Watch.NotifyOwner then Notice(branch) else Write(branch, status, request.target))
      ensures (&& NoEntry(entries, k) && Proper(d, k, request, branch) && gate == Allow && old(life) >= 5
               && CanSend(old(Now()), TaskFor(d, k, n, entries, request, branch, status), env))
              ==> sends != old(sends)
      ensures (&& NoEntry(entries, k) && Proper(d, k, request, branch) && gate == Allow && !env.boundary
               && MayStart(old(FilesOf(Now(), d)).journal, TaskFor(d, k, n, entries, request, branch, status)))
              ==> r == AuthorityDenied && Now() == old(Now())
      ensures r == IsDelivered ==>
                && NoEntry(entries, k) && Proper(d, k, request, branch) && gate == Allow
                && FilesOf(Now(), d).watch == n
      ensures (&& NoEntry(entries, k) && Proper(d, k, request, branch) && gate == Allow && env.finalizeUp
               && old(life) >= 10 && |entries| < MAX_LEDGER_ENTRIES
               && (|| ReceiptFor(old(Now()), d, EffectFor(d, k, branch, status, request.target), request.dispatch.value)
                   || (&& CanSend(old(Now()), TaskFor(d, k, n, entries, request, branch, status), env)
                       && Delivered(k, env.receipt, env.info))))
              ==> r == IsDelivered
      ensures ReceiptFor(old(Now()), d, EffectFor(d, k, branch, status, request.target), OrElse(request.dispatch, "")) ==>
                sends == old(sends)
      ensures (&& NoEntry(entries, k) && Proper(d, k, request, branch) && gate == Allow && env.finalizeUp
               && ReceiptFor(old(Now()), d, EffectFor(d, k, branch, status, request.target), request.dispatch.value)
               && old(life) >= 4 && |entries| < MAX_LEDGER_ENTRIES)
              ==> r == IsDelivered
    {
      Nothing(Now(), Typed(d, k, n, entries));
      if HasEntry(entries, k, Unknown) { return ReconcileAmbiguous, []; }
      if HasEntry(entries, k, Applied) {
        ghost var w0 := Now();
        ghost var fs;
        GateFollowed(w0, d, k, n, entries, Notice(branch), "");
        r, fs := StoreNext(d, n);
        Join(w0, Typed(d, k, n, entries), [AlreadyApplied], w0, SavingWatch(d, n), fs);
        return r, [AlreadyApplied] + fs;
      }
      if request.dispatch.None? { return AuthorityDenied, []; }
      if request.branch != branch { return StaleReconcile, []; }
      if k.result != Watch.NotifyOwner && d.subject.None? { return AuthorityDenied, []; }
      r, es := PassGate(d, k, n, entries, request, branch, status, gate, env);
    }

    /** The part of `run_once` that holds the lock: one evaluation, at most one action. */
    method RunLocked(o: Watch.Observation, branch: string, o': Watch.Observation, branch': string, request: Request,
                     gate: Gate, env: Surroundings)
      returns (r: HostResult, ghost es: seq<Event>)
      requires o.cls == o'.cls
      modifies this
      ensures LeadsTo(old(Now()), Locked(DirOf(o)), es, Now())
      ensures sends == old(sends) || |sends| == |old(sends)| + 1
      // An observation the evaluator refuses changes nothing.
      ensures Watch.Evaluate(o, old(FilesOf(Now(), DirOf(o))).watch).Rejected? ==> r == Crashed && Now() == old(Now())
      // An untyped result sends nothing and stores the evaluator's next state.
      ensures var e := Watch.Evaluate(o, old(FilesOf(Now(), DirOf(o))).watch);
              e.Evaluated? && !Watch.IsTyped(e.result) && old(life) > 0 ==>
                && r == (if e.result == Watch.BlockReconciliation then ReconcileAmbiguous else NoAction)
                && Now() == PutWatch(old(Now()), DirOf(o), e.next)
      // A typed one of another branch, or one that does not reconcile, leaves everything as it is.
      ensures var e := Watch.Evaluate(o, old(FilesOf(Now(), DirOf(o))).watch);
              e.Evaluated? && Watch.IsTyped(e.result) && request.branch != branch ==> r == StaleReconcile && Now() == old(Now())
      ensures var e := Watch.Evaluate(o, old(FilesOf(Now(), DirOf(o))).watch);
              e.Evaluated? && Watch.IsTyped(e.result) && request.branch == branch ==>
                var blocked := Reconcile(SnapshotOf(o.facts, branch), SnapshotOf(o'.facts, branch'), e.result);
                blocked.Some? ==> r == blocked.value && Now() == old(Now())
      // A rerun after the action was applied, even with the watch state lost, sends nothing.
      ensures var e := Watch.Evaluate(o, old(FilesOf(Now(), DirOf(o))).watch);
              (&& Reconciled(e, o, branch, o', branch', request)
               && HasEntry(old(FilesOf(Now(), DirOf(o))).ledger, e.key, Applied)
               && !HasEntry(old(FilesOf(Now(), DirOf(o))).ledger, e.key, Unknown) && old(life) > 0)
              ==> r == IsDedup && sends == old(sends) && FilesOf(Now(), DirOf(o)).watch == e.next
      // One whose outcome is unknown is not repeated.
      ensures var e := Watch.Evaluate(o, old(FilesOf(Now(), DirOf(o))).watch);
              (&& Reconciled(e, o, branch, o', branch', request)
               && HasEntry(old(FilesOf(Now(), DirOf(o))).ledger, e.key, Unknown))
              ==> r == ReconcileAmbiguous && Now() == old(Now())
      // A rerun from a durable receipt of the same effect completes it without a second send.
      ensures var e := Watch.Evaluate(o, old(FilesOf(Now(), DirOf(o))).watch);
              var entries := old(FilesOf(Now(), DirOf(o))).ledger;
              (&& Reconciled(e, o, branch, o', branch', request) && NoEntry(entries, e.key)
               && Proper(DirOf(o), e.key, request, branch)
               && gate == Allow && env.finalizeUp && old(life) >= 4 && |entries| < MAX_LEDGER_ENTRIES
               && ReceiptFor(old(Now()), DirOf(o), EffectFor(DirOf(o), e.key, branch, o.facts.packet.status, request.target),
                             request.dispatch.value))
              ==> r == IsDelivered && sends == old(sends)
      // An effect goes out exactly for a typed result that reconciles, that no entry of the ledger
      // covers, for a proper request that the gate allows and that can be sent.
      ensures sends != old(sends) ==>
                && Sendable(old(Now()), o, branch, o', branch', request, env) && gate == Allow
                && |sends| == |old(sends)| + 1 && sends[..|old(sends)|] == old(sends)
                && sends[|old(sends)|].token == request.dispatch.value
      ensures Sendable(old(Now()), o, branch, o', branch', request, env) && gate == Allow && old(life) >= 5 ==> sends != old(sends)
      // Without a boundary to send through, nothing is written and nothing is sent.
      ensures var e := Watch.Evaluate(o, old(FilesOf(Now(), DirOf(o))).watch);
              var entries := old(FilesOf(Now(), DirOf(o))).ledger;
              (&& Reconciled(e, o, branch, o', branch', request) && NoEntry(entries, e.key) && gate == Allow && !env.boundary
               && Proper(DirOf(o), e.key, request, branch)
               && MayStart(old(FilesOf(Now(), DirOf(o))).journal,
                           TaskFor(DirOf(o), e.key, e.next, entries, request, branch, o.facts.packet.status)))
              ==> r == AuthorityDenied && Now() == old(Now())
    {
      var d := DirOf(o);
      var here := if d in files then files[d] else NO_FILES;
      Nothing(Now(), Locked(d));
      var e := Watch.Evaluate(o, here.watch);
      if e.Rejected? { return Crashed, []; }
      ghost var w0 := Now();
      ghost var fs;
      Looked(w0, d, o);
      if !Watch.IsTyped(e.result) {
        r, fs := StoreNext(d, e.next);
        Join(w0, Locked(d), [Evaluate(o)], w0, SavingWatch(d, e.next), fs);
        if r == IsDedup { r := if e.result.BlockReconciliation? then ReconcileAmbiguous else NoAction; }
        return r, [Evaluate(o)] + fs;
      }
      if request.branch != branch { return StaleReconcile, []; }
      var blocked := Reconcile(SnapshotOf(o.facts, branch), SnapshotOf(o'.facts, branch'), e.result);
      if blocked.Some? { return blocked.value, []; }
      ReconciledFactsShareTheDirectory(o, o', branch, branch', e.result);
      Watch.TypedActionsAreNewAndNamed(here.watch, o);
      r, fs := FinishTyped(d, e.key, e.next, here.ledger, request, branch', o'.facts.packet.status, gate, env);
      Join(w0, Locked(d), [Evaluate(o)], w0, Typed(d, e.key, e.next, here.ledger), fs);
      es := [Evaluate(o)] + fs;
    }
  }
}
