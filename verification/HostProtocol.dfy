/**
 The run-once watch host of tools/coordinator_watch_host.py as a state machine.

 Any number of host processes work on any number of watch directories and share one
 dispatch registry.  Every durable write, the send and each file operation of the registry
 is one step.  A process can stop between any two steps, by a crash, an exception or an
 early return; its lock dies with it.  What is collected, what the gate answers and what
 a send returns is chosen freely by the event.

 A watch directory is named by the identity its path is hashed from, and an effect by the
 record its digest is computed from; both hashes are taken to be injective.
 */
module HostProtocol {

  import opened Options
  import opened DispatchRegistry
  import Watch

  type Dir = Watch.Identity
  type Token = string
  type Process = nat

  /** What an effect says beside its directory and its notification key. */
  datatype Variant = Write(branch: string, status: Watch.Coordinator.PacketStatus, target: string) | Notice(branch: string)
  datatype Effect = Effect(dir: Dir, key: Watch.Key, variant: Variant)
  datatype Binding = Binding(effect: Effect, attempt: nat)

  datatype Phase = Intent | Sending | Receipt | Ambiguous
  datatype Journal = NoJournal | Journal(phase: Phase, bound: Binding, token: Token)

  datatype Outcome = Applied | Unknown
  datatype Entry = Entry(key: Watch.Key, outcome: Outcome)

  /** The journal, ledger and watch-state files of one watch directory. */
  datatype Files = Files(journal: Journal, ledger: seq<Entry>, watch: Watch.State)

  const NO_FILES := Files(NoJournal, [], Watch.EMPTY)
  const MAX_LEDGER_ENTRIES := 32

  /** A typed action past the gate: what to record, and the signed dispatch it came with. */
  datatype Task = Task(dir: Dir, key: Watch.Key, next: Watch.State, entries: seq<Entry>, variant: Variant, token: Token)

  function BindingOf(t: Task, attempt: nat): Binding {
    Binding(Effect(t.dir, t.key, t.variant), attempt)
  }

  /** Where a process is.  All but the last two hold the lock of their directory. */
  datatype Pc =
    | Locked(dir: Dir)
    | Typed(dir: Dir, key: Watch.Key, next: Watch.State, entries: seq<Entry>)
    | Authorized(task: Task)
    | Mismatched(task: Task)
    | Reserving(task: Task, attempt: nat)
    | WritingReservation(task: Task, attempt: nat)
    | Holding(task: Task, attempt: nat)
    | ReadyToSend(task: Task, attempt: nat)
    | Failed(task: Task, attempt: nat, record: bool)
    | GotReceipt(task: Task, attempt: nat)
    | Finalizing(task: Task, attempt: nat)
    | WritingConsumed(task: Task, attempt: nat)
    | Finalized(task: Task, attempt: nat)
    | SavingUnknown(dir: Dir, key: Watch.Key, entries: seq<Entry>)
    | SavingWatch(dir: Dir, next: Watch.State)
    | Finished(dir: Dir)
    | Consuming(spends: Token)
    | Spent

  function LockOf(pc: Pc): Option<Dir> {
    match pc
    case Locked(d) => Some(d)
    case Typed(d, _, _, _) => Some(d)
    case SavingUnknown(d, _, _) => Some(d)
    case SavingWatch(d, _) => Some(d)
    case Finished(d) => Some(d)
    case Consuming(_) => None
    case Spent => None
    case _ => Some(pc.task.dir)
  }

  /** The token whose file the process has created or truncated and not yet written. */
  function OpenToken(pc: Pc): Option<Token> {
    match pc
    case WritingReservation(t, _) => Some(t.token)
    case WritingConsumed(t, _) => Some(t.token)
    case Consuming(t) => Some(t)
    case _ => None
  }

  /** One send, with what came back. */
  datatype Sent = Sent(bound: Binding, token: Token, receipt: bool, info: bool)

  datatype Owner = Nobody | OwnedBy(bound: Binding)

  /** Everything the processes share.  `owners` and `sends` are history: who created each
      marker, and what was ever sent. */
  datatype World = World(
    files: map<Dir, Files>, legacy: set<Token>, markers: map<Token, Marker<Binding>>,
    owners: map<Token, Owner>, sends: seq<Sent>)

  datatype System = System(world: World, at: map<Process, Pc>)

  function FilesOf(w: World, d: Dir): Files {
    if d in w.files then w.files[d] else NO_FILES
  }

  /** The host state root starts empty; the replay directory may hold spent dispatches. */
  function Start(legacy: set<Token>, spent: set<Token>): System {
    System(World(map[], legacy, map t | t in spent :: ConsumedByNobody, map t | t in spent :: Nobody, []), map[])
  }

  datatype Event =
    | Acquire(dir: Dir)
    | Evaluate(observed: Watch.Observation)
    | AlreadyApplied
    | GateReplay
    | GateUnknown
    | GateAllow(variant: Variant, token: Token)
    | LoadJournal(newAttempt: nat)
    | CommitMismatch
    | CreateReservation
    | WriteReservation
    | CommitSending
    | Send(receipt: bool, info: bool)
    | CommitReceipt
    | CommitAmbiguous
    | OpenForConsumption
    | WriteConsumed
    | RecordApplied
    | SaveUnknown
    | SaveWatch
    | CreateConsumed(token: Token)
    | WriteConsumedByNobody
    | Stop

  function PutJournal(w: World, d: Dir, j: Journal): World {
    w.(files := w.files[d := FilesOf(w, d).(journal := j)])
  }

  function PutLedger(w: World, d: Dir, es: seq<Entry>): World {
    w.(files := w.files[d := FilesOf(w, d).(ledger := es)])
  }

  function PutWatch(w: World, d: Dir, n: Watch.State): World {
    w.(files := w.files[d := FilesOf(w, d).(watch := n)])
  }

  function PutMarker(w: World, t: Token, m: Marker<Binding>): World {
    w.(markers := w.markers[t := m])
  }

  function CreateMarker(w: World, t: Token, o: Owner): World {
    PutMarker(w, t, Torn).(owners := w.owners[t := o])
  }

  /** The identity `canonical_watch_dir` derives from an observation. */
  function DirOf(o: Watch.Observation): Dir {
    Watch.Identity(o.facts.packet.repository, o.facts.packet.workstream, o.facts.packet.revision, o.cls,
                   Watch.Coordinator.SubjectVersion(o.facts))
  }

  predicate HasEntry(es: seq<Entry>, k: Watch.Key, out: Outcome) {
    exists i :: 0 <= i < |es| && es[i] == Entry(k, out)
  }

  /** The effect of a send that counts as delivered: a receipt, at level INFO for a notice. */
  predicate Delivered(key: Watch.Key, receipt: bool, info: bool) {
    receipt && (key.result == Watch.NotifyOwner ==> info)
  }

  /** The lock holder loads the watch state and evaluates what it collected. */
  function Look(w: World, d: Dir, o: Watch.Observation): Option<Pc> {
    var ev := Watch.Evaluate(o, FilesOf(w, d).watch);
    if ev.Rejected? || DirOf(o) != d then None
    else if Watch.IsTyped(ev.result) then Some(Typed(d, ev.key, ev.next, FilesOf(w, d).ledger))
    else Some(SavingWatch(d, ev.next))
  }

  /** What a process at pc does on event e: the shared state and where it is next. */
  function Act(w: World, pc: Pc, e: Event): Option<(World, Pc)> {
    match (pc, e)
    case (Typed(d, k, n, es), AlreadyApplied) =>
      if HasEntry(es, k, Applied) && !HasEntry(es, k, Unknown) then Some((w, SavingWatch(d, n))) else None
    case (Typed(d, k, n, es), GateReplay) =>
      if HasEntry(es, k, Applied) || HasEntry(es, k, Unknown) then None else Some((w, SavingWatch(d, n)))
    case (Typed(d, k, n, es), GateUnknown) =>
      if HasEntry(es, k, Applied) || HasEntry(es, k, Unknown) || k.result == Watch.NotifyOwner then None
      else Some((w, SavingUnknown(d, k, es)))
    case (Typed(d, k, n, es), GateAllow(v, t)) =>
      if HasEntry(es, k, Applied) || HasEntry(es, k, Unknown) then None
      else Some((w, Authorized(Task(d, k, n, es, v, t))))
    case (Authorized(t), LoadJournal(newAttempt)) =>
      var j := FilesOf(w, t.dir).journal;
      if j.NoJournal? then
        Some((PutJournal(w, t.dir, Journal(Intent, BindingOf(t, newAttempt), t.token)), Reserving(t, newAttempt)))
      else if j.phase.Sending? || j.phase.Ambiguous? then None
      else if j.bound.effect != Effect(t.dir, t.key, t.variant) then Some((w, Mismatched(t)))
      else if j.phase.Receipt? then Some((w, Finalizing(t, j.bound.attempt)))
      else Some((w, Reserving(t, j.bound.attempt)))
    case (Mismatched(t), CommitMismatch) =>
      var j := FilesOf(w, t.dir).journal;
      if j.NoJournal? then None
      else Some((PutJournal(w, t.dir, j.(phase := Ambiguous)), Finished(t.dir)))
    case (Reserving(t, a), CreateReservation) =>
      if t.token in w.legacy then None
      else if t.token !in w.markers then
        Some((CreateMarker(w, t.token, OwnedBy(BindingOf(t, a))), WritingReservation(t, a)))
      else if w.markers[t.token] == Reserved(BindingOf(t, a)) then Some((w, Holding(t, a)))
      else None
    case (WritingReservation(t, a), WriteReservation) =>
      Some((PutMarker(w, t.token, Reserved(BindingOf(t, a))), Holding(t, a)))
    case (Holding(t, a), CommitSending) =>
      Some((PutJournal(w, t.dir, Journal(Sending, BindingOf(t, a), t.token)), ReadyToSend(t, a)))
    case (ReadyToSend(t, a), Send(receipt, info)) =>
      Some((w.(sends := w.sends + [Sent(BindingOf(t, a), t.token, receipt, info)]),
            if Delivered(t.key, receipt, info) then GotReceipt(t, a) else Failed(t, a, !receipt)))
    case (Failed(t, a, record), CommitAmbiguous) =>
      Some((PutJournal(w, t.dir, Journal(Ambiguous, BindingOf(t, a), t.token)),
            if record then SavingUnknown(t.dir, t.key, t.entries) else Finished(t.dir)))
    case (GotReceipt(t, a), CommitReceipt) =>
      Some((PutJournal(w, t.dir, Journal(Receipt, BindingOf(t, a), t.token)), Finalizing(t, a)))
    case (Finalizing(t, a), OpenForConsumption) =>
      if t.token !in w.markers then None
      else if w.markers[t.token] == ConsumedBy(BindingOf(t, a)) then Some((w, Finalized(t, a)))
      else if w.markers[t.token] == Reserved(BindingOf(t, a)) then
        Some((PutMarker(w, t.token, Torn), WritingConsumed(t, a)))
      else None
    case (WritingConsumed(t, a), WriteConsumed) =>
      Some((PutMarker(w, t.token, ConsumedBy(BindingOf(t, a))), Finalized(t, a)))
    case (Finalized(t, a), RecordApplied) =>
      if HasEntry(t.entries, t.key, Applied) then Some((w, SavingWatch(t.dir, t.next)))
      else if |t.entries| + 1 > MAX_LEDGER_ENTRIES then None
      else Some((PutLedger(w, t.dir, t.entries + [Entry(t.key, Applied)]), SavingWatch(t.dir, t.next)))
    case (SavingUnknown(d, k, es), SaveUnknown) =>
      if |es| + 1 > MAX_LEDGER_ENTRIES then None
      else Some((PutLedger(w, d, es + [Entry(k, Unknown)]), Finished(d)))
    case (SavingWatch(d, n), SaveWatch) =>
      Some((PutWatch(w, d, n), Finished(d)))
    case (Consuming(t), WriteConsumedByNobody) =>
      Some((PutMarker(w, t, ConsumedByNobody), Spent))
    case _ => None
  }

  /** Whether no process holds the lock of d. */
  predicate Unlocked(s: System, d: Dir) {
    forall p :: p in s.at ==> LockOf(s.at[p]) != Some(d)
  }

  /** Whether a process is between truncating and rewriting the marker of t; it then holds
      the exclusive lock on that file, and another one that wants it waits. */
  predicate MarkerLocked(s: System, t: Token) {
    exists p :: p in s.at && s.at[p].WritingConsumed? && s.at[p].task.token == t
  }

  /** What one event of process p leads to; None when it cannot happen there. */
  function Apply(s: System, p: Process, e: Event): Option<System> {
    if e.Acquire? then
      if p !in s.at && Unlocked(s, e.dir) then Some(s.(at := s.at[p := Locked(e.dir)])) else None
    else if e.CreateConsumed? then
      if p !in s.at && e.token !in s.world.legacy && e.token !in s.world.markers then
        Some(System(CreateMarker(s.world, e.token, Nobody), s.at[p := Consuming(e.token)]))
      else None
    else if p !in s.at then None
    else if e.Stop? then Some(s.(at := s.at - {p}))
    else if e.Evaluate? then
      if !s.at[p].Locked? then None
      else
        var pc := Look(s.world, s.at[p].dir, e.observed);
        if pc.None? then None else Some(s.(at := s.at[p := pc.value]))
    else if e.OpenForConsumption? && s.at[p].Finalizing? && MarkerLocked(s, s.at[p].task.token) then None
    else
      var r := Act(s.world, s.at[p], e);
      if r.None? then None else Some(System(r.value.0, s.at[p := r.value.1]))
  }

  /** A run: events of any processes, in any interleaving. */
  function Exec(s: System, run: seq<(Process, Event)>): Option<System>
    decreases |run|
  {
    if run == [] then Some(s)
    else
      var s' := Apply(s, run[0].0, run[0].1);
      if s'.None? then None else Exec(s'.value, run[1..])
  }

  // -------------------------------------------------------------- the invariant

  function Rank(j: Journal): nat {
    match j
    case NoJournal => 0
    case Journal(Intent, _, _) => 1
    case Journal(Sending, _, _) => 2
    case Journal(Receipt, _, _) => 3
    case Journal(Ambiguous, _, _) => 4
  }

  ghost predicate KeyOf(d: Dir, k: Watch.Key) {
    && Watch.TypedPair(k.result, k.name)
    && k == Watch.Key(d.repository, d.workstream, d.revision, k.result, k.name, d.subject)
  }

  ghost predicate NoEntryFor(es: seq<Entry>, k: Watch.Key) {
    forall i :: 0 <= i < |es| ==> es[i].key != k
  }

  ghost predicate NoSendIn(w: World, d: Dir) {
    forall i :: 0 <= i < |w.sends| ==> w.sends[i].bound.effect.dir != d
  }

  /** A send of exactly this effect and attempt came back with what it needed. */
  ghost predicate DeliveredSend(w: World, b: Binding) {
    exists i :: 0 <= i < |w.sends| && w.sends[i].bound == b && Delivered(b.effect.key, w.sends[i].receipt, w.sends[i].info)
  }

  ghost predicate ConsumedFor(w: World, t: Token, b: Binding) {
    t in w.markers && w.markers[t] == ConsumedBy(b)
  }

  /** The evidence an APPLIED entry stands for. */
  ghost predicate Evidence(w: World, d: Dir, k: Watch.Key) {
    exists b: Binding, t: Token ::
      b.effect.dir == d && b.effect.key == k && ConsumedFor(w, t, b) && DeliveredSend(w, b)
  }

  ghost predicate OwnedToken(w: World, t: Token, b: Binding) {
    t in w.owners && w.owners[t] == OwnedBy(b)
  }

  ghost predicate TaskOk(w: World, t: Task) {
    && t.entries == FilesOf(w, t.dir).ledger && KeyOf(t.dir, t.key) && NoEntryFor(t.entries, t.key)
  }

  ghost predicate JournalIs(w: World, d: Dir, ph: Phase, b: Binding) {
    var j := FilesOf(w, d).journal;
    j.Journal? && j.phase == ph && j.bound == b
  }

  ghost predicate PcOk(w: World, pc: Pc) {
    match pc
    case Locked(_) => true
    case Typed(d, k, n, es) => es == FilesOf(w, d).ledger && KeyOf(d, k)
    case Authorized(t) => TaskOk(w, t)
    case Mismatched(t) => TaskOk(w, t) && Rank(FilesOf(w, t.dir).journal) in {1, 3}
    case Reserving(t, a) => TaskOk(w, t) && JournalIs(w, t.dir, Intent, BindingOf(t, a))
    case WritingReservation(t, a) =>
      TaskOk(w, t) && JournalIs(w, t.dir, Intent, BindingOf(t, a)) && OwnedToken(w, t.token, BindingOf(t, a))
    case Holding(t, a) =>
      TaskOk(w, t) && JournalIs(w, t.dir, Intent, BindingOf(t, a)) && OwnedToken(w, t.token, BindingOf(t, a))
    case ReadyToSend(t, a) =>
      && TaskOk(w, t) && JournalIs(w, t.dir, Sending, BindingOf(t, a)) && OwnedToken(w, t.token, BindingOf(t, a))
      && NoSendIn(w, t.dir)
    case Failed(t, a, _) => TaskOk(w, t) && JournalIs(w, t.dir, Sending, BindingOf(t, a))
    case GotReceipt(t, a) =>
      TaskOk(w, t) && JournalIs(w, t.dir, Sending, BindingOf(t, a)) && DeliveredSend(w, BindingOf(t, a))
    case Finalizing(t, a) => TaskOk(w, t) && JournalIs(w, t.dir, Receipt, BindingOf(t, a))
    case WritingConsumed(t, a) =>
      TaskOk(w, t) && JournalIs(w, t.dir, Receipt, BindingOf(t, a)) && OwnedToken(w, t.token, BindingOf(t, a))
    case Finalized(t, a) =>
      TaskOk(w, t) && JournalIs(w, t.dir, Receipt, BindingOf(t, a)) && ConsumedFor(w, t.token, BindingOf(t, a))
    case SavingUnknown(d, k, es) => es == FilesOf(w, d).ledger && KeyOf(d, k) && NoEntryFor(es, k)
    case SavingWatch(_, _) => true
    case Finished(_) => true
    case Consuming(t) => t in w.owners && w.owners[t] == Nobody
    case Spent => true
  }

  /** Two processes never hold one lock, and never have one marker open for writing. */
  ghost predicate Apart(a: Pc, b: Pc) {
    && (LockOf(a).Some? ==> LockOf(a) != LockOf(b))
    && (OpenToken(a).Some? ==> OpenToken(a) != OpenToken(b))
  }

  ghost predicate OpenIsTorn(w: World, pc: Pc) {
    OpenToken(pc).Some? ==> OpenToken(pc).value in w.markers && w.markers[OpenToken(pc).value] == Torn
  }

  ghost predicate LedgerOk(w: World, d: Dir) {
    var es := FilesOf(w, d).ledger;
    && (forall i :: 0 <= i < |es| ==> KeyOf(d, es[i].key))
    && (forall i, j :: 0 <= i < j < |es| ==> es[i].key != es[j].key)
    && (forall i :: 0 <= i < |es| && es[i].outcome == Applied ==> Evidence(w, d, es[i].key))
  }

  ghost predicate JournalOk(w: World, d: Dir) {
    var j := FilesOf(w, d).journal;
    && (Rank(j) < 2 ==> NoSendIn(w, d))
    && (j.Journal? && j.phase == Receipt ==> DeliveredSend(w, j.bound))
  }

  ghost predicate RegistryOk(w: World) {
    && w.owners.Keys == w.markers.Keys
    && forall t :: t in w.markers ==>
         match w.markers[t]
         case Reserved(b) => w.owners[t] == OwnedBy(b)
         case ConsumedBy(b) => w.owners[t] == OwnedBy(b)
         case ConsumedByNobody => w.owners[t] == Nobody
         case Torn => true
  }

  ghost predicate SendsOk(w: World) {
    && (forall i :: 0 <= i < |w.sends| ==> OwnedToken(w, w.sends[i].token, w.sends[i].bound))
    && (forall i, j :: 0 <= i < j < |w.sends| ==> w.sends[i].bound.effect.dir != w.sends[j].bound.effect.dir)
  }

  ghost predicate DirectoryOk(w: World, d: Dir) {
    LedgerOk(w, d) && JournalOk(w, d)
  }

  ghost predicate Inv(s: System) {
    && (forall p :: p in s.at ==> PcOk(s.world, s.at[p]) && OpenIsTorn(s.world, s.at[p]))
    && (forall p, q :: p in s.at && q in s.at && p != q ==> Apart(s.at[p], s.at[q]))
    && (forall d :: DirectoryOk(s.world, d))
    && RegistryOk(s.world)
    && SendsOk(s.world)
  }

  // ------------------------------------------------------------------ framing

  /** w' differs from w by a step of one process, which at most touches directory d. */
  ghost predicate Frame(w: World, w': World, d: Option<Dir>) {
    && (forall d' :: Some(d') != d ==> FilesOf(w', d') == FilesOf(w, d'))
    && (forall t :: t in w.owners ==> t in w'.owners && w'.owners[t] == w.owners[t])
    && (forall t, b :: ConsumedFor(w, t, b) ==> ConsumedFor(w', t, b))
    && |w.sends| <= |w'.sends|
    && (forall i :: 0 <= i < |w.sends| ==> w'.sends[i] == w.sends[i])
    && (forall i :: |w.sends| <= i < |w'.sends| ==> Some(w'.sends[i].bound.effect.dir) == d)
  }

  lemma {:induction false} FrameDelivered(w: World, w': World, d: Option<Dir>, b: Binding)
    requires Frame(w, w', d) && DeliveredSend(w, b)
    ensures DeliveredSend(w', b)
  {
    var i :| 0 <= i < |w.sends| && w.sends[i].bound == b && Delivered(b.effect.key, w.sends[i].receipt, w.sends[i].info);
    assert w'.sends[i] == w.sends[i];
  }

  lemma {:induction false} FrameEvidence(w: World, w': World, d: Option<Dir>, e: Dir, k: Watch.Key)
    requires Frame(w, w', d) && Evidence(w, e, k)
    ensures Evidence(w', e, k)
  {
    var b: Binding, t: Token :| b.effect.dir == e && b.effect.key == k && ConsumedFor(w, t, b) && DeliveredSend(w, b);
    FrameDelivered(w, w', d, b);
  }

  lemma {:induction false} FrameLedger(w: World, w': World, d: Option<Dir>, e: Dir)
    requires Frame(w, w', d) && LedgerOk(w, e) && FilesOf(w', e).ledger == FilesOf(w, e).ledger
    ensures LedgerOk(w', e)
  {
    var es := FilesOf(w, e).ledger;
    forall i | 0 <= i < |es| && es[i].outcome == Applied ensures Evidence(w', e, es[i].key) {
      FrameEvidence(w, w', d, e, es[i].key);
    }
  }

  lemma {:induction false} FrameDirectory(w: World, w': World, d: Option<Dir>, e: Dir)
    requires Frame(w, w', d) && DirectoryOk(w, e) && Some(e) != d
    ensures DirectoryOk(w', e)
  {
    FrameLedger(w, w', d, e);
    var j := FilesOf(w, e).journal;
    if j.Journal? && j.phase == Receipt { FrameDelivered(w, w', d, j.bound); }
  }

  lemma {:induction false} FramePc(w: World, w': World, d: Option<Dir>, pc: Pc)
    requires Frame(w, w', d) && PcOk(w, pc)
    requires d.Some? ==> LockOf(pc) != d
    ensures PcOk(w', pc)
  {
    if pc.GotReceipt? { FrameDelivered(w, w', d, BindingOf(pc.task, pc.attempt)); }
  }

  /** The marker file of `touched` is the only one that changes, and if it changes it was
      not open in any process but p. */
  ghost predicate MarkersStay(s: System, p: Process, w': World, touched: Option<Token>) {
    && (forall t :: t in s.world.markers && Some(t) != touched ==> t in w'.markers && w'.markers[t] == s.world.markers[t])
    && (forall q :: q in s.at && q != p && touched.Some? ==> OpenToken(s.at[q]) != touched)
  }

  /** A step of p to pc and w' keeps the invariant if its own part is in order: it holds no
      other lock than d, its program counter and directory are in order, the registry and
      the sends are, and it wrote no marker that another process has open. */
  lemma {:induction false} StepKeepsInv(s: System, p: Process, w': World, pc: Pc, d: Option<Dir>, touched: Option<Token>)
    requires Inv(s)
    requires Frame(s.world, w', d)
    requires forall q :: q in s.at && q != p && d.Some? ==> LockOf(s.at[q]) != d
    requires MarkersStay(s, p, w', touched)
    requires PcOk(w', pc) && OpenIsTorn(w', pc)
    requires LockOf(pc).Some? ==> LockOf(pc) == d
    requires OpenToken(pc).Some? ==> OpenToken(pc) == touched
    requires d.Some? ==> DirectoryOk(w', d.value)
    requires RegistryOk(w') && SendsOk(w')
    ensures Inv(System(w', s.at[p := pc]))
  {
    var at' := s.at[p := pc];
    forall q | q in at' ensures PcOk(w', at'[q]) && OpenIsTorn(w', at'[q]) {
      if q != p { FramePc(s.world, w', d, s.at[q]); }
    }
    forall e ensures DirectoryOk(w', e) {
      if Some(e) != d { FrameDirectory(s.world, w', d, e); }
    }
    forall q, r | q in at' && r in at' && q != r ensures Apart(at'[q], at'[r]) {
      if q != p && r != p { assert Apart(s.at[q], s.at[r]); }
    }
  }
}
