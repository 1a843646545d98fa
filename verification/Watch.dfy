/**
 The watch evaluator of tools/coordinator_watch.py: one observation and the durable
 watch state in, one re-entry result and the next durable state out.

 Times are whole seconds, as `_format_time` keeps them.  A state field that the source
 leaves empty is None.  Digests and notification keys are the records they are computed
 from, so two are equal exactly when the source's strings are.
 */
module Watch {

  import opened Options
  import opened Coordinator

  datatype WatchClass = WorkPacketState | ExactHeadCi | ReviewStateWatch | WorkerProgressOrYield | ResourceAdmission

  datatype Observation = Observation(
    cls: WatchClass, at: int, subject: Option<Option<string>>, revision: Option<nat>, facts: Facts)

  datatype Result =
    | NoChange | RecheckLater | WakeCoordinator | ResumeAdmittedWorker | NotifyOwner
    | CloseWatch | BlockReconciliation

  /** The decision a result reports: a planner decision or one of the evaluator's own. */
  datatype Name = By(d: Decision) | StaleWatch | OutOfScope | ClosedName

  datatype Identity = Identity(
    repository: string, workstream: string, revision: nat, cls: WatchClass, subject: Option<string>)

  datatype Key = Key(
    repository: string, workstream: string, revision: nat, result: Result, name: Name, subject: Option<string>)

  datatype Material = Material(
    admission: Admission, ci: Ci, decision: Decision, revision: nat, ambiguous: bool, status: PacketStatus,
    prHead: Head, resource: Resource, actionable: Option<bool>, reviewState: ReviewState, reviewHead: Head,
    worker: Worker)

  datatype Digest = Seen(m: Material) | StaleDigest | ClosedDigest

  datatype State = State(
    identity: Option<Identity>, digest: Option<Digest>, name: Option<Name>, key: Option<Key>,
    transitionAt: Option<int>, observedAt: Option<int>, failures: nat, nextCheck: Option<int>, closed: bool)

  const EMPTY := State(None, None, None, None, None, None, 0, None, false)

  datatype Suppress = NotSuppressed | Dedup | IdenticalWait | QuietWait

  datatype Error = SubjectOverride | IdentityMismatch | ClassMismatch | IncompleteState

  datatype Evaluation =
    | Rejected(error: Error)
    | Evaluated(result: Result, name: Name, key: Key, send: bool, suppress: Suppress, nextCheck: Option<int>, next: State)

  const BASE_RECHECK_SECONDS := 300
  const MAX_RECHECK_SECONDS := 3600

  function ObservationDigest(f: Facts, d: Decision): Digest {
    Seen(Material(f.admission, f.ci, d, f.packet.revision, f.ambiguous, f.packet.status, PrHead(f), f.resource,
                  f.review.actionable, f.review.state, f.review.head, f.worker))
  }

  function NotificationKey(f: Facts, r: Result, subject: Option<string>, name: Name): Key {
    Key(f.packet.repository, f.packet.workstream, f.packet.revision, r, name, subject)
  }

  predicate ResumeAllowed(f: Facts) {
    && f.worker.Worker? && f.worker.progress && f.worker.startingRevision == f.packet.revision
    && (f.resource.ResourcePass? || f.resource.ResourceWarn?)
    && f.admission.decision.AdmissionAllow?
  }

  /** The latest accepted observation, or the transition time when that is absent. */
  function Boundary(s: State): Option<int> {
    if s.observedAt.Some? then s.observedAt else s.transitionAt
  }

  predicate Older(o: Observation, s: State) {
    Boundary(s).Some? && o.at < Boundary(s).value
  }

  function Max(a: nat, b: nat): nat { if a < b then b else a }
  function Min(a: int, b: int): int { if b < a then b else a }

  /** The facts the planner sees: a transient failure counts the watch's own retries too. */
  function BindTransientRetry(f: Facts, s: State): Facts {
    if f.failure.cls.Transient? then f.(wait := f.wait.(retryCount := Max(s.failures, f.wait.retryCount))) else f
  }

  function BackoffSeconds(s: State, same: bool): int {
    if !same || s.nextCheck.None? || s.transitionAt.None? then BASE_RECHECK_SECONDS
    else
      var previous := s.nextCheck.value - s.transitionAt.value;
      if previous <= 0 then BASE_RECHECK_SECONDS else Min(previous * 2, MAX_RECHECK_SECONDS)
  }

  function NextCheck(o: Observation, s: State, same: bool): Option<int> {
    Some(o.at + BackoffSeconds(s, same))
  }

  /** An accepted observation: the key is reported and the new durable state is stored. */
  function Emit(o: Observation, s: State, subject: Option<string>, r: Result, name: Name, digest: Digest,
                send: bool, suppress: Suppress, nextCheck: Option<int>, same: bool, closed: bool): Evaluation
  {
    var f := o.facts;
    var key := if r == NoChange && s.key.Some? then s.key.value else NotificationKey(f, r, subject, name);
    var transition := if r == NoChange && same && s.transitionAt.Some? then s.transitionAt else Some(o.at);
    var next := State(
      Some(Identity(f.packet.repository, f.packet.workstream, f.packet.revision, o.cls, subject)),
      Some(digest), Some(name), Some(key), transition, Some(o.at),
      if f.failure.cls.Transient? then s.failures + 1 else 0,
      nextCheck, closed);
    Evaluated(r, name, key, send, suppress, nextCheck, next)
  }

  /** An observation that may not change durable state; only empty fields are filled in. */
  function EmitPreserving(o: Observation, s: State, subject: Option<string>, r: Result, fallback: Name, digest: Digest): Evaluation
  {
    var f := o.facts;
    var name := OrElse(s.name, fallback);
    var key := OrElse(s.key, NotificationKey(f, r, subject, name));
    var identity := OrElse(s.identity, Identity(f.packet.repository, f.packet.workstream, f.packet.revision, o.cls, subject));
    var next := s.(identity := Some(identity), digest := Some(OrElse(s.digest, digest)), name := Some(name), key := Some(key),
                   transitionAt := Some(OrElse(s.transitionAt, o.at)));
    Evaluated(r, name, key, false, Dedup, s.nextCheck, next)
  }

  /** A watch whose identity no longer matches the packet is closed under its old identity. */
  function CloseStale(o: Observation, s: State, subject: Option<string>): Evaluation {
    var p := o.facts.packet;
    var id := OrElse(s.identity, Identity(p.repository, p.workstream, OrElse(o.revision, p.revision), o.cls, subject));
    var e := Emit(o, s, id.subject, CloseWatch, StaleWatch, StaleDigest, true, NotSuppressed, None, false, true);
    e.(next := e.next.(identity := Some(id)))
  }

  function MapDecision(o: Observation, s: State, d: Decision, subject: Option<string>): Evaluation {
    var f := o.facts;
    var digest := ObservationDigest(f, d);
    var same := s.digest == Some(digest);
    var sameDecision := s.name == Some(By(d));
    if d.NoopComplete? || f.packet.status.Complete? then
      Emit(o, s, subject, CloseWatch, By(d), digest, true, NotSuppressed, None, false, true)
    else match d
      case ReconcileAmbiguous =>
        var duplicate := s.key == Some(NotificationKey(f, BlockReconciliation, subject, By(d)));
        Emit(o, s, subject, BlockReconciliation, By(d), digest, !duplicate, if duplicate then Dedup else NotSuppressed,
             None, false, false)
      case BlockHuman =>
        if s.key == Some(NotificationKey(f, NotifyOwner, subject, By(d))) then
          Emit(o, s, subject, NoChange, By(d), digest, false, Dedup, NextCheck(o, s, true), true, false)
        else
          Emit(o, s, subject, NotifyOwner, By(d), digest, true, NotSuppressed, None, false, false)
      case ResumeWorker =>
        if !o.cls.WorkerProgressOrYield? then
          Emit(o, s, subject, BlockReconciliation, OutOfScope, digest, false, NotSuppressed, None, false, false)
        else if !ResumeAllowed(f) then
          Emit(o, s, subject, RecheckLater, By(d), digest, false, if same then IdenticalWait else QuietWait,
               NextCheck(o, s, same), same, false)
        else if sameDecision && same then
          Emit(o, s, subject, NoChange, By(d), digest, false, Dedup, NextCheck(o, s, true), true, false)
        else
          Emit(o, s, subject, ResumeAdmittedWorker, By(d), digest, false, NotSuppressed, NextCheck(o, s, false), false, false)
      case YieldResource | WaitExternal | WaitExactHeadCi | NoopPaused =>
        Emit(o, s, subject, RecheckLater, By(d), digest, false, if same then IdenticalWait else QuietWait,
             NextCheck(o, s, same), same, false)
      case _ =>
        if sameDecision then
          Emit(o, s, subject, NoChange, By(d), digest, false, Dedup, NextCheck(o, s, true), true, false)
        else
          Emit(o, s, subject, WakeCoordinator, By(d), digest, true, NotSuppressed, NextCheck(o, s, false), false, false)
  }

  predicate IsStale(o: Observation, s: State) {
    || (s.identity.Some? && s.identity.value.revision != o.facts.packet.revision)
    || (o.revision.Some? && o.revision.value != o.facts.packet.revision)
    || (s.identity.Some? && s.identity.value.subject != SubjectVersion(o.facts))
  }

  /** The decision an observation that is neither stale nor older is mapped from. */
  function DecisionFor(o: Observation, s: State): Decision {
    if o.facts.ambiguous || o.facts.failure.cls.AmbiguousMutation? then ReconcileAmbiguous
    else Plan(BindTransientRetry(o.facts, s))
  }

  /** Why an observation is refused before it is looked at, if it is. */
  function Refusal(o: Observation, s: State): Option<Error> {
    var p := o.facts.packet;
    if o.subject.Some? && o.subject.value != SubjectVersion(o.facts) then Some(SubjectOverride)
    else if s.identity.Some? &&
            (s.identity.value.repository != p.repository || s.identity.value.workstream != p.workstream) then
      Some(IdentityMismatch)
    else if s.identity.Some? && s.identity.value.cls != o.cls then Some(ClassMismatch)
    else if !s.closed && !IsStale(o, s) && Older(o, s) && (s.name.None? || s.digest.None? || s.key.None?) then
      Some(IncompleteState)
    else None
  }

  function Evaluate(o: Observation, s: State): Evaluation {
    var subject := SubjectVersion(o.facts);
    if Refusal(o, s).Some? then Rejected(Refusal(o, s).value)
    else if s.closed then
      EmitPreserving(o, s, if s.identity.Some? then s.identity.value.subject else subject, CloseWatch, ClosedName, ClosedDigest)
    else if IsStale(o, s) then CloseStale(o, s, subject)
    else if Older(o, s) then EmitPreserving(o, s, subject, NoChange, s.name.value, s.digest.value)
    else MapDecision(o, s, DecisionFor(o, s), subject)
  }

  /** An observation that is mapped from a planner decision. */
  ghost predicate Accepts(s: State, o: Observation) {
    Refusal(o, s).None? && !s.closed && !IsStale(o, s) && !Older(o, s)
  }

  /** The durable state after one observation; a refused one changes nothing. */
  function Step(s: State, o: Observation): State {
    var e := Evaluate(o, s);
    if e.Evaluated? then e.next else s
  }

  function Run(s: State, os: seq<Observation>): State
    decreases |os|
  {
    if os == [] then s else Run(Step(s, os[0]), os[1..])
  }

  function Results(s: State, os: seq<Observation>): seq<Evaluation>
    decreases |os|
  {
    if os == [] then [] else [Evaluate(os[0], s)] + Results(Step(s, os[0]), os[1..])
  }

  // ------------------------------------------------------------ reachable states

  /** What every state reached from the empty one satisfies. */
  ghost predicate Reachable(s: State) {
    || s == EMPTY
    || (&& s.identity.Some? && s.digest.Some? && s.name.Some? && s.key.Some?
        && s.transitionAt.Some? && s.observedAt.Some?
        && s.transitionAt.value <= s.observedAt.value
        && (s.closed ==> s.nextCheck.None?)
        && (s.nextCheck.Some? ==>
              && BASE_RECHECK_SECONDS <= s.nextCheck.value - s.observedAt.value <= MAX_RECHECK_SECONDS))
  }

  lemma {:induction false} BackoffIsBounded(s: State, same: bool)
    requires Reachable(s)
    ensures BASE_RECHECK_SECONDS <= BackoffSeconds(s, same) <= MAX_RECHECK_SECONDS
  {
  }

  lemma {:induction false} DecisionKeepsReachable(s: State, o: Observation, d: Decision, subject: Option<string>)
    requires Reachable(s) && !s.closed && !Older(o, s)
    ensures Reachable(MapDecision(o, s, d, subject).next)
  {
    BackoffIsBounded(s, true);
  }

  lemma {:induction false} StepKeepsReachable(s: State, o: Observation)
    requires Reachable(s)
    ensures Reachable(Step(s, o))
  {
    if Accepts(s, o) {
      DecisionKeepsReachable(s, o, DecisionFor(o, s), SubjectVersion(o.facts));
    }
  }

  lemma {:induction false} RunKeepsReachable(s: State, os: seq<Observation>)
    requires Reachable(s)
    ensures Reachable(Run(s, os))
    decreases |os|
  {
    if os != [] {
      StepKeepsReachable(s, os[0]);
      RunKeepsReachable(Step(s, os[0]), os[1..]);
    }
  }

  lemma {:induction false} StoresWhatItReports(o: Observation, s: State)
    ensures var e := Evaluate(o, s);
            e.Evaluated? ==>
              && e.nextCheck == e.next.nextCheck
              && (s.closed || e.next.observedAt == Some(o.at) || (!IsStale(o, s) && Older(o, s)))
              && (s.closed ==> e.next.closed)
  {
  }

  /** A recheck scheduled anywhere in a run lies 300 to 3600 seconds after the observation
      that scheduled it. */
  lemma {:induction false} RechecksAreBounded(os: seq<Observation>, o: Observation)
    ensures var s := Run(EMPTY, os);
            var e := Evaluate(o, s);
            e.Evaluated? && e.nextCheck.Some? && !(!IsStale(o, s) && Older(o, s)) ==>
              BASE_RECHECK_SECONDS <= e.nextCheck.value - o.at <= MAX_RECHECK_SECONDS
  {
    RunKeepsReachable(EMPTY, os);
    StepKeepsReachable(Run(EMPTY, os), o);
    StoresWhatItReports(o, Run(EMPTY, os));
  }

  // -------------------------------------------------------------------- absorption

  /** A closed watch stays exactly as it is, whatever is observed afterwards. */
  lemma {:induction false} ClosedIsAbsorbing(s: State, os: seq<Observation>)
    requires Reachable(s) && s.closed
    ensures Run(s, os) == s
    decreases |os|
  {
    if os != [] {
      assert Step(s, os[0]) == s;
      ClosedIsAbsorbing(s, os[1..]);
    }
  }

  /** What an observation can do to an open watch: an older one and a refused one leave it
      alone, a stale one closes it, and only an accepted one moves its clock, forward. */
  lemma {:induction false} OpenWatchMovesForward(s: State, o: Observation)
    requires Reachable(s) && !s.closed
    ensures !IsStale(o, s) && Older(o, s) ==> Step(s, o) == s
    ensures IsStale(o, s) && Refusal(o, s).None? ==> Step(s, o).closed
    ensures Step(s, o) != s ==> Step(s, o).observedAt == Some(o.at)
    ensures s.observedAt.Some? && !Step(s, o).closed ==>
              Step(s, o).observedAt.Some? && s.observedAt.value <= Step(s, o).observedAt.value
  {
  }

  /** Along a run that ends open, accepted time never goes back. */
  lemma {:induction false} AcceptedTimeIsMonotone(s: State, os: seq<Observation>)
    requires Reachable(s) && !Run(s, os).closed && s.observedAt.Some?
    ensures Run(s, os).observedAt.Some? && s.observedAt.value <= Run(s, os).observedAt.value
    decreases |os|
  {
    if os != [] {
      var s' := Step(s, os[0]);
      if s.closed { ClosedIsAbsorbing(s, os); }
      StepKeepsReachable(s, os[0]);
      if s'.closed { ClosedIsAbsorbing(s', os[1..]); }
      OpenWatchMovesForward(s, os[0]);
      AcceptedTimeIsMonotone(s', os[1..]);
    }
  }

  // ---------------------------------------------------------------------- back-off

  function Doubled(n: nat): (seconds: int)
    ensures BASE_RECHECK_SECONDS <= seconds <= MAX_RECHECK_SECONDS
  {
    if n == 0 then BASE_RECHECK_SECONDS else Min(2 * Doubled(n - 1), MAX_RECHECK_SECONDS)
  }

  const WAITING_DECISIONS: set<Decision> := {YieldResource, WaitExternal, WaitExactHeadCi, NoopPaused}

  /** A run of rechecks of one unchanged observation: each one is accepted, decides to wait, and
      has the same digest as the one before. */
  ghost predicate UnchangedWaits(s: State, os: seq<Observation>)
    decreases |os|
  {
    os != [] ==>
      && Accepts(s, os[0])
      && DecisionFor(os[0], s) in WAITING_DECISIONS && os[0].facts.packet.status != Complete
      && s.digest == Some(ObservationDigest(os[0].facts, DecisionFor(os[0], s)))
      && UnchangedWaits(Step(s, os[0]), os[1..])
  }

  lemma {:induction false} UnchangedWaitDoubles(s: State, o: Observation)
    requires s.transitionAt.Some? && s.nextCheck.Some? && s.transitionAt.value < s.nextCheck.value
    requires Accepts(s, o) && DecisionFor(o, s) in WAITING_DECISIONS && o.facts.packet.status != Complete
    requires s.digest == Some(ObservationDigest(o.facts, DecisionFor(o, s)))
    ensures var s' := Step(s, o);
            && s'.transitionAt == Some(o.at)
            && s'.nextCheck == Some(o.at + Min(2 * (s.nextCheck.value - s.transitionAt.value), MAX_RECHECK_SECONDS))
  {
  }

  /** From a first recheck, n unchanged ones double the delay n times, up to the cap. */
  lemma {:induction false} UnchangedWaitsDouble(s: State, os: seq<Observation>, n: nat)
    requires s.transitionAt.Some? && s.nextCheck == Some(s.transitionAt.value + Doubled(n))
    requires UnchangedWaits(s, os)
    ensures var s' := Run(s, os);
            s'.transitionAt.Some? && s'.nextCheck == Some(s'.transitionAt.value + Doubled(n + |os|))
    decreases |os|
  {
    if os != [] {
      UnchangedWaitDoubles(s, os[0]);
      UnchangedWaitsDouble(Step(s, os[0]), os[1..], n + 1);
    }
  }

  // ------------------------------------------------------------- the typed actions

  predicate IsTyped(r: Result) {
    r in {WakeCoordinator, ResumeAdmittedWorker, NotifyOwner}
  }

  const WAKE_DECISIONS: set<Decision> :=
    {AdmitImplementation, AuditDirtyTree, AuthorizePublication, AuditReview, MergeReady, ReplanSemanticFailure, StaleWorker}

  /** Only nine pairs of a typed result and a decision exist. */
  predicate TypedPair(r: Result, n: Name) {
    || (r == WakeCoordinator && n.By? && n.d in WAKE_DECISIONS)
    || (r == ResumeAdmittedWorker && n == By(ResumeWorker))
    || (r == NotifyOwner && n == By(BlockHuman))
  }

  /** A typed action is one of nine, names the packet it was observed on, and is never the
      repetition of what the state already records. */
  lemma {:induction false} TypedActionsAreNewAndNamed(s: State, o: Observation)
    ensures var e := Evaluate(o, s);
            e.Evaluated? && IsTyped(e.result) ==>
              && TypedPair(e.result, e.name)
              && e.key == NotificationKey(o.facts, e.result, SubjectVersion(o.facts), e.name)
              && e.name == By(DecisionFor(o, s))
              && (e.result == WakeCoordinator ==> s.name != Some(e.name))
              && (e.result == NotifyOwner ==> s.key != Some(e.key))
              && (e.result == ResumeAdmittedWorker ==>
                    !(s.name == Some(e.name) && s.digest == Some(ObservationDigest(o.facts, ResumeWorker))))
  {
  }

  /** A worker is resumed only through its own watch class, on the packet's revision, with
      progress, and with resource and admission both positively allowing it. */
  lemma {:induction false} ResumeNeedsEveryPermission(s: State, o: Observation)
    ensures var e := Evaluate(o, s);
            e.Evaluated? && e.result == ResumeAdmittedWorker ==>
              && o.cls == WorkerProgressOrYield
              && Unobstructed(BindTransientRetry(o.facts, s)) && ActiveWorker(o.facts) && o.facts.worker.progress
              && o.facts.resource in {ResourcePass, ResourceWarn}
              && o.facts.admission.decision == AdmissionAllow
              && !IsStale(o, s)
  {
    ResumeMeansProgressOnThisRevision(BindTransientRetry(o.facts, s));
  }

  // ---------------------------------------------------- what leads to each of the results

  /** The observation names a subject of its own that is not the coordinator's. */
  ghost predicate Misnamed(o: Observation) {
    o.subject.Some? && o.subject.value != SubjectVersion(o.facts)
  }

  /** The state is of another repository, workstream or class. */
  ghost predicate Foreign(s: State, o: Observation) {
    s.identity.Some? &&
      (|| s.identity.value.repository != o.facts.packet.repository
       || s.identity.value.workstream != o.facts.packet.workstream || s.identity.value.cls != o.cls)
  }

  /** The state, or the observation itself, is of another revision, or the subject has changed. */
  ghost predicate Outdated(s: State, o: Observation) {
    || (s.identity.Some? && s.identity.value.revision != o.facts.packet.revision)
    || (o.revision.Some? && o.revision.value != o.facts.packet.revision)
    || (s.identity.Some? && s.identity.value.subject != SubjectVersion(o.facts))
  }

  /** The observation is older than the latest accepted one, or than the last transition if none is noted. */
  ghost predicate Late(s: State, o: Observation) {
    || (s.observedAt.Some? && o.at < s.observedAt.value)
    || (s.observedAt.None? && s.transitionAt.Some? && o.at < s.transitionAt.value)
  }

  ghost predicate Refused(s: State, o: Observation) {
    || Misnamed(o) || Foreign(s, o)
    || (!s.closed && !Outdated(s, o) && Late(s, o) && (s.name.None? || s.digest.None? || s.key.None?))
  }

  ghost predicate Timely(s: State, o: Observation) {
    !Misnamed(o) && !Foreign(s, o) && !s.closed && !Outdated(s, o) && !Late(s, o)
  }

  /** The facts, with the larger of the two transient retry counts. */
  ghost predicate Counted(f: Facts, failures: nat, g: Facts) {
    && g == f.(wait := f.wait.(retryCount := g.wait.retryCount))
    && (if f.failure.cls == Transient
        then g.wait.retryCount >= failures && g.wait.retryCount >= f.wait.retryCount && g.wait.retryCount in {failures, f.wait.retryCount}
        else g == f)
  }

  /** The decision the facts call for; an ambiguous mutation comes first whatever the packet's status. */
  ghost predicate Decides(s: State, o: Observation, d: Decision) {
    if o.facts.ambiguous || o.facts.failure.cls == AmbiguousMutation then d == ReconcileAmbiguous
    else exists g :: Counted(o.facts, s.failures, g) && CallsFor(g, d)
  }

  lemma {:induction false} DecidesOne(s: State, o: Observation, d: Decision)
    ensures Decides(s, o, d) <==> DecisionFor(o, s) == d
  {
    var g := BindTransientRetry(o.facts, s);
    assert Counted(o.facts, s.failures, g);
    PlanIsCalledFor(g, d);
    forall h | Counted(o.facts, s.failures, h) ensures h == g {}
  }

  /** A worker's own watch, with progress on this revision, and resource and admission allowing it. */
  ghost predicate MayResume(o: Observation) {
    && o.facts.worker.Worker? && o.facts.worker.progress && o.facts.worker.startingRevision == o.facts.packet.revision
    && o.facts.resource in {ResourcePass, ResourceWarn} && o.facts.admission.decision == AdmissionAllow
  }

  ghost function KeyFor(o: Observation, r: Result, n: Name): Key {
    var p := o.facts.packet;
    Key(p.repository, p.workstream, p.revision, r, n, SubjectVersion(o.facts))
  }

  ghost predicate SameDigest(s: State, o: Observation, d: Decision) {
    s.digest == Some(ObservationDigest(o.facts, d))
  }

  /** Deciding d now is no news. */
  ghost predicate Repeats(s: State, o: Observation, d: Decision) {
    || (d == BlockHuman && s.key == Some(KeyFor(o, NotifyOwner, By(BlockHuman))))
    || (d == ResumeWorker && o.cls == WorkerProgressOrYield && MayResume(o) && s.name == Some(By(d)) && SameDigest(s, o, d))
    || (d in WAKE_DECISIONS && s.name == Some(By(d)))
  }

  /** The situations that lead to each result, when the facts call for d. */
  ghost predicate Earns(s: State, o: Observation, d: Decision, r: Result) {
    match r
    case CloseWatch => !Refused(s, o) && (s.closed || Outdated(s, o) || (Timely(s, o) && o.facts.packet.status == Complete))
    case NoChange =>
      || (!Refused(s, o) && !s.closed && !Outdated(s, o) && Late(s, o))
      || (Timely(s, o) && o.facts.packet.status != Complete && Repeats(s, o, d))
    case BlockReconciliation =>
      && Timely(s, o) && o.facts.packet.status != Complete
      && (d == ReconcileAmbiguous || (d == ResumeWorker && o.cls != WorkerProgressOrYield))
    case RecheckLater =>
      && Timely(s, o) && o.facts.packet.status != Complete
      && (d in WAITING_DECISIONS || (d == ResumeWorker && o.cls == WorkerProgressOrYield && !MayResume(o)))
    case NotifyOwner => Timely(s, o) && o.facts.packet.status != Complete && d == BlockHuman && !Repeats(s, o, d)
    case WakeCoordinator => Timely(s, o) && o.facts.packet.status != Complete && d in WAKE_DECISIONS && !Repeats(s, o, d)
    case ResumeAdmittedWorker =>
      && Timely(s, o) && o.facts.packet.status != Complete
      && d == ResumeWorker && o.cls == WorkerProgressOrYield && MayResume(o) && !Repeats(s, o, d)
  }

  /** What is sent: a watch being closed, a waking, an owner's notice, and the first word of an
      ambiguous mutation. */
  ghost predicate Speaks(s: State, o: Observation, d: Decision) {
    || (Earns(s, o, d, CloseWatch) && !s.closed)
    || Earns(s, o, d, WakeCoordinator) || Earns(s, o, d, NotifyOwner)
    || (&& Timely(s, o) && o.facts.packet.status != Complete && d == ReconcileAmbiguous
        && s.key != Some(KeyFor(o, BlockReconciliation, By(ReconcileAmbiguous))))
  }

  /** Twice the last delay, up to the cap; or the base delay when there was none. */
  ghost function LongerWait(s: State): int {
    if s.nextCheck.None? || s.transitionAt.None? || s.nextCheck.value <= s.transitionAt.value then BASE_RECHECK_SECONDS
    else if 2 * (s.nextCheck.value - s.transitionAt.value) <= MAX_RECHECK_SECONDS then 2 * (s.nextCheck.value - s.transitionAt.value)
    else MAX_RECHECK_SECONDS
  }

  /** When the watch is looked at again, if it is. */
  ghost function LooksAgain(s: State, o: Observation, d: Decision, r: Result): Option<int> {
    if s.closed || (Late(s, o) && !Outdated(s, o)) then s.nextCheck
    else match r
      case CloseWatch => None
      case BlockReconciliation => None
      case NotifyOwner => None
      case NoChange => Some(o.at + LongerWait(s))
      case RecheckLater => Some(o.at + if SameDigest(s, o, d) then LongerWait(s) else BASE_RECHECK_SECONDS)
      case WakeCoordinator => Some(o.at + BASE_RECHECK_SECONDS)
      case ResumeAdmittedWorker => Some(o.at + BASE_RECHECK_SECONDS)
  }

  lemma {:induction false} RefusedIff(s: State, o: Observation)
    ensures Evaluate(o, s).Rejected? <==> Refused(s, o)
    ensures Accepts(s, o) <==> Timely(s, o)
    ensures Late(s, o) <==> Older(o, s)
    ensures Outdated(s, o) <==> IsStale(o, s)
  {
  }

  lemma {:induction false} MappedIsEarned(s: State, o: Observation, d: Decision, r: Result)
    requires Timely(s, o) && DecisionFor(o, s) == d
    ensures MapDecision(o, s, d, SubjectVersion(o.facts)).result == r <==> Earns(s, o, d, r)
  {
    assert d == NoopComplete ==> o.facts.packet.status == Complete;
  }

  /** A result is given if and only if it is earned. */
  lemma {:induction false} ResultIsEarned(s: State, o: Observation, d: Decision, r: Result)
    requires Decides(s, o, d)
    ensures Evaluate(o, s).Rejected? <==> Refused(s, o)
    ensures Evaluate(o, s).Evaluated? && Evaluate(o, s).result == r <==> Earns(s, o, d, r)
  {
    DecidesOne(s, o, d);
    RefusedIff(s, o);
    if Timely(s, o) { MappedIsEarned(s, o, d, r); }
  }

  lemma {:induction false} MappedSpeaks(s: State, o: Observation, d: Decision)
    requires Timely(s, o) && DecisionFor(o, s) == d
    ensures MapDecision(o, s, d, SubjectVersion(o.facts)).send <==> Speaks(s, o, d)
  {
    assert d == NoopComplete ==> o.facts.packet.status == Complete;
  }

  lemma {:induction false} MappedLooksAgain(s: State, o: Observation, d: Decision)
    requires Timely(s, o)
    ensures var e := MapDecision(o, s, d, SubjectVersion(o.facts)); e.nextCheck == LooksAgain(s, o, d, e.result)
  {
  }

  /** It is sent exactly when it has something to say, and the next check is where it belongs. */
  lemma {:induction false} ResultSpeaks(s: State, o: Observation, d: Decision)
    requires Decides(s, o, d) && !Refused(s, o)
    ensures Evaluate(o, s).Evaluated?
    ensures Evaluate(o, s).send <==> Speaks(s, o, d)
    ensures Evaluate(o, s).nextCheck == LooksAgain(s, o, d, Evaluate(o, s).result)
  {
    DecidesOne(s, o, d);
    RefusedIff(s, o);
    if Timely(s, o) {
      MappedSpeaks(s, o, d);
      MappedLooksAgain(s, o, d);
    }
  }

  /** What an observation that is taken in leaves behind. */
  lemma {:induction false} TakenIn(s: State, o: Observation, d: Decision)
    requires Decides(s, o, d) && Timely(s, o)
    ensures var e, p := Evaluate(o, s), o.facts.packet;
            && e.Evaluated? && e.next == Step(s, o)
            && e.name == (if e.result == BlockReconciliation && d == ResumeWorker then OutOfScope else By(d))
            && e.key == (if e.result == NoChange && s.key.Some? then s.key.value else KeyFor(o, e.result, e.name))
            && e.next == State(
                 Some(Identity(p.repository, p.workstream, p.revision, o.cls, SubjectVersion(o.facts))),
                 Some(ObservationDigest(o.facts, d)), Some(e.name), Some(e.key),
                 if e.result == NoChange && s.transitionAt.Some? then s.transitionAt else Some(o.at), Some(o.at),
                 if o.facts.failure.cls == Transient then s.failures + 1 else 0,
                 e.nextCheck, o.facts.packet.status == Complete)
  {
    DecidesOne(s, o, d);
    RefusedIff(s, o);
    assert d == NoopComplete ==> o.facts.packet.status == Complete;
  }

  /** What any other observation leaves behind: a closed watch and an older observation nothing
      new, an outdated one a closed watch under its old identity. */
  lemma {:induction false} LeftAlone(s: State, o: Observation)
    requires Reachable(s) && !Timely(s, o)
    ensures Refused(s, o) || s.closed || !Outdated(s, o) ==> Step(s, o) == s
    ensures !Refused(s, o) && !s.closed && Outdated(s, o) ==>
              var next, p := Step(s, o), o.facts.packet;
              && next.closed && next.nextCheck == None && next.observedAt == Some(o.at)
              && next.name == Some(StaleWatch)
              && next.identity == (if s.identity.Some? then s.identity
                                   else Some(Identity(p.repository, p.workstream, o.revision.value, o.cls, SubjectVersion(o.facts))))
  {
    RefusedIff(s, o);
  }

  /** An observation that decides to wait gives a recheck, quietly, 300 to 3600 seconds later. */
  lemma {:induction false} WaitingIsQuiet(s: State, o: Observation, d: Decision)
    requires Reachable(s) && Decides(s, o, d) && Timely(s, o) && d in WAITING_DECISIONS && o.facts.packet.status != Complete
    ensures var e := Evaluate(o, s);
            && e.Evaluated? && e.result == RecheckLater && !e.send && !e.next.closed
            && e.nextCheck.Some? && BASE_RECHECK_SECONDS <= e.nextCheck.value - o.at <= MAX_RECHECK_SECONDS
  {
    ResultIsEarned(s, o, d, RecheckLater);
    WaitsAreQuiet(s, o, d);
    ResultSpeaks(s, o, d);
    TakenIn(s, o, d);
    LongerWaitIsBounded(s);
  }

  lemma {:induction false} WaitsAreQuiet(s: State, o: Observation, d: Decision)
    requires Timely(s, o) && d in WAITING_DECISIONS && o.facts.packet.status != Complete
    ensures !Speaks(s, o, d) && Earns(s, o, d, RecheckLater)
  {
  }

  lemma {:induction false} LongerWaitIsBounded(s: State)
    requires Reachable(s)
    ensures BASE_RECHECK_SECONDS <= LongerWait(s) <= MAX_RECHECK_SECONDS
  {
  }

  /** Two observations have one digest exactly if they decide alike on the same material facts. */
  lemma {:induction false} DigestMeans(f: Facts, d: Decision, g: Facts, e: Decision)
    ensures ObservationDigest(f, d) == ObservationDigest(g, e) <==>
              && d == e && f.admission == g.admission && f.ci == g.ci && f.packet.revision == g.packet.revision
              && f.packet.status == g.packet.status && f.ambiguous == g.ambiguous && PrHead(f) == PrHead(g)
              && f.resource == g.resource && f.review.actionable == g.review.actionable && f.review.state == g.review.state
              && f.review.head == g.review.head && f.worker == g.worker
  {
  }

  function Count(es: seq<Evaluation>, r: Result): nat {
    if es == [] then 0 else (if es[0].Evaluated? && es[0].result == r then 1 else 0) + Count(es[1..], r)
  }

  /** Every observation is accepted and decides d. */
  ghost predicate Deciding(s: State, os: seq<Observation>, d: Decision)
    decreases |os|
  {
    os != [] ==>
      && Accepts(s, os[0]) && !os[0].facts.packet.status.Complete?
      && DecisionFor(os[0], s) == d
      && Deciding(Step(s, os[0]), os[1..], d)
  }

  lemma {:induction false} WakeStep(s: State, o: Observation, d: Decision)
    requires d in WAKE_DECISIONS && Accepts(s, o) && !o.facts.packet.status.Complete? && DecisionFor(o, s) == d
    ensures Step(s, o).name == Some(By(d))
    ensures Evaluate(o, s).Evaluated?
    ensures Evaluate(o, s).result == WakeCoordinator <==> s.name != Some(By(d))
  {
  }

  /** While one waking decision lasts, the coordinator is woken once, at its first sight. */
  lemma {:induction false} OneWakePerDecision(s: State, os: seq<Observation>, d: Decision)
    requires d in WAKE_DECISIONS && Deciding(s, os, d)
    ensures Count(Results(s, os), WakeCoordinator) == (if os != [] && s.name != Some(By(d)) then 1 else 0)
    decreases |os|
  {
    if os != [] {
      var s' := Step(s, os[0]);
      WakeStep(s, os[0], d);
      OneWakePerDecision(s', os[1..], d);
      assert Results(s, os)[1..] == Results(s', os[1..]);
    }
  }

  // -------------------------------------------------------------- the retry budget

  /** Transient, and nothing ranked earlier decides. */
  ghost predicate TransientOnly(f: Facts) {
    && f.packet.status == Active && !f.ambiguous && f.failure.cls == Transient
    && !IsStaleWorker(f) && f.failure.identicalSemantic < 2
    && !f.resource.ResourceBlock? && !(f.admission.decision.AdmissionDeny? && f.admission.denyClass == "HOST_BUDGET")
  }

  /** An observation of that watch; a subject or revision it names itself is the watch's own. */
  ghost predicate SameWatch(o: Observation, id: Identity) {
    && o.cls == id.cls
    && (o.subject.Some? ==> o.subject.value == id.subject)
    && (o.revision.Some? ==> o.revision.value == id.revision)
    && o.facts.packet.repository == id.repository && o.facts.packet.workstream == id.workstream
    && o.facts.packet.revision == id.revision && SubjectVersion(o.facts) == id.subject
  }

  /** A streak: transient observations of one watch, in time order, with one budget. */
  ghost predicate Streak(id: Identity, os: seq<Observation>, budget: nat) {
    && (forall i :: 0 <= i < |os| ==>
          SameWatch(os[i], id) && TransientOnly(os[i].facts) && os[i].facts.wait.retryBudget == budget)
    && (forall i, j :: 0 <= i < j < |os| ==> os[i].at <= os[j].at)
  }

  /** An open state of that watch from which the first observation is accepted. */
  ghost predicate StartsStreak(s: State, id: Identity, os: seq<Observation>) {
    && !s.closed && (s.identity.None? || s.identity.value == id)
    && (os != [] ==> !Older(os[0], s))
  }

  /** The budget is used up at the first observation, seen after `failures` earlier ones. */
  predicate Exhausted(failures: nat, o: Observation) {
    o.facts.wait.retryBudget <= Max(failures, o.facts.wait.retryCount)
  }

  function Flags(failures: nat, os: seq<Observation>): (r: seq<bool>)
    ensures |r| == |os|
    ensures forall i :: 0 <= i < |os| ==> r[i] == Exhausted(failures + i, os[i])
    decreases |os|
  {
    if os == [] then [] else [Exhausted(failures, os[0])] + Flags(failures + 1, os[1..])
  }

  /** How often a flag turns on, the one before the sequence being `before`. */
  function Rises(before: bool, flags: seq<bool>): nat
    decreases |flags|
  {
    if flags == [] then 0 else (if flags[0] && !before then 1 else 0) + Rises(flags[0], flags[1..])
  }

  function OwnerKey(id: Identity): Key {
    Key(id.repository, id.workstream, id.revision, NotifyOwner, By(BlockHuman), id.subject)
  }

  lemma {:induction false} StreakStep(s: State, id: Identity, os: seq<Observation>, budget: nat)
    requires os != [] && Streak(id, os, budget) && StartsStreak(s, id, os)
    ensures var e := Evaluate(os[0], s);
            && e.Evaluated? && e.next == Step(s, os[0])
            && e.next.failures == s.failures + 1
            && (e.result == NotifyOwner <==> Exhausted(s.failures, os[0]) && s.key != Some(OwnerKey(id)))
            && (e.next.key == Some(OwnerKey(id)) <==> Exhausted(s.failures, os[0]))
            && StartsStreak(e.next, id, os[1..])
            && Streak(id, os[1..], budget)
  {
  }

  /** In a streak the owner is notified exactly when the budget becomes exhausted. */
  lemma {:induction false} StreakNotifiesOnRises(s: State, id: Identity, os: seq<Observation>, budget: nat)
    requires Streak(id, os, budget) && StartsStreak(s, id, os)
    ensures Count(Results(s, os), NotifyOwner) == Rises(s.key == Some(OwnerKey(id)), Flags(s.failures, os))
    decreases |os|
  {
    if os != [] {
      StreakStep(s, id, os, budget);
      var s' := Step(s, os[0]);
      StreakNotifiesOnRises(s', id, os[1..], budget);
      assert Results(s, os)[1..] == Results(s', os[1..]);
      assert Flags(s.failures, os)[1..] == Flags(s.failures + 1, os[1..]);
    }
  }

  lemma {:induction false} RisesPositive(before: bool, flags: seq<bool>, k: nat)
    requires !before && k < |flags| && flags[k]
    ensures Rises(before, flags) >= 1
    decreases |flags|
  {
    if !flags[0] {
      RisesPositive(false, flags[1..], k - 1);
    }
  }

  ghost predicate StaysOn(flags: seq<bool>) {
    forall i, j :: 0 <= i < j < |flags| && flags[i] ==> flags[j]
  }

  lemma {:induction false} NoRiseWhenOn(flags: seq<bool>)
    requires forall i :: 0 <= i < |flags| ==> flags[i]
    ensures Rises(true, flags) == 0
  {
    if flags != [] { NoRiseWhenOn(flags[1..]); }
  }

  /** A flag that starts off and ends on rises once exactly when it never falls. */
  lemma {:induction false} OneRiseIffStaysOn(flags: seq<bool>)
    requires flags != [] && flags[|flags| - 1]
    ensures Rises(false, flags) == 1 <==> StaysOn(flags)
  {
    var rest := flags[1..];
    if flags[0] {
      if off :| 0 <= off < |flags| && !flags[off] {
        FallsThenRises(rest, off - 1);
        assert flags[0] && !flags[off];
      } else {
        NoRiseWhenOn(rest);
      }
    } else {
      OneRiseIffStaysOn(rest);
      assert StaysOn(rest) <==> StaysOn(flags) by {
        assert forall i :: 0 <= i < |rest| ==> rest[i] == flags[i + 1];
        if StaysOn(rest) {
          forall i, j | 0 <= i < j < |flags| && flags[i] ensures flags[j] { assert rest[i - 1] && rest[j - 1]; }
        }
        if StaysOn(flags) {
          forall i, j | 0 <= i < j < |rest| && rest[i] ensures rest[j] { assert flags[i + 1] && flags[j + 1]; }
        }
      }
    }
  }

  lemma {:induction false} FallsThenRises(flags: seq<bool>, off: nat)
    requires off < |flags| && !flags[off] && flags[|flags| - 1]
    ensures Rises(true, flags) >= 1
  {
    if flags[0] {
      FallsThenRises(flags[1..], off - 1);
    } else {
      RisesPositive(false, flags[1..], |flags| - 2);
    }
  }

  lemma {:induction false} FreshStreakCountsRises(s: State, id: Identity, os: seq<Observation>, budget: nat)
    requires Streak(id, os, budget) && StartsStreak(s, id, os)
    requires os != [] && !Exhausted(s.failures, os[0])
    ensures Count(Results(s, os), NotifyOwner) == Rises(false, Flags(s.failures, os))
  {
    StreakNotifiesOnRises(s, id, os, budget);
    assert !Flags(s.failures, os)[0];
  }

  /** Once the supplied retry count has reached the budget, no later observation of the
      streak supplies a smaller one while the watch's own count is still below it. */
  ghost predicate SuppliedCountsHold(failures: nat, os: seq<Observation>) {
    StaysOn(Flags(failures, os))
  }

  /** The retry budget.  If the first observation is within budget, the owner is notified
      no later than observation budget + 1; and exactly once in the streak if and only if
      exhaustion, once supplied, is not taken back by a later supplied count. */
  lemma {:induction false} RetryBudgetNotifiesTheOwner(s: State, id: Identity, os: seq<Observation>, budget: nat)
    requires Streak(id, os, budget) && StartsStreak(s, id, os)
    requires |os| > budget && !Exhausted(s.failures, os[0])
    ensures Count(Results(s, os[..budget + 1]), NotifyOwner) >= 1
    ensures Count(Results(s, os), NotifyOwner) == 1 <==> SuppliedCountsHold(s.failures, os)
  {
    NotifiedInTime(s, id, os[..budget + 1], budget);
    NotifiedOnceIffHeld(s, id, os, budget);
  }

  lemma {:induction false} NotifiedInTime(s: State, id: Identity, os: seq<Observation>, budget: nat)
    requires Streak(id, os, budget) && StartsStreak(s, id, os)
    requires |os| == budget + 1 && !Exhausted(s.failures, os[0])
    ensures Count(Results(s, os), NotifyOwner) >= 1
  {
    FreshStreakCountsRises(s, id, os, budget);
    RisesPositive(false, Flags(s.failures, os), budget);
  }

  lemma {:induction false} NotifiedOnceIffHeld(s: State, id: Identity, os: seq<Observation>, budget: nat)
    requires Streak(id, os, budget) && StartsStreak(s, id, os)
    requires |os| > budget && !Exhausted(s.failures, os[0])
    ensures Count(Results(s, os), NotifyOwner) == 1 <==> SuppliedCountsHold(s.failures, os)
  {
    FreshStreakCountsRises(s, id, os, budget);
    OneRiseIffStaysOn(Flags(s.failures, os));
  }

  /** The host's collector always supplies a retry count of zero, so it gets exactly one. */
  lemma {:induction false} CollectorStreakNotifiesOnce(s: State, id: Identity, os: seq<Observation>, budget: nat)
    requires Streak(id, os, budget) && StartsStreak(s, id, os)
    requires |os| > budget && !Exhausted(s.failures, os[0])
    requires forall i :: 0 <= i < |os| ==> os[i].facts.wait.retryCount == 0
    ensures Count(Results(s, os), NotifyOwner) == 1
  {
    RetryBudgetNotifiesTheOwner(s, id, os, budget);
    var flags := Flags(s.failures, os);
    forall i, j | 0 <= i < j < |flags| && flags[i] ensures flags[j] {
      assert Exhausted(s.failures + i, os[i]);
    }
  }

  function TransientAt(at: int, retryCount: nat): Observation {
    Observation(ExactHeadCi, at, None, None,
      Facts(Packet("owner/name", "stream", Active, 1, LowRisk, Some([])), NoWorker,
            Git(UnknownHead, None, None, false), ResourceUnknown, Admission(AdmissionUnknown, ""), false,
            Failure(Transient, 0), Publication(AuditUnknown, None), NoPr, Ci(CiUnknown, UnknownHead),
            Review(None, ReviewUnknown, UnknownHead), Wait(false, retryCount, 3), RolloutNotRequired))
  }

  /** A supplied count that reaches the budget and is then taken back notifies twice. */
  lemma {:induction false} RetractedRetryCountNotifiesTwice()
    ensures var os := [TransientAt(0, 0), TransientAt(1, 3), TransientAt(2, 0), TransientAt(3, 0)];
            Count(Results(EMPTY, os), NotifyOwner) == 2
  {
    var os := [TransientAt(0, 0), TransientAt(1, 3), TransientAt(2, 0), TransientAt(3, 0)];
    var id := Identity("owner/name", "stream", 1, ExactHeadCi, None);
    StreakNotifiesOnRises(EMPTY, id, os, 3);
    var flags := Flags(0, os);
    assert flags == [false, true, false, true];
    assert flags[1..] == [true, false, true] && flags[2..] == [false, true] && flags[3..] == [true];
    assert Rises(false, [true]) == 1;
    assert Rises(true, [false, true]) == 1 by { assert [false, true][1..] == [true]; }
    assert Rises(false, [true, false, true]) == 2 by { assert [true, false, true][1..] == [false, true]; }
  }
}
