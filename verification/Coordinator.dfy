/**
 The Work Packet planner of tools/coordinator.py: typed facts in, one decision out.
 Facts are the result of `normalize_facts`; an absent observation is UNKNOWN or None.
 Reasons, priorities and the planner's own notification fields are not modelled.
 */
module Coordinator {

  import opened Options

  datatype Decision =
    | NoopComplete | NoopPaused | BlockHuman | WaitExternal | ReconcileAmbiguous
    | AdmitImplementation | ResumeWorker | AuditDirtyTree | AuthorizePublication
    | WaitExactHeadCi | AuditReview | MergeReady | ReplanSemanticFailure
    | YieldResource | StaleWorker

  datatype PacketStatus = Active | Paused | Blocked | Complete
  datatype Risk = LowRisk | MediumRisk | HighRisk | CriticalRisk
  datatype Packet = Packet(
    repository: string, workstream: string, status: PacketStatus, revision: nat, risk: Risk,
    dependencies: Option<seq<PacketStatus>>)

  datatype WorkerStatus = Claimed | Working | Waiting | Yielding | Retrying | Done | Abandoned | Superseded | Released
  datatype Worker = NoWorker | Worker(status: WorkerStatus, startingRevision: nat, progress: bool)

  /** A Git head that is UNKNOWN or an exact 40-digit SHA. */
  datatype Head = UnknownHead | Sha(hex: string)
  datatype Git = Git(head: Head, dirty: Option<bool>, unpushed: Option<bool>, yieldedForAudit: bool)

  datatype Resource = ResourcePass | ResourceWarn | ResourceBlock | ResourceUnknown
  datatype AdmissionDecision = AdmissionAllow | AdmissionDeny | AdmissionUnknown
  datatype Admission = Admission(decision: AdmissionDecision, denyClass: string)
  datatype FailureClass =
    | NoFailure | Transient | Semantic | ResourceFailure | AuthorityFailure | AmbiguousMutation | HumanRequired
  datatype Failure = Failure(cls: FailureClass, identicalSemantic: nat)
  datatype Audit = AuditUnknown | AuditPass | AuditFail
  datatype Publication = Publication(audit: Audit, authorizedRevision: Option<nat>)
  datatype PrState = PrOpen | PrMerged | PrClosed
  datatype Mergeable = MergeableYes | MergeableNo | MergeableUnknown
  datatype Pr = NoPr | Pr(state: PrState, head: Head, mergeable: Mergeable)
  datatype CiState = CiUnknown | CiPending | CiPass | CiFail
  datatype Ci = Ci(state: CiState, head: Head)
  datatype ReviewState = ReviewUnknown | ReviewOpen | ReviewClear
  datatype Review = Review(actionable: Option<bool>, state: ReviewState, head: Head)
  datatype Wait = Wait(external: bool, retryCount: nat, retryBudget: nat)
  datatype Rollout = RolloutNotRequired | RolloutPending | RolloutAuthorized

  datatype Facts = Facts(
    packet: Packet, worker: Worker, git: Git, resource: Resource, admission: Admission,
    ambiguous: bool, failure: Failure, publication: Publication, pr: Pr, ci: Ci, review: Review,
    wait: Wait, rollout: Rollout)

  function PrHead(f: Facts): Head {
    if f.pr.Pr? then f.pr.head else UnknownHead
  }

  /** The subject a decision is about: the first known head, or None. */
  function SubjectVersion(f: Facts): Option<string> {
    if PrHead(f).Sha? then Some(PrHead(f).hex)
    else if f.ci.head.Sha? then Some(f.ci.head.hex)
    else if f.git.head.Sha? then Some(f.git.head.hex)
    else None
  }

  predicate LiveStatus(s: WorkerStatus) {
    s in {Claimed, Working, Waiting, Yielding, Retrying}
  }

  predicate ActiveWorker(f: Facts) {
    f.worker.Worker? && LiveStatus(f.worker.status) && f.worker.startingRevision == f.packet.revision
  }

  predicate IsStaleWorker(f: Facts) {
    f.worker.Worker? && LiveStatus(f.worker.status) && f.worker.startingRevision != f.packet.revision
  }

  predicate DependenciesEligible(p: Packet) {
    p.dependencies.Some? && forall d :: d in p.dependencies.value ==> d == Complete
  }

  predicate ResourceBlocked(f: Facts) {
    || f.resource.ResourceBlock?
    || f.failure.cls.ResourceFailure?
    || (f.admission.decision.AdmissionDeny? && f.admission.denyClass == "HOST_BUDGET")
  }

  function AuditOrAuthorize(f: Facts): Decision {
    if f.publication.audit.AuditFail? then ReplanSemanticFailure
    else if f.publication.audit.AuditPass? && f.publication.authorizedRevision == Some(f.packet.revision) then
      AuthorizePublication
    else AuditDirtyTree
  }

  function PrPipeline(f: Facts): Decision
    requires f.pr.Pr?
  {
    if !f.pr.state.PrOpen? then WaitExternal
    else if !(f.git.head.Sha? && f.git.head == f.pr.head) then WaitExactHeadCi
    else
      var ciExact := f.ci.head == f.pr.head;
      if f.ci.state.CiFail? && ciExact then ReplanSemanticFailure
      else if !f.ci.state.CiPass? || !ciExact then WaitExactHeadCi
      else
        var reviewClear := f.review.actionable == Some(false) && f.review.state.ReviewClear? && f.review.head == f.pr.head;
        var actionable := f.review.actionable == Some(true) || f.review.state.ReviewOpen?;
        if !reviewClear || actionable then AuditReview
        else if f.git.dirty != Some(false) then AuditDirtyTree
        else if f.git.unpushed != Some(false) then WaitExternal
        else if f.rollout.RolloutPending? then WaitExternal
        else if (f.packet.risk.HighRisk? || f.packet.risk.CriticalRisk?) &&
                !(f.publication.audit.AuditPass? && f.publication.authorizedRevision == Some(f.packet.revision)) then
          WaitExternal
        else if !f.pr.mergeable.MergeableYes? then WaitExternal
        else MergeReady
  }

  function ImplementationPath(f: Facts): Decision {
    var implementing := ActiveWorker(f) && !f.git.yieldedForAudit;
    if f.git.dirty == Some(true) && !implementing then AuditOrAuthorize(f)
    else if f.git.yieldedForAudit then AuditOrAuthorize(f)
    else if implementing then
      if f.worker.progress then ResumeWorker else WaitExternal
    else if f.git.dirty.None? || f.git.unpushed.None? then WaitExternal
    else if f.git.dirty == Some(false) && (f.resource.ResourcePass? || f.resource.ResourceWarn?) &&
            f.admission.decision.AdmissionAllow? then
      AdmitImplementation
    else WaitExternal
  }

  function Plan(f: Facts): Decision {
    if f.packet.status.Complete? then NoopComplete
    else if f.packet.status.Paused? then NoopPaused
    else if f.packet.status.Blocked? then BlockHuman
    else if f.ambiguous || f.failure.cls.AmbiguousMutation? then ReconcileAmbiguous
    else if IsStaleWorker(f) then StaleWorker
    else if f.failure.cls.Semantic? || f.failure.identicalSemantic >= 2 then ReplanSemanticFailure
    else if f.failure.cls.HumanRequired? || f.failure.cls.AuthorityFailure? then BlockHuman
    else if ResourceBlocked(f) then YieldResource
    else if f.failure.cls.Transient? then
      if f.wait.retryCount < f.wait.retryBudget then WaitExternal else BlockHuman
    else if !DependenciesEligible(f.packet) then WaitExternal
    else if f.pr.Pr? then PrPipeline(f)
    else if f.wait.external then WaitExternal
    else ImplementationPath(f)
  }

  /** Nothing ranked before the pull request or the implementation decides. */
  ghost predicate Unobstructed(f: Facts) {
    && f.packet.status == Active
    && !f.ambiguous
    && !IsStaleWorker(f)
    && f.failure.cls == NoFailure && f.failure.identicalSemantic < 2
    && !ResourceBlocked(f)
    && DependenciesEligible(f.packet)
  }

  /** The one head that Git, the pull request, CI and the review all name. */
  ghost predicate ExactHead(f: Facts, h: Head) {
    h.Sha? && f.git.head == h && PrHead(f) == h && f.ci.head == h && f.review.head == h
  }

  /** MERGE_READY is answered exactly when every merge gate is proven for one exact head;
      no gate opens on a missing fact. */
  lemma {:induction false} MergeReadyMeansEveryGateForOneHead(f: Facts)
    ensures Plan(f) == MergeReady <==>
            && Unobstructed(f)
            && (exists h :: ExactHead(f, h))
            && f.pr.Pr? && f.pr.state == PrOpen && f.pr.mergeable == MergeableYes
            && f.ci.state == CiPass
            && f.review.state == ReviewClear && f.review.actionable == Some(false)
            && f.git.dirty == Some(false) && f.git.unpushed == Some(false)
            && f.rollout != RolloutPending
            && (f.packet.risk in {HighRisk, CriticalRisk} ==>
                  f.publication == Publication(AuditPass, Some(f.packet.revision)))
  {
    assert Plan(f) == MergeReady ==> ExactHead(f, f.git.head);
  }

  /** A worker is admitted exactly when nobody implements, the tree is clean, and resource
      and admission facts both positively allow it. */
  lemma {:induction false} AdmitMeansCleanIdleAndAllowed(f: Facts)
    ensures Plan(f) == AdmitImplementation <==>
            && Unobstructed(f)
            && f.pr == NoPr && !f.wait.external
            && !ActiveWorker(f)
            && f.git.dirty == Some(false) && f.git.unpushed.Some? && !f.git.yieldedForAudit
            && f.resource in {ResourcePass, ResourceWarn}
            && f.admission.decision == AdmissionAllow
  {
  }

  /** A worker is resumed exactly when it works on the packet's own revision with observed
      progress and its tree was not yielded for audit. */
  lemma {:induction false} ResumeMeansProgressOnThisRevision(f: Facts)
    ensures Plan(f) == ResumeWorker <==>
            && Unobstructed(f)
            && f.pr == NoPr && !f.wait.external
            && ActiveWorker(f) && f.worker.progress
            && !f.git.yieldedForAudit
  {
  }

  // ------------------------------------------- what calls for each of the decisions

  /** The packet is active and nothing about its last mutation is in doubt. */
  ghost predicate Settled(f: Facts) {
    f.packet.status == Active && !f.ambiguous && f.failure.cls != AmbiguousMutation
  }

  /** A live worker started from another revision of the packet. */
  ghost predicate OutOfDate(f: Facts) {
    && f.worker.Worker? && f.worker.status in {Claimed, Working, Waiting, Yielding, Retrying}
    && f.worker.startingRevision != f.packet.revision
  }

  /** A live worker started from this revision of the packet. */
  ghost predicate UpToDate(f: Facts) {
    && f.worker.Worker? && f.worker.status in {Claimed, Working, Waiting, Yielding, Retrying}
    && f.worker.startingRevision == f.packet.revision
  }

  /** Capacity is lacking: by the preflight, by the failure, or by the host's budget. */
  ghost predicate LacksCapacity(f: Facts) {
    || f.resource == ResourceBlock || f.failure.cls == ResourceFailure
    || (f.admission.decision == AdmissionDeny && f.admission.denyClass == "HOST_BUDGET")
  }

  /** Settled, with a worker of no other revision, and not failing the same way again. */
  ghost predicate Sane(f: Facts) {
    Settled(f) && !OutOfDate(f) && f.failure.cls != Semantic && f.failure.identicalSemantic < 2
  }

  /** Nothing keeps the packet from moving on. */
  ghost predicate Clear(f: Facts) {
    && Sane(f) && f.failure.cls == NoFailure && !LacksCapacity(f)
    && f.packet.dependencies.Some? && forall d :: d in f.packet.dependencies.value ==> d == Complete
  }

  /** An open pull request whose head is the tree's head. */
  ghost predicate HeadsAgree(f: Facts) {
    f.pr.Pr? && f.pr.state == PrOpen && f.git.head == f.pr.head && f.pr.head != UnknownHead
  }

  ghost predicate ExactCi(f: Facts, state: CiState) {
    HeadsAgree(f) && f.ci.head == f.pr.head && f.ci.state == state
  }

  /** The review of exactly that head is clear, with nothing left to act on. */
  ghost predicate Reviewed(f: Facts) {
    f.pr.Pr? && f.review.head == f.pr.head && f.review.state == ReviewClear && f.review.actionable == Some(false)
  }

  /** The coordinator's audit passed and speaks of the packet's own revision. */
  ghost predicate Authorized(f: Facts) {
    f.publication == Publication(AuditPass, Some(f.packet.revision))
  }

  /** Without a pull request or an external wait. */
  ghost predicate Local(f: Facts) {
    f.pr == NoPr && !f.wait.external
  }

  /** There is work in the tree to be audited: it was yielded, or is dirty with nobody implementing. */
  ghost predicate AwaitsAudit(f: Facts) {
    Local(f) && (f.git.yieldedForAudit || (f.git.dirty == Some(true) && !UpToDate(f)))
  }

  /** The situations that call for each decision, one by one. */
  ghost predicate CallsFor(f: Facts, d: Decision) {
    match d
    case NoopComplete => f.packet.status == Complete
    case NoopPaused => f.packet.status == Paused
    case ReconcileAmbiguous => f.packet.status == Active && (f.ambiguous || f.failure.cls == AmbiguousMutation)
    case StaleWorker => Settled(f) && OutOfDate(f)
    case ReplanSemanticFailure =>
      || (Settled(f) && !OutOfDate(f) && (f.failure.cls == Semantic || f.failure.identicalSemantic >= 2))
      || (Clear(f) && ExactCi(f, CiFail))
      || (Clear(f) && AwaitsAudit(f) && f.publication.audit == AuditFail)
    case BlockHuman =>
      || f.packet.status == Blocked
      || (Sane(f) && f.failure.cls in {HumanRequired, AuthorityFailure})
      || (Sane(f) && f.failure.cls == Transient && !LacksCapacity(f) && f.wait.retryBudget <= f.wait.retryCount)
    case YieldResource => Sane(f) && f.failure.cls !in {HumanRequired, AuthorityFailure} && LacksCapacity(f)
    case WaitExactHeadCi =>
      Clear(f) && f.pr.Pr? && f.pr.state == PrOpen && !ExactCi(f, CiPass) && !ExactCi(f, CiFail)
    case AuditReview => Clear(f) && ExactCi(f, CiPass) && !Reviewed(f)
    case AuditDirtyTree =>
      || (Clear(f) && ExactCi(f, CiPass) && Reviewed(f) && f.git.dirty != Some(false))
      || (Clear(f) && AwaitsAudit(f) && f.publication.audit != AuditFail && !Authorized(f))
    case AuthorizePublication => Clear(f) && AwaitsAudit(f) && Authorized(f)
    case MergeReady =>
      && Clear(f) && ExactCi(f, CiPass) && Reviewed(f) && f.git.dirty == Some(false) && f.git.unpushed == Some(false)
      && f.rollout != RolloutPending && f.pr.mergeable == MergeableYes
      && (f.packet.risk in {HighRisk, CriticalRisk} ==> Authorized(f))
    case ResumeWorker => Clear(f) && Local(f) && UpToDate(f) && !f.git.yieldedForAudit && f.worker.progress
    case AdmitImplementation =>
      && Clear(f) && Local(f) && !UpToDate(f) && !f.git.yieldedForAudit
      && f.git.dirty == Some(false) && f.git.unpushed.Some?
      && f.resource in {ResourcePass, ResourceWarn} && f.admission.decision == AdmissionAllow
    case WaitExternal =>
      || (Sane(f) && f.failure.cls == Transient && !LacksCapacity(f) && f.wait.retryCount < f.wait.retryBudget)
      || (&& Sane(f) && f.failure.cls == NoFailure && !LacksCapacity(f)
          && (f.packet.dependencies == None || exists d :: d in f.packet.dependencies.value && d != Complete))
      || (Clear(f) && f.pr.Pr? && f.pr.state != PrOpen)
      || (&& Clear(f) && ExactCi(f, CiPass) && Reviewed(f) && f.git.dirty == Some(false)
          && (|| f.git.unpushed != Some(false) || f.rollout == RolloutPending || f.pr.mergeable != MergeableYes
              || (f.packet.risk in {HighRisk, CriticalRisk} && !Authorized(f))))
      || (Clear(f) && f.pr == NoPr && f.wait.external)
      || (Clear(f) && Local(f) && UpToDate(f) && !f.git.yieldedForAudit && !f.worker.progress)
      || (&& Clear(f) && Local(f) && !UpToDate(f) && !f.git.yieldedForAudit && f.git.dirty != Some(true)
          && (|| f.git.dirty == None || f.git.unpushed == None
              || f.resource in {ResourceBlock, ResourceUnknown} || f.admission.decision != AdmissionAllow))
  }

  /** The subject is the head of the pull request; if that is unknown, the head CI speaks of; and if
      that is unknown too, the head of the tree. */
  lemma {:induction false} SubjectMeans(f: Facts, hex: string)
    ensures SubjectVersion(f) == Some(hex) <==>
              || (f.pr.Pr? && f.pr.head == Sha(hex))
              || ((f.pr.Pr? ==> f.pr.head == UnknownHead) && f.ci.head == Sha(hex))
              || ((f.pr.Pr? ==> f.pr.head == UnknownHead) && f.ci.head == UnknownHead && f.git.head == Sha(hex))
  {
  }

  lemma {:induction false} PipelineIsCalledFor(f: Facts, d: Decision)
    requires Clear(f) && f.pr.Pr?
    ensures PrPipeline(f) == d <==> CallsFor(f, d)
  {
  }

  lemma {:induction false} TreeIsCalledFor(f: Facts, d: Decision)
    requires Clear(f) && Local(f)
    ensures ImplementationPath(f) == d <==> CallsFor(f, d)
  {
    assert f.resource.ResourceUnknown? || f.resource.ResourcePass? || f.resource.ResourceWarn?;
    if f.git.dirty.Some? && f.git.dirty.value { assert f.git.dirty == Some(true); }
    if f.git.dirty.Some? && !f.git.dirty.value { assert f.git.dirty == Some(false); }
  }

  /** The planner answers a decision if and only if the facts call for it; so exactly one of the
      fifteen situations is always given. */
  lemma {:induction false} PlanIsCalledFor(f: Facts, d: Decision)
    ensures Plan(f) == d <==> CallsFor(f, d)
  {
    if Clear(f) && f.pr.Pr? {
      PipelineIsCalledFor(f, d);
    } else if Clear(f) && Local(f) {
      TreeIsCalledFor(f, d);
    }
  }
}
