/** What every reachable world of the cutover satisfies. */
module CutoverInvariant {
  import opened Common
  import opened SealStore
  import opened CutoverModel

  // ------------------------------------------------------------------------- lease

  /** The effects at which a source command holds the mount lease. */
  predicate SourceHolds(pc: SourcePC) {
    pc.Probed? || pc.SaveStopped? || pc.SendIssue? || pc.AwaitIssue? || pc.ReleaseLease?
  }

  predicate HandbackHolds(pc: HandbackPC) {
    || pc.HProbed? || pc.HSaveStopped? || pc.HReleaseUnsaved? || pc.HSaveHandingBack?
    || pc.HSendPrepare? || pc.HAwaitPrepare? || pc.HSendCommit? || pc.HAwaitCommit?
    || pc.HReleaseFailed? || pc.HSaveReleased? || pc.HReleaseDone?
  }

  /** The effects that may restart the mount. */
  predicate SourceRestarts(pc: SourcePC) {
    pc.EnsurePreseal? || pc.EnsureUnpersisted? || pc.EnsureResumed?
  }

  predicate HandbackRestarts(pc: HandbackPC) {
    pc.HEnsureStopFailed? || pc.HEnsureUnsaved? || pc.HEnsureDiverged?
  }

  /** A command holds the lease exactly at the effects listed, never beside a serving
      daemon, and a source that has been stopped stays down until a restart. */
  predicate SourceLeaseInv(s: Source) {
    && (s.lease <==> SourceHolds(s.pc))
    && (s.lease ==> s.mount != Serving)
    && (SourceStaysDown(s.pc) ==> s.mount == Down)
  }

  predicate HandbackLeaseInv(d: Destination) {
    && (d.lease <==> HandbackHolds(d.pc))
    && (d.lease ==> d.mount != Serving)
    && (d.pc == HSaveStopped(true) || d.pc == HReleaseUnsaved ==> d.mount == Down)
  }

  predicate SourceStaysDown(pc: SourcePC) {
    pc.SaveStopped? || pc.SendIssue? || pc.AwaitIssue? || pc.ReleaseLease? || pc.SaveSealed?
  }

  // ------------------------------------------------------------------------ records

  predicate RecordOk(r: SourceRecord) {
    match r.status
    case Preparing | Stopped | PresealFailed | RecoveryFailed => r.receipt == None && r.proof == None
    case Sealed | OwnershipConflict => r.receipt.Some? && r.receipt.value.hasToken && r.proof == None
    case Resuming => r.receipt.Some? && r.receipt.value.hasToken && (r.proof.Some? ==> ValidProof(r, r.proof.value))
    case Ready =>
      || (r.receipt == None && r.proof == None)
      || (r.receipt.Some? && !r.receipt.value.hasToken && r.proof.Some? && ValidProof(r, r.proof.value))
  }

  predicate Terminal(s: SourceStatus) {
    s == Ready || s == RecoveryFailed || s == OwnershipConflict
  }

  /** The same seal, whether or not its token has been erased. */
  predicate SameReceipt(a: Option<Receipt>, b: Option<Receipt>) {
    match (a, b)
    case (Some(x), Some(y)) => x.sealId == y.sealId && x.state == y.state && x.sealedAt == y.sealedAt
    case (None, None) => true
    case _ => false
  }

  /** How the command's copy and the durable record relate at each effect. */
  predicate SourceInv(s: Source) {
    && (s.record.Some? ==> RecordOk(s.record.value))
    && match s.pc
       case Idle => true
       case SavePreparing => s.record == None && s.local == SourceRecord(Preparing, None, None)
       case Stopping | Probed =>
         s.record == Some(s.local) && s.local == SourceRecord(Preparing, None, None)
       case SaveStopped | SendIssue | AwaitIssue =>
         Unsealed(s.record) && s.local == SourceRecord(Stopped, None, None) && IssueMail(s)
       case ReleaseLease(r) =>
         Unsealed(s.record) && s.local == SourceRecord(Stopped, None, None) && (r.Some? ==> r.value.hasToken)
       case SaveSealed => Unsealed(s.record) && RecordOk(s.local) && s.local.status == Sealed
       case Emit => s.record == Some(s.local) && s.local.status == Sealed
       case EnsurePreseal(onReady) =>
         && (Unsealed(s.record) || (s.record.Some? && s.record.value.status == PresealFailed))
         && (onReady == PresealFailed || onReady == Ready) && s.local.receipt == None && s.local.proof == None
       case EnsureUnpersisted => Unsealed(s.record)
       case SaveResuming => OngoingResume(s)
       case SendResume | AwaitResume => OngoingResume(s) && s.local.proof == None && s.record == Some(s.local)
       case SaveProof => OngoingResume(s) && s.local.proof.Some?
       case EnsureResumed | AwaitConverged =>
         OngoingResume(s) && s.local.proof.Some? && s.record == Some(s.local)
       case SaveLast =>
         && RecordOk(s.local) && s.record.Some? && !Terminal(s.record.value.status)
         && SameReceipt(s.local.receipt, s.record.value.receipt) && s.local.proof == s.record.value.proof
  }

  predicate Unsealed(r: Option<SourceRecord>) {
    r.Some? && (r.value.status == Preparing || r.value.status == Stopped)
  }

  predicate IssueMail(s: Source) {
    s.pc.AwaitIssue? && s.mail.Some? && s.mail.value.Issued? ==> s.mail.value.receipt.hasToken
  }

  predicate OngoingResume(s: Source) {
    && RecordOk(s.local) && s.local.status == Resuming
    && s.record.Some? && (s.record.value.status == Sealed || s.record.value.status == Resuming)
    && s.record.value.receipt == s.local.receipt
    && (s.record.value.proof.Some? ==> s.record.value.proof == s.local.proof)
    && (s.local.proof.Some? ==> s.pc.SaveProof? || s.record.value.proof == s.local.proof)
  }

  // ------------------------------------------------------------- disclosure, ownership

  predicate HasReceipt(s: Source) {
    s.record.Some? && s.record.value.receipt.Some?
  }

  predicate HasProof(s: Source) {
    s.record.Some? && s.record.value.proof.Some?
  }

  function SealOf(server: Server): Option<Seal> {
    match server
    case Absent => None
    case Present(s) => Some(s)
    case Purged(s) => Some(s)
  }

  predicate SourceResumedAt(server: Server) {
    SealOf(server).Some? && SourceOwns(SealOf(server).value)
  }

  predicate Consumed(server: Server) {
    SealOf(server).Some? && SealOf(server).value.consumer.Some?
  }

  /** The destination gave ownership up: a consumed seal was released. */
  predicate HandbackReleasedAt(server: Server) {
    Consumed(server) && SealOf(server).value.released.Some?
  }

  predicate ProofMail(s: Source) {
    s.pc.AwaitResume? && s.mail.Some? && s.mail.value.Answered? && s.mail.value.reply.Granted? &&
    ValidProof(s.local, s.mail.value.reply.proof)
  }

  ghost predicate SourceOwnershipInv(w: World) {
    && (SealOf(w.server).Some? ==> WellFormed(SealOf(w.server).value))
    && (w.server.Purged? ==> SourceOwns(w.server.seal))
    // every envelope handed out is the one durable receipt
    && (forall e <- w.disclosed :: HasReceipt(w.src) && SameReceipt(Some(e.receipt), w.src.record.value.receipt) && e.receipt.hasToken)
    && (Consumed(w.server) ==> w.disclosed != {})
    // a sealed source is down until its proof is durable
    && (HasReceipt(w.src) && !HasProof(w.src) ==> w.src.mount == Down)
    && (HasProof(w.src) || ProofMail(w.src) || w.src.pc.SaveProof? ==> SourceResumedAt(w.server))
  }

  // --------------------------------------------------------------------- the handback

  ghost predicate CommitSent(w: World) {
    exists d :: CommitReq(d) in w.sent
  }

  ghost predicate HandbackSent(w: World) {
    exists d :: CommitReq(d) in w.sent || PrepareReq(d) in w.sent
  }

  /** A commit that is still in the network can release ownership: it was prepared, and the
      workspace has not moved since. */
  ghost predicate CommitLive(w: World) {
    && CommitSent(w) && w.server.Present? && w.server.seal.preparation.Some?
    && w.server.seal.preparation.value.state == w.workspace
  }

  predicate DivergedMail(d: Destination) {
    (d.pc.HAwaitPrepare? || d.pc.HAwaitCommit?) && d.mail == Some(Refused(Diverged))
  }

  /** A handback command that is running for the first time: nothing has been sent. */
  predicate FirstAttempt(pc: HandbackPC) {
    || pc.HSavePreparing? || (pc.HStopping? && pc.first) || (pc.HProbed? && pc.first)
    || pc.HEnsureStopFailed? || (pc.HSaveStopped? && pc.first) || pc.HReleaseUnsaved? || pc.HEnsureUnsaved?
  }

  /** The destination is not serving, no running command is on its way to restart it, and
      the handback has not given up. */
  predicate Fenced(d: Destination) {
    && d.mount != Serving
    && !FirstAttempt(d.pc) && !HandbackRestarts(d.pc) && d.pc != HReleaseFailed(true) && !DivergedMail(d)
    && !(d.record.Some? && GaveUp(d.record.value.status)) && !(d.pc.HSaveLast? && GaveUp(d.local.status))
  }

  predicate Untouched(d: Destination) {
    d.record.None? || d.record.value.status == HPreparing
  }

  predicate HandbackLocalInv(d: Destination) {
    && (d.record.Some? ==> (d.record.value.result.Some? <==> d.record.value.status == HandbackReleased))
    && (d.pc.HSavePreparing? ==> d.record.None? && d.local.status == HPreparing)
    && (FirstAttempt(d.pc) ==> Untouched(d))
    && (FirstAttempt(d.pc) && !d.pc.HSavePreparing? ==> d.record.Some?)
    && (d.pc != HIdle && !d.pc.HSaveReleased? && d.pc != HReleaseDone(true) && !d.pc.HReleaseDone? ==> d.local.result.None?)
    && (d.pc.HSaveReleased? ==> d.local.status == HandbackReleased && d.local.result.Some?)
    && (d.pc == HReleaseDone(true) ==> d.record == Some(d.local) && d.local.status == HandbackReleased && d.local.result.Some?)
    && (d.pc != HIdle && !d.pc.HSavePreparing? ==> d.record.Some?)
    && (d.record.Some? && d.record.value.status == HandbackReleased ==> d.pc.HIdle? || d.pc.HReleaseDone?)
    && (d.record.Some? && GaveUp(d.record.value.status) ==> d.pc.HIdle?)
    && (d.pc.HSaveHandingBack? ==> d.local.status == HandingBack && !Untouched(d))
    && (Committing(d.pc) ==> d.record.Some? && d.record.value.status == HandingBack)
    && (d.pc.HSaveLast? ==> d.local.status != HPreparing && d.local.status != HandbackReleased)
    && (d.pc.HSaveStopped? ==> d.local.status == HStopped)
  }

  /** The effects around the two handback requests. */
  predicate Committing(pc: HandbackPC) {
    || pc.HSendPrepare? || pc.HAwaitPrepare? || pc.HSendCommit? || pc.HAwaitCommit?
    || pc.HReleaseFailed? || pc.HEnsureDiverged? || pc.HSaveReleased?
  }

  ghost predicate HandbackInv(w: World) {
    && HandbackLocalInv(w.dst)
    && (Untouched(w.dst) ==> !HandbackSent(w))
    && (CommitSent(w) ==> PreparedAt(w.server))
    && (w.dst.pc.HSendCommit? || PreparedMail(w.dst) ==> PreparedAt(w.server))
    && (SealOf(w.server).Some? && SealOf(w.server).value.preparation.Some? ==>
          var p := SealOf(w.server).value.preparation.value.state;
          p == w.workspace || p.revision < w.workspace.revision)
    && (Consumed(w.server) && (SealOf(w.server).value.released.Some? || SourceResumedAt(w.server)) ==> CommitSent(w))
    && (CommitLive(w) || HandbackReleasedAt(w.server) ==> Fenced(w.dst))
    && (w.dst.mount == Serving || w.dst.record.Some? || w.dst.pc != HIdle ==> Consumed(w.server))
    // a reported release happened
    && (ReportsRelease(w.dst) ==> HandbackReleasedAt(w.server))
    && (forall p <- w.handedBack :: w.dst.record.Some? && w.dst.record.value.result == Some(p))
  }

  predicate ReportsRelease(d: Destination) {
    (d.record.Some? && d.record.value.status == HandbackReleased) || d.pc.HSaveReleased? || ReleasedMail(d)
  }

  predicate PreparedAt(server: Server) {
    SealOf(server).Some? && SealOf(server).value.preparation.Some?
  }

  predicate PreparedMail(d: Destination) {
    d.pc.HAwaitPrepare? && d.mail.Some? && PreparedFor(d.mail.value, d.pc.digest)
  }

  predicate ReleasedMail(d: Destination) {
    (d.pc.HAwaitPrepare? || d.pc.HAwaitCommit?) && d.mail.Some? && d.mail.value.Granted? && d.mail.value.proof.status == ReleasedStatus
  }

  /** The equation makes the invariant one fact to prove, not one for each of its parts. */
  ghost predicate Inv(w: World) {
    true == (&& SourceLeaseInv(w.src) && HandbackLeaseInv(w.dst) && SourceInv(w.src)
             && SourceOwnershipInv(w) && HandbackInv(w))
  }

  // ------------------------------------------------------------------------- induction

  lemma InitInv(w: World)
    requires Init(w)
    ensures Inv(w)
  {
  }

  /** A step that leaves the handback, the server and the workspace alone. */
  lemma HandbackFrame(w: World, w': World)
    requires HandbackInv(w)
    requires w'.dst == w.dst && w'.server == w.server && w'.workspace == w.workspace && w'.handedBack == w.handedBack
    requires forall d :: CommitReq(d) in w'.sent <==> CommitReq(d) in w.sent
    requires forall d :: PrepareReq(d) in w'.sent <==> PrepareReq(d) in w.sent
    ensures HandbackInv(w')
  {
    assert CommitSent(w') <==> CommitSent(w);
    assert HandbackSent(w') <==> HandbackSent(w);
  }

  /** A step that leaves the source and the server alone. */
  lemma SourceFrame(w: World, w': World)
    requires SourceOwnershipInv(w)
    requires w'.src == w.src && w'.server == w.server && w'.disclosed == w.disclosed
    ensures SourceOwnershipInv(w')
  {
  }

  lemma SourceStepLease(w: World, w': World)
    requires SourceLeaseInv(w.src) && SourceStep(w, w')
    ensures SourceLeaseInv(w'.src)
  {
  }

  predicate ResumePath(pc: SourcePC) {
    pc.SaveResuming? || pc.SendResume? || pc.AwaitResume? || pc.SaveProof? || pc.EnsureResumed? || pc.AwaitConverged?
  }

  /** The effects of a seal while it stops the mount and asks for the receipt. */
  predicate StopPath(pc: SourcePC) {
    pc.SavePreparing? || pc.Stopping? || pc.Probed? || pc.SaveStopped? || pc.SendIssue? || pc.AwaitIssue? || pc.ReleaseLease?
  }

  lemma StopStepRecord(w: World, w': World)
    requires SourceInv(w.src) && SourceStep(w, w') && StopPath(w.src.pc)
    ensures SourceInv(w'.src)
  {
  }

  lemma SealStepRecord(w: World, w': World)
    requires SourceInv(w.src) && SourceStep(w, w') && !StopPath(w.src.pc) && !ResumePath(w.src.pc)
    ensures SourceInv(w'.src)
  {
  }

  predicate ClaimPath(pc: SourcePC) {
    pc.SaveResuming? || pc.SendResume? || pc.AwaitResume?
  }

  lemma ClaimStepRecord(w: World, w': World)
    requires SourceInv(w.src) && SourceStep(w, w') && ClaimPath(w.src.pc)
    ensures SourceInv(w'.src)
  {
  }

  lemma ResumeStepRecord(w: World, w': World)
    requires SourceInv(w.src) && SourceStep(w, w') && ResumePath(w.src.pc) && !ClaimPath(w.src.pc)
    ensures SourceInv(w'.src)
  {
  }

  lemma SourceStepRecord(w: World, w': World)
    requires SourceInv(w.src) && SourceStep(w, w')
    ensures SourceInv(w'.src)
  {
    if StopPath(w.src.pc) { StopStepRecord(w, w'); }
    else if ClaimPath(w.src.pc) { ClaimStepRecord(w, w'); }
    else if ResumePath(w.src.pc) { ResumeStepRecord(w, w'); }
    else { SealStepRecord(w, w'); }
  }

  /** A source step only adds its own requests and leaves everything remote alone. */
  lemma SourceStepScope(w: World, w': World)
    requires SourceStep(w, w')
    ensures w'.dst == w.dst && w'.server == w.server && w'.workspace == w.workspace && w'.handedBack == w.handedBack
    ensures forall d :: CommitReq(d) in w'.sent <==> CommitReq(d) in w.sent
    ensures forall d :: PrepareReq(d) in w'.sent <==> PrepareReq(d) in w.sent
  {
  }

  lemma SourceStepDisclosure(w: World, w': World)
    requires SourceInv(w.src) && SourceOwnershipInv(w) && SourceStep(w, w')
    ensures forall e <- w'.disclosed ::
              HasReceipt(w'.src) && SameReceipt(Some(e.receipt), w'.src.record.value.receipt) && e.receipt.hasToken
    ensures w.disclosed <= w'.disclosed
  {
  }

  lemma SourceStepFence(w: World, w': World)
    requires SourceLeaseInv(w.src) && SourceInv(w.src) && SourceOwnershipInv(w) && SourceStep(w, w')
    ensures HasReceipt(w'.src) && !HasProof(w'.src) ==> w'.src.mount == Down
    ensures HasProof(w'.src) || ProofMail(w'.src) || w'.src.pc.SaveProof? ==> SourceResumedAt(w.server)
  {
  }

  lemma SourceStepInv(w: World, w': World)
    requires Inv(w) && SourceStep(w, w')
    ensures Inv(w')
  {
    SourceStepScope(w, w');
    SourceStepLease(w, w');
    SourceStepRecord(w, w');
    SourceStepDisclosure(w, w');
    SourceStepFence(w, w');
    HandbackFrame(w, w');
  }

  lemma HandbackStepLease(w: World, w': World)
    requires HandbackLeaseInv(w.dst) && HandbackStep(w, w')
    ensures HandbackLeaseInv(w'.dst)
  {
  }

  lemma FirstAttemptLocal(w: World, w': World)
    requires HandbackLocalInv(w.dst) && HandbackStep(w, w') && FirstAttempt(w.dst.pc)
    ensures HandbackLocalInv(w'.dst)
  {
  }

  lemma CommittingLocal(w: World, w': World)
    requires HandbackLocalInv(w.dst) && HandbackStep(w, w') && Committing(w.dst.pc)
    ensures HandbackLocalInv(w'.dst)
  {
  }

  lemma OtherwiseLocal(w: World, w': World)
    requires HandbackLocalInv(w.dst) && HandbackStep(w, w') && !FirstAttempt(w.dst.pc) && !Committing(w.dst.pc)
    ensures HandbackLocalInv(w'.dst)
  {
  }

  lemma HandbackStepLocal(w: World, w': World)
    requires HandbackLocalInv(w.dst) && HandbackStep(w, w')
    ensures HandbackLocalInv(w'.dst)
  {
    if FirstAttempt(w.dst.pc) { FirstAttemptLocal(w, w'); }
    else if Committing(w.dst.pc) { CommittingLocal(w, w'); }
    else { OtherwiseLocal(w, w'); }
  }

  lemma HandbackStepScope(w: World, w': World)
    requires HandbackStep(w, w')
    ensures w'.src == w.src && w'.server == w.server && w'.workspace == w.workspace && w'.disclosed == w.disclosed
    ensures w'.sent == w.sent || (w.dst.pc.HSendPrepare? && w'.dst.pc.HAwaitPrepare? && w'.sent == w.sent + {PrepareReq(w'.dst.pc.digest)})
                              || (w.dst.pc.HSendCommit? && w'.dst.pc.HAwaitCommit? && w'.sent == w.sent + {CommitReq(w'.dst.pc.digest)})
  {
  }

  /** A handback command only sends a commit that was prepared, under its lease. */
  lemma HandbackStepRequests(w: World, w': World)
    requires HandbackLeaseInv(w.dst) && HandbackInv(w) && HandbackStep(w, w')
    ensures Untouched(w'.dst) ==> !HandbackSent(w')
    ensures CommitSent(w') ==> PreparedAt(w'.server)
    ensures w'.dst.pc.HSendCommit? || PreparedMail(w'.dst) ==> PreparedAt(w'.server)
    ensures CommitSent(w) ==> CommitSent(w')
  {
    HandbackStepScope(w, w');
  }

  /** A fenced destination stays fenced, whatever its own command does next. */
  lemma FencedStaysFenced(w: World, w': World)
    requires HandbackLeaseInv(w.dst) && HandbackLocalInv(w.dst) && HandbackStep(w, w')
    requires Fenced(w.dst) && !Untouched(w.dst)
    ensures Fenced(w'.dst)
  {
  }

  lemma CommittingIsFenced(w: World, w': World)
    requires HandbackLeaseInv(w.dst) && HandbackLocalInv(w.dst) && HandbackStep(w, w')
    requires w.dst.pc.HSendCommit? && w'.dst.pc.HAwaitCommit?
    ensures Fenced(w'.dst)
  {
  }

  lemma HandbackStepFence(w: World, w': World)
    requires HandbackLeaseInv(w.dst) && HandbackInv(w) && HandbackStep(w, w')
    ensures CommitLive(w') || HandbackReleasedAt(w'.server) ==> Fenced(w'.dst)
  {
    HandbackStepScope(w, w');
    if CommitLive(w) || HandbackReleasedAt(w.server) {
      assert HandbackSent(w);
      FencedStaysFenced(w, w');
    } else if CommitLive(w') {
      CommittingIsFenced(w, w');
    }
  }

  lemma HandbackStepReports(w: World, w': World)
    requires HandbackInv(w) && HandbackStep(w, w')
    ensures ReportsRelease(w'.dst) ==> HandbackReleasedAt(w'.server)
    ensures w'.dst.mount == Serving || w'.dst.record.Some? || w'.dst.pc != HIdle ==> Consumed(w'.server)
    ensures forall p <- w'.handedBack :: w'.dst.record.Some? && w'.dst.record.value.result == Some(p)
  {
    HandbackStepScope(w, w');
  }

  lemma HandbackStepInv(w: World, w': World)
    requires Inv(w) && HandbackStep(w, w')
    ensures Inv(w')
  {
    HandbackStepScope(w, w');
    HandbackStepLease(w, w');
    HandbackStepLocal(w, w');
    HandbackStepRequests(w, w');
    HandbackStepFence(w, w');
    HandbackStepReports(w, w');
    SourceFrame(w, w');
  }

  // ------------------------------------------------------------- the server's side

  /** What the invariants need of a change to the seal: `disclosed` says that a receipt was
      handed out, `live` that a commit of what is prepared here may be in the network. */
  predicate SealGoes(a: Seal, b: Seal, current: Workspace, disclosed: bool, live: bool) {
    && WellFormed(b) && b.id == a.id
    && (SourceOwns(a) ==> SourceOwns(b))
    && (b.consumer.Some? ==> a.consumer.Some? || disclosed)
    && (a.consumer.Some? ==> b.consumer.Some?)
    && (a.preparation.Some? ==> b.preparation == a.preparation)
    && (b.preparation.Some? && a.preparation.None? ==> b.preparation.value.state == current)
    && (a.released.Some? ==> b.released.Some?)
    && (b.consumer.Some? && b.released.Some? && a.released.None? ==> live)
    && (b.consumer.Some? && a.consumer.None? ==> b.released.None? && !SourceOwns(b))
    && (b.consumer.Some? && SourceOwns(b) && !SourceOwns(a) ==> a.released.Some?)
  }

  lemma ConsumeGoes(a: Seal, current: Workspace, expired: bool)
    requires WellFormed(a)
    ensures SealGoes(a, Consume(a, current, CONSUMER_KEY, expired).0, current, true, false)
  {
  }

  lemma ReconcileGoes(a: Seal, current: Workspace, released: bool, k: Key)
    requires WellFormed(a)
    ensures SealGoes(a, Reconcile(a, released, k).0, current, false, false)
  {
  }

  lemma ResumeGoes(a: Seal, current: Workspace)
    requires WellFormed(a)
    ensures SealGoes(a, Resume(a, current, RESUME_KEY).0, current, false, false)
  {
  }

  lemma HandbackGoes(a: Seal, current: Workspace, phase: Phase, n: nat)
    requires WellFormed(a)
    ensures SealGoes(a, Handback(a, current, phase, CONSUMER_KEY, HANDBACK_KEY, n).0, current, false,
                     phase == Commit && a.preparation.Some? && a.preparation.value.state == current)
  {
  }

  lemma SealMovesSource(w: World, b: Seal, live: bool)
    requires SourceOwnershipInv(w) && w.server.Present? && SealGoes(w.server.seal, b, w.workspace, w.disclosed != {}, live)
    ensures SourceOwnershipInv(w.(server := Present(b)))
  {
  }

  lemma SealMovesHandback(w: World, b: Seal, live: bool)
    requires HandbackInv(w) && w.server.Present? && SealGoes(w.server.seal, b, w.workspace, w.disclosed != {}, live)
    requires live ==> CommitLive(w)
    ensures HandbackInv(w.(server := Present(b)))
  {
    var w' := w.(server := Present(b));
    assert CommitSent(w') <==> CommitSent(w);
    assert HandbackSent(w') <==> HandbackSent(w);
  }

  /** A change the server makes to the seal keeps everything. */
  lemma SealMoves(w: World, b: Seal, live: bool)
    requires Inv(w) && w.server.Present? && SealGoes(w.server.seal, b, w.workspace, w.disclosed != {}, live)
    requires live ==> CommitLive(w)
    ensures Inv(w.(server := Present(b)))
  {
    SealMovesSource(w, b, live);
    SealMovesHandback(w, b, live);
  }

  lemma SealIsWellFormed(w: World)
    requires SourceOwnershipInv(w) && w.server.Present?
    ensures WellFormed(w.server.seal)
  {
  }

  lemma SealGoesAnyway(a: Seal, b: Seal, current: Workspace, disclosed: bool)
    requires SealGoes(a, b, current, false, false)
    ensures SealGoes(a, b, current, disclosed, false)
  {
  }

  lemma ConsumeInv(w: World, expired: bool)
    requires Inv(w) && w.server.Present? && w.disclosed != {}
    ensures Inv(w.(server := Present(Consume(w.server.seal, w.workspace, CONSUMER_KEY, expired).0)))
  {
    SealIsWellFormed(w);
    ConsumeGoes(w.server.seal, w.workspace, expired);
    SealMoves(w, Consume(w.server.seal, w.workspace, CONSUMER_KEY, expired).0, false);
  }

  lemma ReconcileInv(w: World, released: bool, k: Key)
    requires Inv(w) && w.server.Present?
    ensures Inv(w.(server := Present(Reconcile(w.server.seal, released, k).0)))
  {
    SealIsWellFormed(w);
    ReconcileGoes(w.server.seal, w.workspace, released, k);
    SealGoesAnyway(w.server.seal, Reconcile(w.server.seal, released, k).0, w.workspace, w.disclosed != {});
    SealMoves(w, Reconcile(w.server.seal, released, k).0, false);
  }

  lemma ResumeInv(w: World)
    requires Inv(w) && w.server.Present?
    ensures Inv(w.(server := Present(Resume(w.server.seal, w.workspace, RESUME_KEY).0)))
  {
    SealIsWellFormed(w);
    ResumeGoes(w.server.seal, w.workspace);
    SealGoesAnyway(w.server.seal, Resume(w.server.seal, w.workspace, RESUME_KEY).0, w.workspace, w.disclosed != {});
    SealMoves(w, Resume(w.server.seal, w.workspace, RESUME_KEY).0, false);
  }

  lemma HandbackRequestInv(w: World, phase: Phase, n: nat)
    requires Inv(w) && w.server.Present?
    requires if phase == Commit then CommitReq(n) in w.sent else PrepareReq(n) in w.sent
    ensures Inv(w.(server := Present(Handback(w.server.seal, w.workspace, phase, CONSUMER_KEY, HANDBACK_KEY, n).0)))
  {
    SealIsWellFormed(w);
    HandbackGoes(w.server.seal, w.workspace, phase, n);
    var live := phase == Commit && w.server.seal.preparation.Some? && w.server.seal.preparation.value.state == w.workspace;
    assert live ==> CommitLive(w);
    SealMoves(w, Handback(w.server.seal, w.workspace, phase, CONSUMER_KEY, HANDBACK_KEY, n).0, live);
  }

  lemma IssueInv(w: World, id: nat)
    requires Inv(w) && w.server == Absent
    ensures Inv(w.(server := Present(Issue(id, w.workspace))))
  {
  }

  /** The record after a request is handled, before any reply is delivered. */
  lemma HandleInv(w: World, q: Request, id: nat, now: nat)
    requires Inv(w) && q in w.sent
    ensures Inv(w.(server := Handle(w.server, w.workspace, q, id, now).0))
  {
    match q
    case IssueReq(_) => if w.server == Absent { IssueInv(w, id); }
    case ResumeReq => if w.server.Present? { ResumeInv(w); }
    case PrepareReq(n) => if w.server.Present? { HandbackRequestInv(w, Prepare, n); }
    case CommitReq(n) => if w.server.Present? { HandbackRequestInv(w, Commit, n); }
  }

  /** An answer to the source says no more than the server's record does. */
  lemma DeliverToSource(w: World, q: Request, id: nat, now: nat)
    requires Inv(w) && q in w.sent && SourceAwaits(w, q)
    ensures Inv(Handled(w, q, id, now, true))
  {
    var (server, reply) := Handle(w.server, w.workspace, q, id, now);
    var w1 := w.(server := server);
    HandleInv(w, q, id, now);
    var w2 := w1.(src := w1.src.(mail := Some(reply)));
    assert ProofMail(w2.src) ==> SourceResumedAt(server);
    HandbackFrame(w1, w2);
  }

  /** An answer to the destination: "diverged" is only given when no commit in the network
      can release any more, "released" only after the release. */
  lemma DeliverToHandback(w: World, q: Request, id: nat, now: nat)
    requires Inv(w) && q in w.sent && HandbackAwaits(w, q)
    ensures Inv(Handled(w, q, id, now, true))
  {
    var (server, reply) := Handle(w.server, w.workspace, q, id, now);
    var w1 := w.(server := server);
    HandleInv(w, q, id, now);
    var w2 := w1.(dst := w1.dst.(mail := Some(reply.reply)));
    SourceFrame(w1, w2);
    assert CommitSent(w1) <==> CommitSent(w2);
    assert CommitLive(w1) <==> CommitLive(w2);
    assert DivergedMail(w2.dst) ==> !CommitLive(w1) && !HandbackReleasedAt(w1.server);
    assert HandbackInv(w2);
  }

  lemma ServerInv(w: World, w': World)
    requires Inv(w) && ServerHandles(w, w')
    ensures Inv(w')
  {
    var q, id, now, delivered: bool :| q in w.sent && w' == Handled(w, q, id, now, delivered);
    if delivered && SourceAwaits(w, q) {
      DeliverToSource(w, q, id, now);
    } else if delivered && HandbackAwaits(w, q) {
      DeliverToHandback(w, q, id, now);
    } else {
      HandleInv(w, q, id, now);
    }
  }

  // -------------------------------------------------------------- the environment

  lemma WriteInv(w: World, ws: Workspace)
    requires Inv(w) && ws.revision > w.workspace.revision
    ensures Inv(w.(workspace := ws))
  {
    var w' := w.(workspace := ws);
    assert CommitSent(w') <==> CommitSent(w);
    assert HandbackSent(w') <==> HandbackSent(w);
  }

  lemma PurgeInv(w: World)
    requires Inv(w) && w.server.Present? && SourceOwns(w.server.seal)
    ensures Inv(w.(server := Purged(w.server.seal)))
  {
    var w' := w.(server := Purged(w.server.seal));
    assert CommitSent(w') <==> CommitSent(w);
    assert HandbackSent(w') <==> HandbackSent(w);
  }

  lemma DestinationMountInv(w: World, m: Mount)
    requires Inv(w)
    requires || MountFalls(w.dst.mount, m)
             || (MayStart(w) && m == Serving)
    ensures Inv(w.(dst := w.dst.(mount := m)))
  {
    var w' := w.(dst := w.dst.(mount := m));
    SourceFrame(w, w');
    assert CommitSent(w') <==> CommitSent(w);
    assert HandbackSent(w') <==> HandbackSent(w);
  }

  lemma SourceEnvironmentInv(w: World, s: Source)
    requires Inv(w)
    requires || (MountFalls(w.src.mount, s.mount) && s == w.src.(mount := s.mount))
             || (w.src.pc == AwaitResume && s == w.src.(mail := s.mail) && !ProofMail(s) && s.mail.Some? && s.mail.value.Answered?)
    ensures Inv(w.(src := s))
  {
    HandbackFrame(w, w.(src := s));
  }

  lemma EnvironmentInv(w: World, w': World)
    requires Inv(w) && EnvironmentStep(w, w')
    ensures Inv(w')
  {
    if w' == w {
    } else if ws: Workspace :| ws.revision > w.workspace.revision && w' == w.(workspace := ws) {
      WriteInv(w, ws);
    } else if w'.src != w.src {
      SourceEnvironmentInv(w, w'.src);
    } else if w'.dst != w.dst {
      DestinationMountInv(w, w'.dst.mount);
    } else if w'.server.Purged? && w.server.Present? {
      PurgeInv(w);
    } else if expired :| w.disclosed != {} && w.server.Present? &&
                         w' == w.(server := Present(Consume(w.server.seal, w.workspace, CONSUMER_KEY, expired).0)) {
      ConsumeInv(w, expired);
    } else {
      var released, k :| w.server.Present? && w' == w.(server := Present(Reconcile(w.server.seal, released, k).0));
      ReconcileInv(w, released, k);
    }
  }

  lemma CrashInv(w: World)
    requires Inv(w)
    ensures Inv(SourceCrash(w)) && Inv(HandbackCrash(w))
  {
    HandbackFrame(w, SourceCrash(w));
    SourceFrame(w, HandbackCrash(w));
    assert CommitSent(HandbackCrash(w)) <==> CommitSent(w);
    assert HandbackSent(HandbackCrash(w)) <==> HandbackSent(w);
  }

  lemma StepInv(w: World, w': World)
    requires Inv(w) && Step(w, w')
    ensures Inv(w')
  {
    if SourceStep(w, w') { SourceStepInv(w, w'); }
    else if HandbackStep(w, w') { HandbackStepInv(w, w'); }
    else if ServerHandles(w, w') { ServerInv(w, w'); }
    else if EnvironmentStep(w, w') { EnvironmentInv(w, w'); }
    else { CrashInv(w); }
  }

  lemma {:induction false} RunInv(ws: seq<World>, i: nat)
    requires Run(ws) && i < |ws|
    ensures Inv(ws[i])
  {
    if i == 0 {
      InitInv(ws[0]);
    } else {
      RunInv(ws, i - 1);
      StepInv(ws[i - 1], ws[i]);
    }
  }
}
