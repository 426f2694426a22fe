/**
 Moving write ownership of one workspace between a source and a destination mount: the
 seal, resume and handback commands as atomic effects over durable records, mount daemons,
 leases, the server's seal record and the network between them.

 One source lifecycle id and one handback id are followed.  Any command can die between two
 effects, any save can fail, and a request once sent can be handled by the server any
 number of times, at any later time, with its reply delivered or lost.
 */
module CutoverModel {
  import opened Common
  import opened SealStore

  // ---------------------------------------------------------------- the source's record

  datatype SourceStatus =
    | Preparing | Stopped | PresealFailed | RecoveryFailed
    | Sealed | Resuming | OwnershipConflict | Ready

  /** A seal receipt as the source keeps it; the bearer token is erased once resumed. */
  datatype Receipt = Receipt(sealId: nat, state: Workspace, hasToken: bool, sealedAt: nat)

  datatype SourceRecord = SourceRecord(status: SourceStatus, receipt: Option<Receipt>, proof: Option<Ownership>)

  /** The machine contract a successful checkpoint-seal prints: it hands the token out. */
  datatype Envelope = Envelope(receipt: Receipt)

  predicate ValidProof(r: SourceRecord, p: Ownership) {
    r.receipt.Some? && p.status == SourceResumedStatus && p.sealId == r.receipt.value.sealId && p.sourceResumed
  }

  // ----------------------------------------------------------- the destination's record

  datatype HandbackStatus =
    | HPreparing | HStopped | HandingBack | HandbackUnknown
    | HandbackReleased | FailedDestinationReady | HRecoveryFailed

  datatype HandbackRecord = HandbackRecord(status: HandbackStatus, result: Option<Ownership>)

  // ------------------------------------------------------------------------------ hosts

  /** A mount daemon: it holds the mount lease from start until it begins to exit. */
  datatype Mount = Down | Exiting | Serving

  /** Where a seal or resume command stands: the effect it performs next. */
  datatype SourcePC =
    | Idle
    | SavePreparing | Stopping | Probed | SaveStopped
    | SendIssue | AwaitIssue | ReleaseLease(issued: Option<Receipt>)
    | SaveSealed | Emit
    | EnsurePreseal(onReady: SourceStatus) | EnsureUnpersisted
    | SaveResuming | SendResume | AwaitResume | SaveProof
    | EnsureResumed | AwaitConverged
    | SaveLast

  datatype SourceReply = Issued(receipt: Receipt) | Answered(reply: Reply)

  datatype Source = Source(
    mount: Mount,
    lease: bool,                      // the running command holds the mount lease
    record: Option<SourceRecord>,     // durable
    pc: SourcePC,
    local: SourceRecord,              // the command's copy
    mail: Option<SourceReply>)

  /** Where a handback command stands. */
  datatype HandbackPC =
    | HIdle
    | HSavePreparing | HStopping(first: bool) | HProbed(first: bool)
    | HEnsureStopFailed | HSaveStopped(first: bool) | HReleaseUnsaved | HEnsureUnsaved
    | HAcquire
    | HSaveHandingBack | HSendPrepare | HAwaitPrepare(digest: nat) | HSendCommit(digest: nat) | HAwaitCommit(digest: nat)
    | HReleaseFailed(definitive: bool) | HEnsureDiverged
    | HSaveReleased | HReleaseDone(saved: bool)
    | HSaveLast

  datatype Destination = Destination(
    mount: Mount,
    lease: bool,
    record: Option<HandbackRecord>,
    pc: HandbackPC,
    local: HandbackRecord,
    mail: Option<Reply>)

  // ------------------------------------------------------------------------------ world

  datatype Server = Absent | Present(seal: Seal) | Purged(seal: Seal)

  /** Requests carry stable idempotency keys, so a repeated one is the same value. */
  datatype Request = IssueReq(expected: nat) | ResumeReq | PrepareReq(digest: nat) | CommitReq(digest: nat)

  const RESUME_KEY: Key := 1
  const CONSUMER_KEY: Key := 2
  const HANDBACK_KEY: Key := 3

  datatype World = World(
    workspace: Workspace,
    server: Server,
    sent: set<Request>,
    disclosed: set<Envelope>,
    handedBack: set<Ownership>,
    src: Source,
    dst: Destination)

  ghost predicate Init(w: World) {
    && w.server == Absent && w.sent == {} && w.disclosed == {} && w.handedBack == {}
    && w.src.mount == Serving && !w.src.lease && w.src.record == None && w.src.pc == Idle && w.src.mail == None
    && w.dst.mount == Down && !w.dst.lease && w.dst.record == None && w.dst.pc == HIdle && w.dst.mail == None
  }

  // ------------------------------------------------------- effects of a source command

  function SourceGoto(w: World, pc: SourcePC): World {
    w.(src := w.src.(pc := pc))
  }

  function SourceSet(w: World, r: SourceRecord, pc: SourcePC): World {
    w.(src := w.src.(local := r, pc := pc))
  }

  /** An atomic replace of the record file: it happens or it reports an error. */
  function SourceSave(w: World, ok: bool, then_: SourcePC, else_: SourcePC): World {
    w.(src := w.src.(record := if ok then Some(w.src.local) else w.src.record, pc := if ok then then_ else else_))
  }

  function SourceSend(w: World, q: Request, pc: SourcePC): World {
    w.(sent := w.sent + {q}, src := w.src.(pc := pc, mail := None))
  }

  /** Acquiring or releasing the mount lease. */
  function SourceLease(w: World, held: bool, pc: SourcePC): World {
    w.(src := w.src.(lease := held, pc := pc))
  }

  function Restarted(m: Mount, lease: bool): Mount {
    if m == Down && !lease then Serving else m
  }

  /** Starting the mount process; it comes up only if it can take the lease. */
  function SourceRestart(w: World): World {
    w.(src := w.src.(mount := Restarted(w.src.mount, w.src.lease)))
  }

  /** mount checkpoint-seal up to its first effect. */
  function BeginSeal(w: World): World {
    match w.src.record
    case None => if w.src.mount == Serving then SourceSet(w, SourceRecord(Preparing, None, None), SavePreparing) else w
    case Some(r) =>
      if r.status == Sealed && r.receipt.Some? then SourceSet(w, r, Emit)
      else if r.status == Preparing || r.status == Stopped then SourceSet(w, r, EnsurePreseal(PresealFailed))
      else w
  }

  /** mount resume-seal up to its first effect. */
  function BeginResume(w: World): World {
    match w.src.record
    case None => w
    case Some(r) =>
      if r.status == Preparing || r.status == Stopped || r.status == PresealFailed then
        SourceSet(w, r, EnsurePreseal(Ready))
      else if (r.status == Sealed || r.status == Resuming) && r.receipt.Some? && r.receipt.value.hasToken then
        SourceSet(w, r.(status := Resuming), SaveResuming)
      else w
  }

  /** A proof that is already durable is not asked for again. */
  function AfterResuming(local: SourceRecord): SourcePC {
    if local.proof.Some? then EnsureResumed else SendResume
  }

  /** What the resume command makes of the server's answer. */
  function OnResumeReply(local: SourceRecord, reply: Reply): (SourceRecord, SourcePC) {
    match reply
    case Granted(p) =>
      if ValidProof(local, p) then (local.(proof := Some(p)), SaveProof)
      else (local.(status := OwnershipConflict), SaveLast)
    case Refused(c) =>
      if c == HandbackRequired then (local.(status := Sealed), SaveLast)
      else if c == ResumeConflict || c == Replayed then (local.(status := OwnershipConflict), SaveLast)
      else (local, SaveLast)
  }

  /** The record saved when the resume has converged: ready, its bearer token erased. */
  function Resumed(r: SourceRecord): SourceRecord {
    r.(status := Ready, receipt := match r.receipt case Some(x) => Some(x.(hasToken := false)) case None => None)
  }

  ghost predicate SourceStep(w: World, w': World) {
    var s := w.src;
    match s.pc
    case Idle => w' == BeginSeal(w) || w' == BeginResume(w)
    case SavePreparing => exists ok :: w' == SourceSave(w, ok, Stopping, Idle)
    case Stopping =>
      || (s.mount != Serving && w' == SourceLease(w, true, Probed))
      || w' == SourceGoto(w, EnsurePreseal(PresealFailed))
    case Probed =>
      if s.mount == Down then w' == SourceSet(w, s.local.(status := Stopped), SaveStopped)
      else w' == SourceLease(w, false, Stopping)
    case SaveStopped => exists ok :: w' == SourceSave(w, ok, SendIssue, SendIssue)
    case SendIssue =>
      || (exists d :: w' == SourceSend(w, IssueReq(d), AwaitIssue))
      || w' == SourceGoto(w, ReleaseLease(None))
    case AwaitIssue =>
      || (s.mail.Some? && s.mail.value.Issued? && w' == SourceGoto(w, ReleaseLease(Some(s.mail.value.receipt))))
      || w' == SourceGoto(w, ReleaseLease(None))
    case ReleaseLease(None) => w' == SourceLease(w, false, EnsurePreseal(PresealFailed))
    case ReleaseLease(Some(r)) =>
      w' == SourceSet(SourceLease(w, false, SaveSealed), s.local.(status := Sealed, receipt := Some(r)), SaveSealed)
    case SaveSealed => exists ok :: w' == SourceSave(w, ok, Emit, EnsureUnpersisted)
    case Emit =>
      || (s.local.receipt.Some? && w' == SourceGoto(w, Idle).(disclosed := w.disclosed + {Envelope(s.local.receipt.value)}))
      || w' == SourceGoto(w, Idle)
    case EnsurePreseal(onReady) =>
      || w' == SourceRestart(w)
      || (s.mount == Serving && w' == SourceSet(w, s.local.(status := onReady), SaveLast))
      || w' == SourceSet(w, s.local.(status := RecoveryFailed), SaveLast)
    case EnsureUnpersisted => w' == SourceRestart(w) || w' == SourceGoto(w, Idle)
    case SaveResuming =>
      exists ok :: w' == SourceSave(w, ok, AfterResuming(s.local), Idle)
    case SendResume => w' == SourceSend(w, ResumeReq, AwaitResume) || w' == SourceGoto(w, SaveLast)
    case AwaitResume =>
      || (s.mail.Some? && s.mail.value.Answered? &&
          var (r, pc) := OnResumeReply(s.local, s.mail.value.reply);
          w' == SourceSet(w, r, pc))
      || w' == SourceGoto(w, SaveLast)
    case SaveProof => exists ok :: w' == SourceSave(w, ok, EnsureResumed, Idle)
    case EnsureResumed =>
      || w' == SourceRestart(w)
      || (s.mount == Serving && w' == SourceGoto(w, AwaitConverged))
      || w' == SourceGoto(w, SaveLast)
    case AwaitConverged => w' == SourceSet(w, Resumed(s.local), SaveLast) || w' == SourceGoto(w, SaveLast)
    case SaveLast => exists ok :: w' == SourceSave(w, ok, Idle, Idle)
  }

  /** The command process dies; the operating system drops its lease. */
  function SourceCrash(w: World): World {
    w.(src := w.src.(pc := Idle, lease := false, mail := None))
  }

  // ----------------------------------------------------- effects of a handback command

  function HandbackGoto(w: World, pc: HandbackPC): World {
    w.(dst := w.dst.(pc := pc))
  }

  function HandbackSet(w: World, r: HandbackRecord, pc: HandbackPC): World {
    w.(dst := w.dst.(local := r, pc := pc))
  }

  function HandbackSave(w: World, ok: bool, then_: HandbackPC, else_: HandbackPC): World {
    w.(dst := w.dst.(record := if ok then Some(w.dst.local) else w.dst.record, pc := if ok then then_ else else_))
  }

  function HandbackSend(w: World, q: Request, pc: HandbackPC): World {
    w.(sent := w.sent + {q}, dst := w.dst.(pc := pc, mail := None))
  }

  function HandbackLease(w: World, held: bool, pc: HandbackPC): World {
    w.(dst := w.dst.(lease := held, pc := pc))
  }

  function HandbackRestart(w: World): World {
    w.(dst := w.dst.(mount := Restarted(w.dst.mount, w.dst.lease)))
  }

  /** Saving the stopped state; only a first attempt restarts when that fails. */
  function HandbackSaveStopped(w: World, ok: bool, first: bool): World {
    if ok then
      HandbackSet(HandbackSave(w, true, HSaveHandingBack, HIdle), w.dst.local.(status := HandingBack), HSaveHandingBack)
    else HandbackGoto(w, if first then HReleaseUnsaved else HReleaseDone(false))
  }

  predicate Retryable(s: HandbackStatus) {
    s == HPreparing || s == HStopped || s == HandingBack || s == HandbackUnknown
  }

  /** mount handback-seal up to its first effect; a released handback only replays. */
  function BeginHandback(w: World): World {
    match w.dst.record
    case None => if w.dst.mount == Serving then HandbackSet(w, HandbackRecord(HPreparing, None), HSavePreparing) else w
    case Some(r) =>
      if r.status == HandbackReleased && r.result.Some? then w.(handedBack := w.handedBack + {r.result.value})
      else if Retryable(r.status) then HandbackSet(w, r, HAcquire)
      else w
  }

  /** The command's reading of a reply: keep going, done, or failed definitively or not. */
  predicate PreparedFor(reply: Reply, d: nat) {
    reply.Granted? && reply.proof.status == PreparedStatus && reply.proof.state.digest == d && !reply.proof.sourceResumed
  }

  predicate ReleasedFor(reply: Reply, d: nat) {
    reply.Granted? && reply.proof.status == ReleasedStatus && reply.proof.state.digest == d && !reply.proof.sourceResumed
  }

  ghost predicate HandbackStep(w: World, w': World) {
    var d := w.dst;
    match d.pc
    case HIdle => w' == BeginHandback(w)
    case HSavePreparing => exists ok :: w' == HandbackSave(w, ok, HStopping(true), HIdle)
    case HStopping(first) =>
      || (d.mount != Serving && w' == HandbackLease(w, true, HProbed(first)))
      || w' == HandbackGoto(w, if first then HEnsureStopFailed else HIdle)
    case HProbed(first) =>
      if d.mount == Down then w' == HandbackSet(w, d.local.(status := HStopped), HSaveStopped(first))
      else w' == HandbackLease(w, false, HStopping(first))
    case HEnsureStopFailed =>
      || w' == HandbackRestart(w)
      || (d.mount == Serving && w' == HandbackSet(w, d.local.(status := FailedDestinationReady), HSaveLast))
      || w' == HandbackSet(w, d.local.(status := HRecoveryFailed), HSaveLast)
    case HSaveStopped(first) =>
      exists ok :: w' == HandbackSaveStopped(w, ok, first)
    case HReleaseUnsaved => w' == HandbackLease(w, false, HEnsureUnsaved)
    case HEnsureUnsaved => w' == HandbackRestart(w) || w' == HandbackGoto(w, HIdle)
    case HAcquire =>
      || (d.mount != Serving && w' == HandbackSet(HandbackLease(w, true, HSaveStopped(false)), d.local.(status := HStopped), HSaveStopped(false)))
      || (d.local.status == HPreparing && d.mount == Serving && w' == HandbackGoto(w, HStopping(false)))
      || w' == HandbackGoto(w, HIdle)
    case HSaveHandingBack => exists ok :: w' == HandbackSave(w, ok, HSendPrepare, HReleaseDone(false))
    case HSendPrepare =>
      || (exists n :: w' == HandbackSend(w, PrepareReq(n), HAwaitPrepare(n)))
      || w' == HandbackGoto(w, HReleaseFailed(false))
    case HAwaitPrepare(n) =>
      || (d.mail.Some? && PreparedFor(d.mail.value, n) && w' == HandbackGoto(w, HSendCommit(n)))
      || (d.mail.Some? && ReleasedFor(d.mail.value, n) &&
          w' == HandbackSet(w, HandbackRecord(HandbackReleased, Some(d.mail.value.proof)), HSaveReleased))
      || (d.mail == Some(Refused(Diverged)) && w' == HandbackGoto(w, HReleaseFailed(true)))
      || (d.mail != Some(Refused(Diverged)) && w' == HandbackGoto(w, HReleaseFailed(false)))
    case HSendCommit(n) =>
      || w' == HandbackSend(w, CommitReq(n), HAwaitCommit(n))
      || w' == HandbackGoto(w, HReleaseFailed(false))
    case HAwaitCommit(n) =>
      || (d.mail.Some? && ReleasedFor(d.mail.value, n) &&
          w' == HandbackSet(w, HandbackRecord(HandbackReleased, Some(d.mail.value.proof)), HSaveReleased))
      || (d.mail == Some(Refused(Diverged)) && w' == HandbackGoto(w, HReleaseFailed(true)))
      || (d.mail != Some(Refused(Diverged)) && w' == HandbackGoto(w, HReleaseFailed(false)))
    case HReleaseFailed(true) => w' == HandbackLease(w, false, HEnsureDiverged)
    case HReleaseFailed(false) =>
      w' == HandbackSet(HandbackLease(w, false, HSaveLast), d.local.(status := HandbackUnknown), HSaveLast)
    case HEnsureDiverged =>
      || w' == HandbackRestart(w)
      || (d.mount == Serving && w' == HandbackSet(w, d.local.(status := FailedDestinationReady), HSaveLast))
      || w' == HandbackSet(w, d.local.(status := HRecoveryFailed), HSaveLast)
    case HSaveReleased => exists ok :: w' == HandbackSave(w, ok, HReleaseDone(true), HReleaseDone(false))
    case HReleaseDone(saved) =>
      || w' == HandbackLease(w, false, HIdle)
      || (saved && d.local.result.Some? &&
          w' == HandbackLease(w, false, HIdle).(handedBack := w.handedBack + {d.local.result.value}))
    case HSaveLast => exists ok :: w' == HandbackSave(w, ok, HIdle, HIdle)
  }

  function HandbackCrash(w: World): World {
    w.(dst := w.dst.(pc := HIdle, lease := false, mail := None))
  }

  // ------------------------------------------------------------------------ the server

  /** The record after the server handles a request, and the reply it gives. */
  function Handle(server: Server, current: Workspace, q: Request, freshId: nat, now: nat): (Server, SourceReply) {
    match q
    case IssueReq(expected) =>
      if server == Absent && current.digest == expected then
        (Present(Issue(freshId, current)), Issued(Receipt(freshId, current, true, now)))
      else if server.Present? && server.seal == Issue(server.seal.id, current) then
        (server, Issued(Receipt(server.seal.id, current, true, now)))
      else (server, Answered(Refused(if server == Absent then Diverged else Replayed)))
    case ResumeReq =>
      if server.Present? then var (s, r) := Resume(server.seal, current, RESUME_KEY); (Present(s), Answered(r))
      else (server, Answered(Refused(NotFound)))
    case PrepareReq(n) =>
      if server.Present? then
        var (s, r) := Handback(server.seal, current, Prepare, CONSUMER_KEY, HANDBACK_KEY, n); (Present(s), Answered(r))
      else (server, Answered(Refused(NotFound)))
    case CommitReq(n) =>
      if server.Present? then
        var (s, r) := Handback(server.seal, current, Commit, CONSUMER_KEY, HANDBACK_KEY, n); (Present(s), Answered(r))
      else (server, Answered(Refused(NotFound)))
  }

  /** The command, if any, that is waiting for the answer to this request. */
  predicate SourceAwaits(w: World, q: Request) {
    (w.src.pc == AwaitIssue && q.IssueReq?) || (w.src.pc == AwaitResume && q.ResumeReq?)
  }

  predicate HandbackAwaits(w: World, q: Request) {
    (q.PrepareReq? && w.dst.pc == HAwaitPrepare(q.digest)) || (q.CommitReq? && w.dst.pc == HAwaitCommit(q.digest))
  }

  ghost predicate ServerHandles(w: World, w': World) {
    exists q, id, now, delivered: bool :: q in w.sent && w' == Handled(w, q, id, now, delivered)
  }

  function Handled(w: World, q: Request, freshId: nat, now: nat, delivered: bool): World {
    var (server, reply) := Handle(w.server, w.workspace, q, freshId, now);
    var w1 := w.(server := server);
    if delivered && SourceAwaits(w, q) then w1.(src := w.src.(mail := Some(reply)))
    else if delivered && HandbackAwaits(w, q) && reply.Answered? then w1.(dst := w.dst.(mail := Some(reply.reply)))
    else w1
  }

  /** What else the environment does. */
  ghost predicate EnvironmentStep(w: World, w': World) {
    // another client of the workspace writes
    || (exists ws: Workspace :: ws.revision > w.workspace.revision && w' == w.(workspace := ws))
    // whoever was handed the token consumes the seal for the destination
    || (exists expired :: w.disclosed != {} && w.server.Present? &&
         w' == w.(server := Present(Consume(w.server.seal, w.workspace, CONSUMER_KEY, expired).0)))
    // an administrator reconciles; the store drops a record the source has resumed
    || (exists released, k :: w.server.Present? && w' == w.(server := Present(Reconcile(w.server.seal, released, k).0)))
    || (w.server.Present? && SourceOwns(w.server.seal) && w' == w.(server := Purged(w.server.seal)))
    // the controller, an operator or a verification starts the destination's mount
    || (MayStart(w) && w' == w.(dst := w.dst.(mount := Serving)))
    // daemons exit or die
    || (exists m :: MountFalls(w.src.mount, m) && w' == w.(src := w.src.(mount := m)))
    || (exists m :: MountFalls(w.dst.mount, m) && w' == w.(dst := w.dst.(mount := m)))
    // a mangled answer reaches the source; it never passes for a proof
    || (exists p :: w.src.pc == AwaitResume && !ValidProof(w.src.local, p) &&
         w' == w.(src := w.src.(mail := Some(Answered(Granted(p))))))
  }

  /** A handback that ended with the destination restarted, or with a failed restart. */
  predicate GaveUp(s: HandbackStatus) {
    s == FailedDestinationReady || s == HRecoveryFailed
  }

  /** The handback has not got past its first save, or has given up. */
  predicate SafeToStart(r: Option<HandbackRecord>) {
    r == None || r.value.status == HPreparing || GaveUp(r.value.status)
  }

  /** When anything but a handback command may start the destination: the seal was consumed,
      no command runs, and the durable record allows it. */
  predicate MayStart(w: World) {
    && w.server.Present? && w.server.seal.consumer.Some? && w.dst.pc == HIdle && w.dst.mount == Down
    && SafeToStart(w.dst.record)
  }

  predicate MountFalls(m: Mount, m': Mount) {
    (m == Serving && m' != Serving) || (m == Exiting && m' == Down)
  }

  ghost predicate Step(w: World, w': World) {
    || SourceStep(w, w')
    || HandbackStep(w, w')
    || ServerHandles(w, w')
    || EnvironmentStep(w, w')
    || w' == SourceCrash(w)
    || w' == HandbackCrash(w)
  }

  /** A finite execution from an initial world. */
  ghost predicate Run(ws: seq<World>) {
    && |ws| > 0 && Init(ws[0])
    && forall i, j {:trigger Step(ws[i], ws[j])} :: 0 <= i < j < |ws| && j == i + 1 ==> Step(ws[i], ws[j])
  }
}
