/**
 A whole cutover and its return, as one concrete run: the source is sealed, the destination
 consumes and serves, its handback command ends one way or another after the commit was
 sent, the commit is handled late with its reply lost, and the source resumes.  Such runs
 show that the safety theorems are not about an empty set, and that their condition on who
 may start the destination is exact.
 */
module CutoverWitness {
  import opened Common
  import opened SealStore
  import opened CutoverModel
  import opened CutoverInvariant

  const WS := Workspace(7, 0)
  const RECEIPT := Receipt(1, WS, true, 0)
  const START := World(WS, Absent, {}, {}, {},
                       Source(Serving, false, None, Idle, SourceRecord(Preparing, None, None), None),
                       Destination(Down, false, None, HIdle, HandbackRecord(HPreparing, None), None))

  const SENT := {IssueReq(7), PrepareReq(7), CommitReq(7)}

  ghost predicate Reachable(w: World) {
    exists ws :: Run(ws) && ws[|ws| - 1] == w
  }

  lemma ByStep(w: World, w': World)
    requires Reachable(w) && Step(w, w')
    ensures Reachable(w')
  {
    var ws :| Run(ws) && ws[|ws| - 1] == w;
    assert Run(ws + [w']);
  }

  lemma BySource(w: World, w': World)
    requires Reachable(w) && SourceStep(w, w')
    ensures Reachable(w')
  {
    ByStep(w, w');
  }

  lemma ByHandback(w: World, w': World)
    requires Reachable(w) && HandbackStep(w, w')
    ensures Reachable(w')
  {
    ByStep(w, w');
  }

  lemma ByServer(w: World, q: Request, delivered: bool)
    requires Reachable(w) && q in w.sent
    ensures Reachable(Handled(w, q, 1, 0, delivered))
  {
    assert ServerHandles(w, Handled(w, q, 1, 0, delivered));
    ByStep(w, Handled(w, q, 1, 0, delivered));
  }

  lemma ByEnvironment(w: World, w': World)
    requires Reachable(w) && EnvironmentStep(w, w')
    ensures Reachable(w')
  {
    ByStep(w, w');
  }

  lemma ByCrash(w: World)
    requires Reachable(w)
    ensures Reachable(HandbackCrash(w))
  {
    ByStep(w, HandbackCrash(w));
  }

  /** The world after a checkpoint-seal has printed its envelope. */
  function SealedWorld(): World {
    World(WS, Present(Issue(1, WS)), {IssueReq(7)}, {Envelope(RECEIPT)}, {},
          Source(Down, false, Some(SourceRecord(Sealed, Some(RECEIPT), None)), Idle,
                 SourceRecord(Sealed, Some(RECEIPT), None), Some(Issued(RECEIPT))),
          START.dst)
  }

  /** The world in which a checkpoint-seal has stopped the source and asks for a seal. */
  function StoppedWorld(): World {
    World(WS, Absent, {}, {}, {},
          Source(Down, true, Some(SourceRecord(Stopped, None, None)), SendIssue, SourceRecord(Stopped, None, None), None),
          START.dst)
  }

  lemma ReachStopped()
    ensures Reachable(StoppedWorld())
  {
    assert Run([START]);
    assert Reachable(START) by { assert [START][0] == START; }
    var w1 := BeginSeal(START);
    BySource(START, w1);
    var w2 := SourceSave(w1, true, Stopping, Idle);
    BySource(w1, w2);
    assert MountFalls(Serving, Down);
    var w3 := w2.(src := w2.src.(mount := Down));
    ByEnvironment(w2, w3);
    var w4 := SourceLease(w3, true, Probed);
    BySource(w3, w4);
    var w5 := SourceSet(w4, w4.src.local.(status := Stopped), SaveStopped);
    BySource(w4, w5);
    var w6 := SourceSave(w5, true, SendIssue, SendIssue);
    BySource(w5, w6);
    assert w6 == StoppedWorld();
  }

  function IssuedWorld(): World {
    var w := StoppedWorld();
    w.(server := Present(Issue(1, WS)), sent := {IssueReq(7)},
       src := w.src.(pc := AwaitIssue, mail := Some(Issued(RECEIPT))))
  }

  lemma ReachIssued()
    ensures Reachable(IssuedWorld())
  {
    ReachStopped();
    var w7 := SourceSend(StoppedWorld(), IssueReq(7), AwaitIssue);
    BySource(StoppedWorld(), w7);
    ByServer(w7, IssueReq(7), true);
    assert Handled(w7, IssueReq(7), 1, 0, true) == IssuedWorld();
  }

  lemma ReachSealed()
    ensures Reachable(SealedWorld())
  {
    ReachIssued();
    var w8 := IssuedWorld();
    var w9 := SourceGoto(w8, ReleaseLease(Some(RECEIPT)));
    BySource(w8, w9);
    var w10 := SourceSet(SourceLease(w9, false, SaveSealed), SourceRecord(Sealed, Some(RECEIPT), None), SaveSealed);
    BySource(w9, w10);
    var w11 := SourceSave(w10, true, Emit, EnsureUnpersisted);
    BySource(w10, w11);
    var w12 := SourceGoto(w11, Idle).(disclosed := w11.disclosed + {Envelope(RECEIPT)});
    BySource(w11, w12);
    assert w12 == SealedWorld();
  }

  /** The destination has consumed the seal and serves. */
  function ServingWorld(): World {
    SealedWorld().(server := Present(Issue(1, WS).(consumer := Some(CONSUMER_KEY))),
                   dst := START.dst.(mount := Serving))
  }

  lemma ReachServing()
    ensures Reachable(ServingWorld())
  {
    ReachSealed();
    var w0 := SealedWorld();
    var w1 := w0.(server := Present(Consume(w0.server.seal, w0.workspace, CONSUMER_KEY, false).0));
    ByEnvironment(w0, w1);
    var w2 := w1.(dst := w1.dst.(mount := Serving));
    ByEnvironment(w1, w2);
    assert w2 == ServingWorld();
  }

  lemma ReachHandingBack() returns (w: World)
    ensures Reachable(w) && w.dst.pc == HSendPrepare && w.dst.record == Some(HandbackRecord(HandingBack, None))
    ensures w == World(WS, Present(Issue(1, WS).(consumer := Some(CONSUMER_KEY))), {IssueReq(7)}, {Envelope(RECEIPT)}, {},
                       SealedWorld().src,
                       Destination(Down, true, Some(HandbackRecord(HandingBack, None)), HSendPrepare, HandbackRecord(HandingBack, None), None))
  {
    ReachServing();
    var w2 := ServingWorld();
    var w3 := BeginHandback(w2);
    ByHandback(w2, w3);
    var w4 := HandbackSave(w3, true, HStopping(true), HIdle);
    ByHandback(w3, w4);
    assert MountFalls(Serving, Down);
    var w5 := w4.(dst := w4.dst.(mount := Down));
    ByEnvironment(w4, w5);
    var w6 := HandbackLease(w5, true, HProbed(true));
    ByHandback(w5, w6);
    var w7 := HandbackSet(w6, w6.dst.local.(status := HStopped), HSaveStopped(true));
    ByHandback(w6, w7);
    var w8 := HandbackSaveStopped(w7, true, true);
    ByHandback(w7, w8);
    w := HandbackSave(w8, true, HSendPrepare, HReleaseDone(false));
    ByHandback(w8, w);
  }

  /** The handback command has sent its commit. */
  function CommittingWorld(): World {
    World(WS, Present(Seal(1, WS, Some(CONSUMER_KEY), Some(Preparation(HANDBACK_KEY, WS)), None, NotResumed)), SENT,
          {Envelope(RECEIPT)}, {}, SealedWorld().src,
          Destination(Down, true, Some(HandbackRecord(HandingBack, None)), HAwaitCommit(7), HandbackRecord(HandingBack, None), None))
  }

  function PreparedWorld(): World {
    var w := CommittingWorld();
    w.(sent := {IssueReq(7), PrepareReq(7)},
       dst := w.dst.(pc := HAwaitPrepare(7), mail := Some(Granted(Ownership(1, PreparedStatus, WS, false)))))
  }

  lemma ReachPrepared()
    ensures Reachable(PreparedWorld())
  {
    var w0 := ReachHandingBack();
    var w1 := HandbackSend(w0, PrepareReq(7), HAwaitPrepare(7));
    ByHandback(w0, w1);
    ByServer(w1, PrepareReq(7), true);
    assert Handled(w1, PrepareReq(7), 1, 0, true) == PreparedWorld();
  }

  lemma ReachCommitting()
    ensures Reachable(CommittingWorld())
  {
    ReachPrepared();
    var w2 := PreparedWorld();
    var w3 := HandbackGoto(w2, HSendCommit(7));
    ByHandback(w2, w3);
    var w4 := HandbackSend(w3, CommitReq(7), HAwaitCommit(7));
    ByHandback(w3, w4);
    assert w4 == CommittingWorld();
  }

  /** No handback command runs; its commit is in the network, or has been handled. */
  function Parked(d: Destination, released: Option<Workspace>): World {
    CommittingWorld().(dst := d,
      server := Present(Seal(1, WS, Some(CONSUMER_KEY), Some(Preparation(HANDBACK_KEY, WS)), released, NotResumed)))
  }

  /** The same, with the source sealed or having been refused once already. */
  function ParkedAgain(d: Destination, released: Option<Workspace>): World {
    var w := Parked(d, released);
    w.(sent := SENT + {ResumeReq}, src := w.src.(mail := Some(Answered(Refused(HandbackRequired)))))
  }

  predicate Idling(d: Destination, status: HandbackStatus) {
    d.mount == Down && !d.lease && d.pc == HIdle && d.record.Some? && d.record.value.status == status
  }

  /** The command dies waiting for the answer. */
  lemma ReachHandingBackIdle() returns (d: Destination)
    ensures Reachable(Parked(d, None)) && Idling(d, HandingBack) && d.record == Some(HandbackRecord(HandingBack, None))
  {
    ReachCommitting();
    d := HandbackCrash(CommittingWorld()).dst;
    ByCrash(CommittingWorld());
    assert HandbackCrash(CommittingWorld()) == Parked(d, None);
  }

  /** A retry dies after it has saved that the mount is stopped. */
  lemma ReachStoppedIdle() returns (d: Destination)
    ensures Reachable(Parked(d, None)) && Idling(d, HStopped)
  {
    var d0 := ReachHandingBackIdle();
    var w0 := Parked(d0, None);
    var w1 := BeginHandback(w0);
    ByHandback(w0, w1);
    var w2 := HandbackSet(HandbackLease(w1, true, HSaveStopped(false)), w1.dst.local.(status := HStopped), HSaveStopped(false));
    ByHandback(w1, w2);
    var w3 := HandbackSaveStopped(w2, true, false);
    ByHandback(w2, w3);
    ByCrash(w3);
    d := HandbackCrash(w3).dst;
    assert HandbackCrash(w3) == Parked(d, None);
  }

  /** The answer to the commit never comes, and the command records that. */
  lemma ReachUnknownIdle() returns (d: Destination)
    ensures Reachable(Parked(d, None)) && Idling(d, HandbackUnknown)
  {
    ReachCommitting();
    var w0 := CommittingWorld();
    var w1 := HandbackGoto(w0, HReleaseFailed(false));
    ByHandback(w0, w1);
    var w2 := HandbackSet(HandbackLease(w1, false, HSaveLast), w1.dst.local.(status := HandbackUnknown), HSaveLast);
    ByHandback(w1, w2);
    var w3 := HandbackSave(w2, true, HIdle, HIdle);
    ByHandback(w2, w3);
    d := w3.dst;
    assert w3 == Parked(d, None);
  }

  const RELEASE := Ownership(1, ReleasedStatus, WS, false)

  function CommittedWorld(): World {
    var w := CommittingWorld();
    w.(server := Present(w.server.seal.(released := Some(WS))), dst := w.dst.(mail := Some(Granted(RELEASE))))
  }

  lemma ReachCommitted()
    ensures Reachable(CommittedWorld())
  {
    ReachCommitting();
    ByServer(CommittingWorld(), CommitReq(7), true);
    assert Handled(CommittingWorld(), CommitReq(7), 1, 0, true) == CommittedWorld();
  }

  /** The handback succeeds; only its output fails. */
  lemma ReachReleasedIdle() returns (d: Destination)
    ensures Reachable(Parked(d, Some(WS))) && Idling(d, HandbackReleased)
  {
    ReachRecorded();
    var w3 := RecordedWorld();
    ByHandback(w3, HandbackLease(w3, false, HIdle));
    d := HandbackLease(w3, false, HIdle).dst;
    assert HandbackLease(w3, false, HIdle) == Parked(d, Some(WS));
  }

  /** The release is durable, the lease not yet given up. */
  function RecordedWorld(): World {
    var w := CommittedWorld();
    var r := HandbackRecord(HandbackReleased, Some(RELEASE));
    w.(dst := w.dst.(record := Some(r), local := r, pc := HReleaseDone(true)))
  }

  lemma ReachRecorded()
    ensures Reachable(RecordedWorld())
  {
    ReachCommitted();
    var w1 := CommittedWorld();
    var w2 := HandbackSet(w1, HandbackRecord(HandbackReleased, Some(RELEASE)), HSaveReleased);
    ByHandback(w1, w2);
    var w3 := HandbackSave(w2, true, HReleaseDone(true), HReleaseDone(false));
    ByHandback(w2, w3);
    assert w3 == RecordedWorld();
  }

  /** The source has recorded that it resumes and is about to ask. */
  function Asking(w: World): World {
    w.(src := w.src.(record := Some(SourceRecord(Resuming, Some(RECEIPT), None)),
                     local := SourceRecord(Resuming, Some(RECEIPT), None), pc := SendResume))
  }

  /** The commit has released, and the source asks to resume. */
  function ResumingWorld(d: Destination): World {
    Asking(Parked(d, Some(WS)))
  }

  lemma ReachAsking(w: World)
    requires Reachable(w) && w.src == SealedWorld().src.(mail := w.src.mail)
    ensures Reachable(Asking(w))
  {
    var w2 := BeginResume(w);
    BySource(w, w2);
    var w3 := SourceSave(w2, true, AfterResuming(w2.src.local), Idle);
    BySource(w2, w3);
    assert w3 == Asking(w);
  }

  lemma ReachReleased(d: Destination, released: Option<Workspace>)
    requires Reachable(Parked(d, released)) && d.pc == HIdle && (released == None || released == Some(WS))
    ensures Reachable(Parked(d, Some(WS)))
  {
    ByServer(Parked(d, released), CommitReq(7), false);
    assert Handled(Parked(d, released), CommitReq(7), 1, 0, false) == Parked(d, Some(WS));
  }

  lemma ReachResuming(d: Destination, released: Option<Workspace>)
    requires Reachable(Parked(d, released)) && d.pc == HIdle && (released == None || released == Some(WS))
    ensures Reachable(ResumingWorld(d))
  {
    ReachReleased(d, released);
    ReachAsking(Parked(d, Some(WS)));
  }

  const PROOF := Ownership(1, SourceResumedStatus, WS, true)

  /** The server has returned ownership; the source has the answer. */
  function GrantedWorld(d: Destination): World {
    var w := ResumingWorld(d);
    w.(server := Present(w.server.seal.(resumed := ResumedBy(RESUME_KEY))), sent := SENT + {ResumeReq},
       src := w.src.(pc := AwaitResume, mail := Some(Answered(Granted(PROOF)))))
  }

  /** And has taken it for a proof. */
  function ClaimedWorld(d: Destination): World {
    var w := GrantedWorld(d);
    w.(src := w.src.(local := SourceRecord(Resuming, Some(RECEIPT), Some(PROOF)), pc := SaveProof))
  }

  lemma ReachGranted(d: Destination)
    requires Reachable(ResumingWorld(d))
    ensures Reachable(GrantedWorld(d))
  {
    var w3 := ResumingWorld(d);
    var w4 := SourceSend(w3, ResumeReq, AwaitResume);
    BySource(w3, w4);
    ByServer(w4, ResumeReq, true);
    assert Handled(w4, ResumeReq, 1, 0, true) == GrantedWorld(d);
  }

  lemma ReachClaimed(d: Destination)
    requires Reachable(GrantedWorld(d))
    ensures Reachable(ClaimedWorld(d))
  {
    var w5 := GrantedWorld(d);
    var (r, pc) := OnResumeReply(w5.src.local, Granted(PROOF));
    BySource(w5, SourceSet(w5, r, pc));
    assert SourceSet(w5, r, pc) == ClaimedWorld(d);
  }

  /** The source serves again, its proof durable. */
  function ReturnedWorld(d: Destination): World {
    var w := ClaimedWorld(d);
    w.(src := w.src.(mount := Serving, record := Some(w.src.local), pc := EnsureResumed))
  }

  lemma ReachReturned(d: Destination)
    requires Reachable(ClaimedWorld(d))
    ensures Reachable(ReturnedWorld(d))
  {
    var w6 := ClaimedWorld(d);
    var w7 := SourceSave(w6, true, EnsureResumed, Idle);
    BySource(w6, w7);
    BySource(w7, SourceRestart(w7));
    assert SourceRestart(w7) == ReturnedWorld(d);
  }

  lemma ReturnedFacts(d: Destination)
    ensures var w := ReturnedWorld(d);
            && w.dst == d && w.src.mount == Serving && HasProof(w.src)
            && HandbackReleasedAt(w.server) && SourceResumedAt(w.server)
  {
  }

  /** From any such point the source can come back, the handback's record staying as it is. */
  lemma SourceReturns(d: Destination, released: Option<Workspace>) returns (w: World)
    requires Reachable(Parked(d, released)) && d.pc == HIdle && (released == None || released == Some(WS))
    ensures Reachable(w) && w.dst == d
    ensures w.src.mount == Serving && HasProof(w.src) && HandbackReleasedAt(w.server) && SourceResumedAt(w.server)
  {
    ReachResuming(d, released);
    ReachGranted(d);
    ReachClaimed(d);
    ReachReturned(d);
    w := ReturnedWorld(d);
    ReturnedFacts(d);
  }

  /** A complete cycle is reachable: the late commit releases, and the source serves again
      with its proof durable while the handback record still says "handing-back". */
  lemma CutoverCompletes() returns (w: World)
    ensures Reachable(w)
    ensures w.src.mount == Serving && HasProof(w.src) && HandbackReleasedAt(w.server) && SourceResumedAt(w.server)
    ensures Idling(w.dst, HandingBack)
  {
    var d := ReachHandingBackIdle();
    w := SourceReturns(d, None);
  }

  // ------------------------------------------------------------ refused, then resumed

  /** The source asked while the destination still owned: it is told so, and sealed again. */
  lemma ReachRefused(d: Destination)
    requires Reachable(Parked(d, None)) && d.pc == HIdle
    ensures Reachable(ParkedAgain(d, None))
  {
    ReachAsking(Parked(d, None));
    ReachTurnedDown(d);
    ReachSealedAgain(d);
  }

  /** The refusal is in the source's hands. */
  function TurnedDown(d: Destination): World {
    var w := Asking(Parked(d, None));
    w.(sent := SENT + {ResumeReq}, src := w.src.(pc := AwaitResume, mail := Some(Answered(Refused(HandbackRequired)))))
  }

  lemma ReachTurnedDown(d: Destination)
    requires Reachable(Asking(Parked(d, None)))
    ensures Reachable(TurnedDown(d))
  {
    var w3 := Asking(Parked(d, None));
    var w4 := SourceSend(w3, ResumeReq, AwaitResume);
    BySource(w3, w4);
    ByServer(w4, ResumeReq, true);
    assert Handled(w4, ResumeReq, 1, 0, true) == TurnedDown(d);
  }

  lemma ReachSealedAgain(d: Destination)
    requires Reachable(TurnedDown(d))
    ensures Reachable(ParkedAgain(d, None))
  {
    var w5 := TurnedDown(d);
    var (r, pc) := OnResumeReply(w5.src.local, Refused(HandbackRequired));
    var w6 := SourceSet(w5, r, pc);
    BySource(w5, w6);
    var w7 := SourceSave(w6, true, Idle, Idle);
    BySource(w6, w7);
    assert w7 == ParkedAgain(d, None);
  }

  lemma ReachGrantedAgain(d: Destination)
    requires Reachable(ParkedAgain(d, None)) && d.pc == HIdle
    ensures Reachable(GrantedWorld(d))
  {
    var w0 := ParkedAgain(d, None);
    ByServer(w0, CommitReq(7), false);
    assert Handled(w0, CommitReq(7), 1, 0, false) == ParkedAgain(d, Some(WS));
    ReachAsking(ParkedAgain(d, Some(WS)));
    AskAgain(d);
  }

  lemma AskAgain(d: Destination)
    requires Reachable(Asking(ParkedAgain(d, Some(WS))))
    ensures Reachable(GrantedWorld(d))
  {
    var w3 := Asking(ParkedAgain(d, Some(WS)));
    var w4 := SourceSend(w3, ResumeReq, AwaitResume);
    BySource(w3, w4);
    ByServer(w4, ResumeReq, true);
    assert Handled(w4, ResumeReq, 1, 0, true) == GrantedWorld(d);
  }

  lemma ReachReady(d: Destination) returns (w: World)
    requires Reachable(ReturnedWorld(d))
    ensures Reachable(w) && w.dst == d && w.src.pc == Idle && w.src.mount == Serving
    ensures w.src.record == Some(SourceRecord(Ready, Some(RECEIPT.(hasToken := false)), Some(PROOF)))
  {
    var w1 := SourceGoto(ReturnedWorld(d), AwaitConverged);
    BySource(ReturnedWorld(d), w1);
    var w2 := SourceSet(w1, Resumed(w1.src.local), SaveLast);
    BySource(w1, w2);
    w := SourceSave(w2, true, Idle, Idle);
    BySource(w2, w);
  }

  /** A refused resume closes nothing: refused while the destination owned, the source is
      sealed as before, and once the handback has released, the next resume ends ready. */
  lemma RefusedThenReady() returns (refused: World, ready: World)
    ensures Reachable(refused) && refused.src.pc == Idle
    ensures refused.src.record == Some(SourceRecord(Sealed, Some(RECEIPT), None))
    ensures refused.src.mail == Some(Answered(Refused(HandbackRequired)))
    ensures Reachable(ready) && ready.src.pc == Idle && ready.src.mount == Serving
    ensures ready.src.record == Some(SourceRecord(Ready, Some(RECEIPT.(hasToken := false)), Some(PROOF)))
  {
    var d := ReachHandingBackIdle();
    ReachRefused(d);
    refused := ParkedAgain(d, None);
    ReachGrantedAgain(d);
    ReachClaimed(d);
    ReachReturned(d);
    ready := ReachReady(d);
  }

  // ------------------------------------------------------- who may start the destination

  /** The destination could be started here by somebody who looks at its record alone. */
  ghost predicate StartCandidate(w: World, status: Option<HandbackStatus>) {
    && Reachable(w) && Consumed(w.server) && w.dst.pc == HIdle && w.dst.mount == Down
    && StatusOf(w.dst.record) == status
  }

  function StatusOf(r: Option<HandbackRecord>): Option<HandbackStatus> {
    match r case None => None case Some(x) => Some(x.status)
  }

  /** A start under this status never finds the source alive. */
  ghost predicate StartIsSafe(status: Option<HandbackStatus>) {
    forall w :: StartCandidate(w, status) ==> w.src.mount == Down
  }

  lemma SafeStart(w: World, status: Option<HandbackStatus>)
    requires StartCandidate(w, status) && SafeToStart(w.dst.record)
    ensures w.src.mount == Down && MayStart(w)
  {
    var ws :| Run(ws) && ws[|ws| - 1] == w;
    RunInv(ws, |ws| - 1);
    assert !HandbackReleasedAt(w.server);
  }

  lemma UnsafeStart(status: HandbackStatus) returns (w: World)
    requires status in {HStopped, HandingBack, HandbackUnknown, HandbackReleased}
    ensures StartCandidate(w, Some(status)) && w.src.mount == Serving
  {
    var d;
    match status {
      case HStopped => d := ReachStoppedIdle();
      case HandingBack => d := ReachHandingBackIdle();
      case HandbackUnknown => d := ReachUnknownIdle();
      case HandbackReleased => d := ReachReleasedIdle();
    }
    w := SourceReturns(d, if status == HandbackReleased then Some(WS) else None);
  }

  /** Exactly when starting the destination by its record alone keeps a single writer: there
      is no record, or it says preparing, or the handback gave up.  Under every other status
      some reachable world has the source alive. */
  lemma StartIsSafeIff(status: Option<HandbackStatus>)
    ensures StartIsSafe(status) <==> status.None? || status.value in {HPreparing, FailedDestinationReady, HRecoveryFailed}
  {
    if status.None? || status.value == HPreparing || GaveUp(status.value) {
      forall w | StartCandidate(w, status) ensures w.src.mount == Down {
        SafeStart(w, status);
      }
    } else {
      var w := UnsafeStart(status.value);
      assert !StartIsSafe(status);
    }
  }
}
